/**
 * The company dashboard's state: the search over the listed companies and
 * the open/closed state of the company form and the delete dialog.
 */
module CompanyDashboard {
  import opened Wrappers
  import opened Text

  /** A listed company: the fields the dashboard searches and counts. */
  datatype Company = Company(id: string, name: string, gstin: string, email: string, state: string)

  /** The search test: the lower-cased name, GSTIN or email contains the lower-cased term. */
  predicate Matches(c: Company, term: string) {
    Contains(Lower(c.name), Lower(term)) || Contains(Lower(c.gstin), Lower(term)) ||
    Contains(Lower(c.email), Lower(term))
  }

  /** `a` is `b` with some elements left out, the rest in their order. */
  predicate IsSubsequence(a: seq<Company>, b: seq<Company>) {
    if a == [] then true
    else if b == [] then false
    else if a[|a| - 1] == b[|b| - 1] then IsSubsequence(a[..|a| - 1], b[..|b| - 1])
    else IsSubsequence(a, b[..|b| - 1])
  }

  /** `filteredCompanies`: the matching companies, in list order. */
  function Filtered(companies: seq<Company>, term: string): (r: seq<Company>)
    ensures |r| <= |companies|
  {
    if companies == [] then []
    else
      var last := companies[|companies| - 1];
      Filtered(companies[..|companies| - 1], term) + (if Matches(last, term) then [last] else [])
  }

  /** The search keeps exactly the companies that match the term. */
  lemma {:induction false} FilteredMembers(companies: seq<Company>, term: string)
    ensures forall c :: c in Filtered(companies, term) <==> c in companies && Matches(c, term)
    decreases |companies|
  {
    if companies != [] {
      var init, last := companies[..|companies| - 1], companies[|companies| - 1];
      FilteredMembers(init, term);
      assert companies == init + [last];
    }
  }

  /** The search never reorders or repeats: its result is a subsequence of the list. */
  lemma {:induction false} FilteredIsSubsequence(companies: seq<Company>, term: string)
    ensures IsSubsequence(Filtered(companies, term), companies)
    decreases |companies|
  {
    if companies != [] {
      var front := companies[..|companies| - 1];
      var last := companies[|companies| - 1];
      FilteredIsSubsequence(front, term);
      var r := Filtered(companies, term);
      if Matches(last, term) {
        assert r[..|r| - 1] == Filtered(front, term);
      } else {
        assert r == Filtered(front, term);
        SubsequenceOfLonger(r, front, last);
      }
    }
  }

  lemma {:induction false} SubsequenceOfLonger(a: seq<Company>, b: seq<Company>, x: Company)
    requires IsSubsequence(a, b)
    ensures IsSubsequence(a, b + [x])
    decreases |b|, 1
  {
    if a != [] && b != [] {
      assert (b + [x])[..|b|] == b;
      if a[|a| - 1] == x {
        SubsequenceOfShorter(a, b);
      }
    }
  }

  lemma {:induction false} SubsequenceOfShorter(a: seq<Company>, b: seq<Company>)
    requires a != [] && IsSubsequence(a, b)
    ensures IsSubsequence(a[..|a| - 1], b)
    decreases |b|, 0
  {
    if b != [] {
      if a[|a| - 1] == b[|b| - 1] {
        SubsequenceOfLonger(a[..|a| - 1], b[..|b| - 1], b[|b| - 1]);
        assert b[..|b| - 1] + [b[|b| - 1]] == b;
      } else {
        SubsequenceOfShorter(a, b[..|b| - 1]);
        SubsequenceOfLonger(a[..|a| - 1], b[..|b| - 1], b[|b| - 1]);
        assert b[..|b| - 1] + [b[|b| - 1]] == b;
      }
    }
  }

  /** An empty search shows every company. */
  lemma {:induction false} EmptySearchShowsAll(companies: seq<Company>)
    ensures Filtered(companies, "") == companies
    decreases |companies|
  {
    if companies != [] {
      var init, last := companies[..|companies| - 1], companies[|companies| - 1];
      EmptySearchShowsAll(init);
      assert Matches(last, "") by {
        ContainsEmpty(Lower(last.name));
        assert Lower("") == "";
      }
      assert Filtered(companies, "") == Filtered(init, "") + [last];
      assert init + [last] == companies;
    }
  }

  /** The dashboard's dialog state, and the companies a confirmed delete has logged. */
  class Dashboard {
    var searchTerm: string
    var selectedCompany: Option<Company>
    var isFormOpen: bool
    var isDeleteOpen: bool
    var companyToDelete: Option<Company>
    var deleteLog: seq<Company>

    constructor ()
      ensures searchTerm == "" && selectedCompany == None && !isFormOpen
      ensures !isDeleteOpen && companyToDelete == None && deleteLog == []
    {
      searchTerm := "";
      selectedCompany := None;
      isFormOpen := false;
      isDeleteOpen := false;
      companyToDelete := None;
      deleteLog := [];
    }

    /** The companies shown for the current search. */
    function Shown(companies: seq<Company>): (r: seq<Company>)
      reads this
      ensures forall c :: c in r <==> c in companies && Matches(c, searchTerm)
    {
      FilteredMembers(companies, searchTerm);
      Filtered(companies, searchTerm)
    }

    method SetSearchTerm(term: string)
      modifies this`searchTerm
      ensures searchTerm == term
    {
      searchTerm := term;
    }

    /** `handleAddNew`: no selection, form open. */
    method HandleAddNew()
      modifies this`selectedCompany, this`isFormOpen
      ensures selectedCompany == None && isFormOpen
    {
      selectedCompany := None;
      isFormOpen := true;
    }

    /** `handleEdit`: this company selected, form open. */
    method HandleEdit(c: Company)
      modifies this`selectedCompany, this`isFormOpen
      ensures selectedCompany == Some(c) && isFormOpen
    {
      selectedCompany := Some(c);
      isFormOpen := true;
    }

    /** `handleDelete`: the company is held and the confirmation dialog opens. */
    method HandleDelete(c: Company)
      modifies this`companyToDelete, this`isDeleteOpen
      ensures companyToDelete == Some(c) && isDeleteOpen
    {
      companyToDelete := Some(c);
      isDeleteOpen := true;
    }

    /** `confirmDelete`: the held company is logged, the dialog closes and nothing is held any more. */
    method ConfirmDelete()
      modifies this`companyToDelete, this`isDeleteOpen, this`deleteLog
      ensures deleteLog == old(deleteLog) + (if old(companyToDelete).Some? then [old(companyToDelete).value] else [])
      ensures !isDeleteOpen && companyToDelete == None
    {
      if companyToDelete.Some? {
        deleteLog := deleteLog + [companyToDelete.value];
      }
      isDeleteOpen := false;
      companyToDelete := None;
    }

    /** `closeForm`: form closed, no selection. */
    method CloseForm()
      modifies this`isFormOpen, this`selectedCompany
      ensures !isFormOpen && selectedCompany == None
    {
      isFormOpen := false;
      selectedCompany := None;
    }
  }
}
