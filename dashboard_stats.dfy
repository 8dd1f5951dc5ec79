/**
 * The dashboard's "companies by state" chart: companies are counted per
 * state into an object, whose entries become the chart's data in the
 * order each state was first met.
 */
module DashboardStats {
  import CompanyDashboard

  /** The companies' `state` fields, in list order. */
  function States(companies: seq<CompanyDashboard.Company>): (r: seq<string>)
    ensures |r| == |companies| && forall i :: 0 <= i < |r| ==> r[i] == companies[i].state
  {
    seq(|companies|, i requires 0 <= i < |companies| => companies[i].state)
  }

  /** One chart entry: a state and how many companies are in it. */
  datatype Entry = Entry(name: string, value: nat)

  /** The number of companies in `state`. */
  function Count(states: seq<string>, state: string): (n: nat)
    ensures n <= |states|
    ensures n == 0 <==> state !in states
  {
    if states == [] then 0
    else Count(states[..|states| - 1], state) + (if states[|states| - 1] == state then 1 else 0)
  }

  /** The distinct states, in the order each is first met: the object's key order. */
  function Keys(states: seq<string>): (keys: seq<string>)
    ensures forall k :: k in keys <==> k in states
    ensures forall i, j :: 0 <= i < j < |keys| ==> keys[i] != keys[j]
  {
    if states == [] then []
    else
      var keys := Keys(states[..|states| - 1]);
      if states[|states| - 1] in keys then keys else keys + [states[|states| - 1]]
  }

  /** The total of the counts of the given keys. */
  function SumOver(keys: seq<string>, states: seq<string>): nat {
    if keys == [] then 0 else SumOver(keys[..|keys| - 1], states) + Count(states, keys[|keys| - 1])
  }

  /**
   * The chart data: one entry per distinct state, in first-met order,
   * carrying that state's count.
   */
  method StateChartData(companies: seq<CompanyDashboard.Company>) returns (data: seq<Entry>)
    ensures var states := States(companies);
      |data| == |Keys(states)| &&
      forall i :: 0 <= i < |data| ==> data[i] == Entry(Keys(states)[i], Count(states, Keys(states)[i]))
  {
    var states := States(companies);
    var keys, counts := CountByState(states);
    data := [];
    var j := 0;
    while j < |keys|
      invariant 0 <= j <= |keys|
      invariant |data| == j
      invariant forall m :: 0 <= m < j ==> keys[m] in counts && data[m] == Entry(keys[m], counts[keys[m]])
    {
      assert keys[j] in keys;
      data := data + [Entry(keys[j], counts[keys[j]])];
      j := j + 1;
    }
  }

  /** The `reduce`: the object of counts, with its keys in insertion order. */
  method CountByState(states: seq<string>) returns (keys: seq<string>, counts: map<string, nat>)
    ensures keys == Keys(states)
    ensures forall k :: k in counts <==> k in keys
    ensures forall k :: k in counts ==> counts[k] == Count(states, k)
  {
    keys := [];
    counts := map[];
    var i := 0;
    while i < |states|
      invariant 0 <= i <= |states|
      invariant keys == Keys(states[..i])
      invariant forall k :: k in counts <==> k in keys
      invariant forall k :: k in counts ==> counts[k] == Count(states[..i], k)
    {
      var state := states[i];
      OneMore(states, i);
      if state in counts {
        counts := counts[state := counts[state] + 1];
      } else {
        counts := counts[state := 1];
        keys := keys + [state];
      }
      i := i + 1;
    }
    assert states[..i] == states;
  }

  /** Counting one more company: its state is added to the keys if new, and only its count grows. */
  lemma OneMore(states: seq<string>, i: nat)
    requires i < |states|
    ensures Keys(states[..i + 1]) ==
      if states[i] in Keys(states[..i]) then Keys(states[..i]) else Keys(states[..i]) + [states[i]]
    ensures forall k :: Count(states[..i + 1], k) == Count(states[..i], k) + (if states[i] == k then 1 else 0)
  {
    assert states[..i + 1][..i] == states[..i];
  }

  /** One more company adds one to the count of its own state, if that state is among the keys, and nothing else. */
  lemma {:induction false} SumOverAppend(keys: seq<string>, states: seq<string>, s: string)
    requires forall i, j :: 0 <= i < j < |keys| ==> keys[i] != keys[j]
    ensures SumOver(keys, states + [s]) == SumOver(keys, states) + (if s in keys then 1 else 0)
    decreases |keys|
  {
    if keys != [] {
      var front := keys[..|keys| - 1];
      var last := keys[|keys| - 1];
      assert (states + [s])[..|states|] == states;
      SumOverAppend(front, states, s);
      assert s in keys <==> s in front || s == last;
      assert !(s in front && s == last);
    }
  }

  /** Every company is counted exactly once: the counts add up to the number of companies. */
  lemma {:induction false} CountsAddUp(states: seq<string>)
    ensures SumOver(Keys(states), states) == |states|
    decreases |states|
  {
    if states != [] {
      var front := states[..|states| - 1];
      var s := states[|states| - 1];
      assert states == front + [s];
      CountsAddUp(front);
      var keys := Keys(front);
      SumOverAppend(keys, front, s);
      if s !in keys {
        assert Keys(states) == keys + [s];
        assert (keys + [s])[..|keys|] == keys;
      }
    }
  }

  /** The chart's values: each positive, and together the number of companies; no companies, no entries. */
  lemma ChartTotals(companies: seq<CompanyDashboard.Company>)
    ensures var states := States(companies);
      (forall k :: k in Keys(states) ==> Count(states, k) >= 1) &&
      SumOver(Keys(states), states) == |companies| &&
      (companies == [] ==> Keys(states) == [])
  {
    CountsAddUp(States(companies));
  }
}
