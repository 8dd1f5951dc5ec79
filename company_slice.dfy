/**
 * The frontend's company state: fetching and updating the signed-in
 * tenant's company, both of which need the stored sign-in token before any
 * request is made.
 */
module CompanySlice {
  import opened Wrappers
  import AuthSlice

  /** A company: its id and its other fields. */
  datatype Company = Company(id: string, fields: map<string, string>)

  /** The server's answer body: `{ status, message, data }`. */
  datatype CompanyResponse = CompanyResponse(status: string, message: string, data: Company)

  /** A request sent to the company service, with its bearer token. */
  datatype Request =
    | Get(token: string)
    | Put(id: string, body: map<string, string>, token: string)

  const NoToken := "Authentication token not found."

  /** `!token`: no token, or an empty one. */
  predicate HasToken(token: Option<string>) {
    token.Some? && token.value != ""
  }

  /** The result of a thunk's request, given how the request ended. */
  function Settle(reply: AuthSlice.Reply<CompanyResponse>, serverFallback: string, networkFallback: string): (r: Result<Company, string>)
    ensures reply.Answered? ==> r == Ok(reply.body.data)
    ensures reply.HttpError? ==> r == Err(AuthSlice.OrElse(reply.serverMessage, serverFallback))
    ensures reply.NoAnswer? ==> r == Err(AuthSlice.OrElse(reply.errorMessage, networkFallback))
  {
    match reply
    case Answered(body) => Ok(body.data)
    case HttpError(m) => Err(AuthSlice.OrElse(m, serverFallback))
    case NoAnswer(m) => Err(AuthSlice.OrElse(m, networkFallback))
  }

  /**
   * The `fetchCompany` thunk: the request it sends, if any, and its result.
   * Without a token it rejects at once and sends nothing.
   */
  function FetchCompany(token: Option<string>, reply: AuthSlice.Reply<CompanyResponse>): (r: (Option<Request>, Result<Company, string>))
    ensures !HasToken(token) ==> r == (None, Err(NoToken))
    ensures HasToken(token) ==> r.0 == Some(Get(token.value))
    ensures HasToken(token) ==> r.1 == Settle(reply, "Failed to fetch company.", "Network error fetching company.")
  {
    if !HasToken(token) then (None, Err(NoToken))
    else (Some(Get(token.value)), Settle(reply, "Failed to fetch company.", "Network error fetching company."))
  }

  /**
   * The `updateCompany` thunk: the company's id goes in the path and its
   * other fields in the body. Without a token it rejects at once and sends
   * nothing.
   */
  function UpdateCompany(token: Option<string>, company: Company, reply: AuthSlice.Reply<CompanyResponse>): (r: (Option<Request>, Result<Company, string>))
    ensures !HasToken(token) ==> r == (None, Err(NoToken))
    ensures HasToken(token) ==> r.0 == Some(Put(company.id, company.fields, token.value))
    ensures HasToken(token) ==> r.1 == Settle(reply, "Failed to update company.", "Network error updating company.")
  {
    if !HasToken(token) then (None, Err(NoToken))
    else (Some(Put(company.id, company.fields, token.value)), Settle(reply, "Failed to update company.", "Network error updating company."))
  }

  /** The slice's state, and the requests its thunks have sent. */
  class CompanyState {
    var company: Option<Company>
    var loading: bool
    var error: Option<string>
    var successMessage: Option<string>
    var sent: seq<Request>

    constructor ()
      ensures company == None && !loading && error == None && successMessage == None && sent == []
    {
      company := None;
      loading := false;
      error := None;
      successMessage := None;
      sent := [];
    }

    /** `clearCompanyMessages`. */
    method ClearCompanyMessages()
      modifies this`error, this`successMessage
      ensures error == None && successMessage == None
    {
      error := None;
      successMessage := None;
    }

    /**
     * A whole `fetchCompany` dispatch: pending clears the error (but not the
     * success message); a result stores the company, a rejection its message.
     */
    method Fetch(token: Option<string>, reply: AuthSlice.Reply<CompanyResponse>)
      modifies this
      ensures var (request, result) := FetchCompany(token, reply);
        sent == old(sent) + (if request.Some? then [request.value] else []) &&
        !loading && successMessage == old(successMessage) &&
        (result.Ok? ==> company == Some(result.value) && error == None) &&
        (result.Err? ==> company == old(company) && error == Some(AuthSlice.OrElse(Some(result.error), "Failed to fetch company.")))
    {
      var (request, result) := FetchCompany(token, reply);
      if request.Some? {
        sent := sent + [request.value];
      }
      loading := true;
      error := None;
      match result
      case Ok(c) =>
        loading := false;
        company := Some(c);
      case Err(message) =>
        loading := false;
        error := Some(AuthSlice.OrElse(Some(message), "Failed to fetch company."));
    }

    /** A whole `updateCompany` dispatch: the stored company is replaced only by a successful answer. */
    method Update(token: Option<string>, c: Company, reply: AuthSlice.Reply<CompanyResponse>)
      modifies this
      ensures var (request, result) := UpdateCompany(token, c, reply);
        sent == old(sent) + (if request.Some? then [request.value] else []) &&
        !loading &&
        (result.Ok? ==> company == Some(result.value) && error == None && successMessage == Some("Company updated successfully!")) &&
        (result.Err? ==> company == old(company) && successMessage == None &&
                         error == Some(AuthSlice.OrElse(Some(result.error), "Failed to update company.")))
    {
      var (request, result) := UpdateCompany(token, c, reply);
      if request.Some? {
        sent := sent + [request.value];
      }
      loading := true;
      error := None;
      successMessage := None;
      match result
      case Ok(updated) =>
        loading := false;
        company := Some(updated);
        successMessage := Some("Company updated successfully!");
      case Err(message) =>
        loading := false;
        error := Some(AuthSlice.OrElse(Some(message), "Failed to update company."));
    }
  }

  /** Signed out, neither thunk sends anything and both report the missing token. */
  lemma SignedOutSendsNothing(c: Company, reply: AuthSlice.Reply<CompanyResponse>)
    ensures FetchCompany(None, reply) == (None, Err(NoToken))
    ensures UpdateCompany(None, c, reply) == (None, Err(NoToken))
    ensures UpdateCompany(Some(""), c, reply) == (None, Err(NoToken))
  {
  }
}
