/** The transaction view of frontend/src/pages/Dashboard.jsx: its list,
    loading and error state, the add form, and the three handlers that change
    them. `fetchTransactions` is split at its await like the login handler. */
module DashboardView {
  import opened Common
  import opened Api

  const TransactionsEndpoint := "/transactions"
  const LoginPath := "/login"
  const LoadFailedText := "Failed to load transactions. Please try again later."
  const MissingFieldsText := "Please provide amount and date."
  const AddFailedText := "Failed to add transaction."

  /** A rejection that reads as "token missing or invalid": status 401 or 422. */
  predicate ForcesLogout(response: Option<HttpError>) {
    StatusOf(response) == Some(401) || StatusOf(response) == Some(422)
  }

  /** A fetch whose response body could be read (`res.data` is not null). */
  predicate Loaded(outcome: Outcome) {
    outcome.Success? && outcome.data.Some?
  }

  /** A request whose rejection ends in the forced logout. */
  predicate LogsOut(outcome: Outcome) {
    outcome.Failure? && ForcesLogout(outcome.response)
  }

  /** The list once a fetch has settled: replaced wholesale by the body's
      `transactions` (or `[]` without one) when loaded, kept otherwise. */
  function ListAfterFetch(list: seq<TxnView>, outcome: Outcome): (r: seq<TxnView>)
    ensures Loaded(outcome) && outcome.data.value.transactions.Some? ==> r == outcome.data.value.transactions.value
    ensures Loaded(outcome) && outcome.data.value.transactions.None? ==> r == []
    ensures !Loaded(outcome) ==> r == list
  {
    if Loaded(outcome) then outcome.data.value.transactions.GetOr([]) else list
  }

  /** The error a whole fetch leaves: none after a load or a forced logout,
      the fixed retry text after any other failure. */
  function ErrorAfterFetch(outcome: Outcome): (e: Option<string>)
    ensures e.None? <==> Loaded(outcome) || LogsOut(outcome)
    ensures e.Some? ==> e.value == LoadFailedText
  {
    if Loaded(outcome) || LogsOut(outcome) then None else Some(LoadFailedText)
  }

  /** The body `handleAdd` posts. The amount goes as the form's text; the
      conversion by `parseFloat` is not part of the model. */
  function AddBody(amount: string, description: string, date: string): (b: Json)
    ensures b.Keys == {"amount", "description", "date"}
    ensures b["amount"] == amount && b["description"] == description && b["date"] == date
  {
    map["amount" := amount, "description" := description, "date" := date]
  }

  class Dashboard {
    var transactions: seq<TxnView>
    var loading: bool
    var error: Option<string>
    var amount: string
    var description: string
    var date: string
    const browser: Browser

    constructor (browser: Browser)
      ensures this.browser == browser
      ensures transactions == [] && loading && error.None?
      ensures amount == "" && description == "" && date == ""
    {
      this.browser := browser;
      transactions, loading, error := [], true, None;
      amount, description, date := "", "", "";
    }

    /** `fetchTransactions` up to its await. */
    method BeginFetch() returns (req: Request)
      modifies this`loading, this`error
      ensures loading && error.None?
      ensures req == Request(Get, TransactionsEndpoint, OutgoingHeaders(browser.token), map[])
    {
      loading := true;
      error := None;
      req := Send(browser, Get, TransactionsEndpoint, map[]);
    }

    /** `fetchTransactions` after its await. Reading `transactions` off a
        null body throws inside the try, and that error has no response. The
        forced-logout `return` still runs the finally block. */
    method FinishFetch(outcome: Outcome)
      modifies this`transactions, this`loading, this`error, browser
      ensures !loading
      ensures transactions == ListAfterFetch(old(transactions), outcome)
      ensures Loaded(outcome) ==> error == old(error) && unchanged(browser)
      ensures LogsOut(outcome) ==>
        error == old(error) && browser.token.None? && browser.location == LoginPath
      ensures !Loaded(outcome) && !LogsOut(outcome) ==>
        error == Some(LoadFailedText) && unchanged(browser)
      ensures old(browser.NoFalsyToken()) ==> browser.NoFalsyToken()
    {
      var caught: Option<HttpError>;
      match outcome {
        case Success(data) =>
          if data.Some? {
            transactions := data.value.transactions.GetOr([]);
            loading := false;
            return;
          }
          caught := None;
        case Failure(response) =>
          caught := response;
      }
      if ForcesLogout(caught) {
        browser.token := None;
        browser.location := LoginPath;
        loading := false;
        return;
      }
      error := Some(LoadFailedText);
      loading := false;
    }

    /** The whole `fetchTransactions`, for one outcome of its request. */
    method FetchTransactions(outcome: Outcome) returns (req: Request)
      modifies this`transactions, this`loading, this`error, browser
      ensures req == Request(Get, TransactionsEndpoint, OutgoingHeaders(old(browser.token)), map[])
      ensures !loading
      ensures transactions == ListAfterFetch(old(transactions), outcome)
      ensures error == ErrorAfterFetch(outcome)
      ensures browser.token == (if LogsOut(outcome) then None else old(browser.token))
      ensures browser.location == (if LogsOut(outcome) then LoginPath else old(browser.location))
      ensures old(browser.NoFalsyToken()) ==> browser.NoFalsyToken()
    {
      req := BeginFetch();
      FinishFetch(outcome);
    }

    /** `handleAdd`: validates the form locally, posts it, and on success
        clears the form and refetches. `sent` lists the requests issued, in
        order; the refetch never throws, so its outcome cannot reach the
        catch block of `handleAdd`. */
    method HandleAdd(postOutcome: Outcome, fetchOutcome: Outcome) returns (sent: seq<Request>)
      modifies this`transactions, this`loading, this`error, this`amount, this`description, this`date, browser
      // local validation: no request, the form as it was
      ensures old(amount) == "" || old(date) == "" ==>
        sent == [] && error == Some(MissingFieldsText)
        && amount == old(amount) && description == old(description) && date == old(date)
        && transactions == old(transactions) && loading == old(loading) && unchanged(browser)
      // the form is posted with the token the store held
      ensures old(amount) != "" && old(date) != "" ==>
        |sent| >= 1 && sent[0] == Request(Post, TransactionsEndpoint, OutgoingHeaders(old(browser.token)),
                                          AddBody(old(amount), old(description), old(date)))
      ensures old(amount) != "" && old(date) != "" && postOutcome.Success? ==>
        |sent| == 2 && sent[1] == Request(Get, TransactionsEndpoint, OutgoingHeaders(old(browser.token)), map[])
        && amount == "" && description == "" && date == ""
        && !loading
        && transactions == ListAfterFetch(old(transactions), fetchOutcome)
        && error == ErrorAfterFetch(fetchOutcome)
        && browser.token == (if LogsOut(fetchOutcome) then None else old(browser.token))
        && browser.location == (if LogsOut(fetchOutcome) then LoginPath else old(browser.location))
      ensures old(amount) != "" && old(date) != "" && postOutcome.Failure? ==>
        |sent| == 1
        && amount == old(amount) && description == old(description) && date == old(date)
        && transactions == old(transactions) && loading == old(loading)
      ensures old(amount) != "" && old(date) != "" && LogsOut(postOutcome) ==>
        error.None? && browser.token.None? && browser.location == LoginPath
      ensures old(amount) != "" && old(date) != "" && postOutcome.Failure? && !LogsOut(postOutcome) ==>
        error == Some(AddFailedText) && unchanged(browser)
      ensures old(browser.NoFalsyToken()) ==> browser.NoFalsyToken()
    {
      error := None;
      if amount == "" || date == "" {
        error := Some(MissingFieldsText);
        return [];
      }
      var post := Send(browser, Post, TransactionsEndpoint, AddBody(amount, description, date));
      match postOutcome {
        case Success(_) =>
          amount, description, date := "", "", "";
          var get := FetchTransactions(fetchOutcome);
          sent := [post, get];
        case Failure(response) =>
          sent := [post];
          if ForcesLogout(response) {
            browser.token := None;
            browser.location := LoginPath;
            return;
          }
          error := Some(AddFailedText);
      }
    }

    /** `handleLogout`: empties the token store and goes to the login page,
        whatever the state. */
    method HandleLogout()
      modifies browser
      ensures browser.token.None? && browser.location == LoginPath
    {
      browser.token := None;
      browser.location := LoginPath;
    }
  }
}
