/** The client and the backend together: a backend reply delivered to a
    view, and what the two halves do with each other's requests. */
module EndToEnd {
  import opened Common
  import opened Api
  import opened LoginView
  import opened Models
  import opened Resources

  /** How axios hands a Flask reply to the awaiting view: a status in
      200..299 resolves, any other rejects with the response attached. With
      the debug mode backend/app.py starts the server in, an exception
      escaping a handler reaches the debugger, whose HTML page carries none
      of the JSON fields the views read. */
  function Deliver(r: Reply): (o: Outcome)
    ensures o.Success? <==> 200 <= r.Status() < 300
    ensures o.Success? ==> o.data.Some?
    ensures o.Failure? ==> StatusOf(o.response) == Some(r.Status())
    ensures r.Message? ==> (if o.Success? then o.data else o.response.value.data) == Some(ResponseData(None, Some(r.text), None))
    ensures r.TokenIssued? ==> AccessTokenOf(o.data) == Some(r.accessToken)
    ensures r.Listing? ==> o.data.value.transactions == Some(r.transactions)
  {
    match r
    case Message(status, text) =>
      var body := Some(ResponseData(None, Some(text), None));
      if 200 <= status < 300 then Success(body) else Failure(Some(HttpError(status, body)))
    case TokenIssued(token) => Success(Some(ResponseData(Some(token), None, None)))
    case Listing(items) => Success(Some(ResponseData(None, None, Some(items))))
    case ServerError => Failure(Some(HttpError(500, Some(ResponseData(None, None, None)))))
  }

  /** The sign-in form posts no `username`, so the backend's lookup finds
      nobody, whatever the tables hold: every sign-in through the view ends
      in 401 and "Invalid credentials", and the token store is untouched. */
  method SignInAsWritten(page: LoginPage, db: Database) returns (reply: Reply)
    requires db.Valid()
    modifies page`loading, page`error, page.browser
    ensures reply == Message(401, InvalidCredentialsText)
    ensures page.error == InvalidCredentialsText && !page.loading && unchanged(page.browser)
  {
    var req := page.BeginLogin();
    assert "username" !in req.body;
    reply := db.Login(req.body);
    page.FinishLogin(Deliver(reply));
  }

  /** The login resource with the lookup by the `email` the form sends. */
  method LoginByEmail(db: Database, data: Json) returns (r: Reply)
    requires db.Valid()
    ensures r.TokenIssued? <==>
      exists u :: u in db.users && Some(u.email) == Field(data, "email")
                  && "password" in data && db.crypto.check(u.passwordHash, data["password"])
    ensures r.TokenIssued? ==>
      exists u :: u in db.users && Some(u.email) == Field(data, "email")
                  && r.accessToken == db.crypto.issue(u.id)
    ensures r == ServerError <==>
      (exists u :: u in db.users && Some(u.email) == Field(data, "email")) && "password" !in data
    ensures !r.TokenIssued? && r != ServerError ==> r == Message(401, InvalidCredentialsText)
  {
    var email := Field(data, "email");
    var password := Field(data, "password");
    var user := FirstBy(db.users, EmailColumn, email);
    if user.Some? {
      if password.None? {
        return ServerError;
      }
      forall u | u in db.users && Some(u.email) == email
        ensures u == user.value
      {
        FirstByIsOnly(db.users, EmailColumn, email, u);
      }
      if db.crypto.check(user.value.passwordHash, password.value) {
        return TokenIssued(db.crypto.issue(user.value.id));
      }
    }
    return Message(401, InvalidCredentialsText);
  }

  /** Sign-in through the view against the email lookup: a stored user
      whose email and password the form holds gets a token for their id. */
  method SignInByEmail(page: LoginPage, db: Database) returns (reply: Reply)
    requires db.Valid() && Sound(db.crypto)
    modifies page`loading, page`error, page.browser
    ensures !page.loading
    ensures forall u :: u in db.users && u.email == page.email && db.crypto.check(u.passwordHash, page.password) ==>
      page.browser.token == Some(db.crypto.issue(u.id)) && page.browser.location == DashboardPath
      && page.error == ""
    ensures (forall u :: u in db.users && u.email == page.email ==> !db.crypto.check(u.passwordHash, page.password)) ==>
      page.error == InvalidCredentialsText && unchanged(page.browser)
  {
    var req := page.BeginLogin();
    reply := LoginByEmail(db, req.body);
    forall u | u in db.users && u.email == page.email && db.crypto.check(u.passwordHash, page.password)
      ensures reply == TokenIssued(db.crypto.issue(u.id))
    {
      FirstByIsOnly(db.users, EmailColumn, Some(page.email), u);
      var w :| w in db.users && Some(w.email) == Field(req.body, "email") && reply.accessToken == db.crypto.issue(w.id);
      FirstByIsOnly(db.users, EmailColumn, Some(page.email), w);
    }
    page.FinishLogin(Deliver(reply));
  }

  /** Someone who registers and then signs in with the same email and
      password, as written: the sign-in is refused. */
  method RegisteredUserSignInAsWritten(db: Database, page: LoginPage, username: string, email: string, password: string)
    returns (registered: Reply, signedIn: Reply)
    requires db.Valid()
    requires page.email == email && page.password == password
    modifies db`users, page`loading, page`error, page.browser
    ensures db.Valid()
    ensures registered.Status() == 201 || registered.Status() == 400
    ensures registered.Status() == 201 ==>
      db.users == old(db.users) + [User(NextUserId(old(db.users)), username, email, db.crypto.hash(password))]
    ensures registered.Status() == 400 ==> db.users == old(db.users)
    ensures signedIn == Message(401, InvalidCredentialsText)
    ensures page.error == InvalidCredentialsText && !page.loading && unchanged(page.browser)
  {
    registered := db.Register(map["username" := username, "email" := email, "password" := password]);
    signedIn := SignInAsWritten(page, db);
  }

  /** The same journey with the email lookup: a new user's registration
      succeeds and the sign-in stores the token issued for the new row. */
  method RegisteredUserSignIn(db: Database, page: LoginPage, username: string, email: string, password: string)
    returns (registered: Reply, signedIn: Reply)
    requires db.Valid() && Sound(db.crypto)
    requires !Clashes(db.users, Some(username), Some(email))
    requires page.email == email && page.password == password
    modifies db`users, page`loading, page`error, page.browser
    ensures db.Valid()
    ensures registered == Message(201, UserCreatedText)
    ensures db.users == old(db.users) + [User(NextUserId(old(db.users)), username, email, db.crypto.hash(password))]
    ensures page.browser.token == Some(db.crypto.issue(NextUserId(old(db.users))))
    ensures page.browser.location == DashboardPath && page.error == "" && !page.loading
    // the dashboard's next request carries the new token, unless the issuer
    // produced one of the two sentinel strings
    ensures var t := db.crypto.issue(NextUserId(old(db.users)));
      t != "undefined" && t != "null" ==>
      OutgoingHeaders(page.browser.token) == map[AuthorizationHeader := BearerPrefix + t]
  {
    registered := db.Register(map["username" := username, "email" := email, "password" := password]);
    var newUser := User(NextUserId(old(db.users)), username, email, db.crypto.hash(password));
    assert newUser in db.users;
    signedIn := SignInByEmail(page, db);
    StoredTokenAttachable(page.browser);
  }

  /** The backend on its own, called with a username: after registering,
      logging in with the same name and password yields the new user's token. */
  method RegisterThenLogin(db: Database, username: string, email: string, password: string)
    returns (registered: Reply, loggedIn: Reply)
    requires db.Valid() && Sound(db.crypto)
    requires !Clashes(db.users, Some(username), Some(email))
    modifies db`users
    ensures db.Valid()
    ensures registered == Message(201, UserCreatedText)
    ensures db.users == old(db.users) + [User(NextUserId(old(db.users)), username, email, db.crypto.hash(password))]
    ensures loggedIn == TokenIssued(db.crypto.issue(NextUserId(old(db.users))))
  {
    registered := db.Register(map["username" := username, "email" := email, "password" := password]);
    var newUser := User(NextUserId(old(db.users)), username, email, db.crypto.hash(password));
    assert newUser in db.users;
    loggedIn := db.Login(map["username" := username, "password" := password]);
    var w :| w in db.users && Some(w.username) == Some(username) && loggedIn.accessToken == db.crypto.issue(w.id);
    FirstByIsOnly(db.users, UsernameColumn, Some(username), w);
    FirstByIsOnly(db.users, UsernameColumn, Some(username), newUser);
  }

  /** A listing after a successful post is the caller's earlier listing
      followed by the new row; every other user's listing is what it was
      before the post. */
  method PostThenList(db: Database, userId: nat, other: nat, data: Json)
    returns (posted: Reply, mine: Reply, theirs: Reply)
    requires db.Valid()
    requires other != userId
    requires "amount" in data && "date" in data
    modifies db`transactions
    ensures db.Valid()
    ensures posted == Message(201, TransactionAddedText)
    ensures db.transactions == old(db.transactions) + [Transaction(NextTransactionId(old(db.transactions)),
      data["amount"], Field(data, "description"), data["date"], DefaultTransactionType, userId)]
    ensures mine.Listing? && theirs.Listing?
    ensures mine.transactions == old(Views(OwnedBy(db.transactions, userId))) +
      [TxnView(NextTransactionId(old(db.transactions)), data["amount"], Field(data, "description"), data["date"])]
    ensures theirs.transactions == old(Views(OwnedBy(db.transactions, other)))
  {
    posted := db.PostTransaction(userId, data);
    var row := db.transactions[|db.transactions| - 1];
    OwnedByAppend(old(db.transactions), row, userId);
    mine := db.GetTransactions(userId);
    theirs := db.GetTransactions(other);
  }
}
