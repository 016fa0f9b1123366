/** The REST resources of backend/resources.py as operations on the two
    tables. The identity a protected operation runs for is a parameter: the
    checks of `@jwt_required()` and `get_jwt_identity()` are not modelled. */
module Resources {
  import opened Common
  import opened Models

  const UserExistsText := "User with that username or email already exists"
  const UserCreatedText := "User created successfully"
  const InvalidCredentialsText := "Invalid credentials"
  const TransactionAddedText := "Transaction added successfully"

  /** What a handler returns to Flask. */
  datatype Reply =
    | Message(status: int, text: string)
    | TokenIssued(accessToken: string)
    | Listing(transactions: seq<TxnView>)
    | ServerError
  {
    /** The HTTP status; an exception escaping a handler becomes a 500. */
    function Status(): int {
      match this
      case Message(status, _) => status
      case TokenIssued(_) => 200
      case Listing(_) => 200
      case ServerError => 500
    }
  }

  /** The library calls the resources make, as values: werkzeug's
      `generate_password_hash` and `check_password_hash`, and the token
      issuer of flask_jwt_extended. */
  datatype Crypto = Crypto(hash: string -> string, check: (string, string) -> bool, issue: nat -> string)

  /** A password checks against its own hash, and an issued token (a JWT)
      is never the empty string. */
  ghost predicate Sound(c: Crypto) {
    (forall p :: c.check(c.hash(p), p)) && (forall id :: c.issue(id) != "")
  }

  /** The registration query's filter: some stored user has this username
      or this email. A missing field (`None`, SQL NULL) matches nothing. */
  predicate Clashes(users: seq<User>, username: Option<string>, email: Option<string>) {
    exists u :: u in users && (username == Some(u.username) || email == Some(u.email))
  }

  /** The two unique text columns of `users`. */
  datatype Column = UsernameColumn | EmailColumn

  function ColumnValue(u: User, c: Column): string {
    match c
    case UsernameColumn => u.username
    case EmailColumn => u.email
  }

  /** `User.query.filter_by(<column>=value).first()`: the first stored user
      whose column equals `value`; a missing value (SQL NULL) matches none. */
  function FirstBy(users: seq<User>, c: Column, value: Option<string>): (r: Option<User>)
    ensures r.Some? <==> exists u :: u in users && Some(ColumnValue(u, c)) == value
    ensures r.Some? ==> r.value in users && Some(ColumnValue(r.value, c)) == value
  {
    if users == [] then None
    else if Some(ColumnValue(users[0], c)) == value then Some(users[0])
    else FirstBy(users[1..], c, value)
  }

  /** With the column unique, the first match is the only one. */
  lemma FirstByIsOnly(users: seq<User>, c: Column, value: Option<string>, u: User)
    requires UsersValid(users)
    requires u in users && Some(ColumnValue(u, c)) == value
    ensures FirstBy(users, c, value) == Some(u)
  {
  }

  class Database {
    var users: seq<User>
    var transactions: seq<Transaction>
    const crypto: Crypto

    /** The uniqueness constraints of both tables. */
    ghost predicate Valid()
      reads this
    {
      UsersValid(users) && TransactionIdsUnique(transactions)
    }

    constructor (crypto: Crypto)
      ensures Valid() && this.crypto == crypto
      ensures users == [] && transactions == []
    {
      this.crypto := crypto;
      users, transactions := [], [];
    }

    /** `UserRegistrationResource.post`. The clash query runs first; then a
        missing password makes the hashing helper raise, and a missing
        username or email fails the NOT NULL constraint at commit. */
    method Register(data: Json) returns (r: Reply)
      requires Valid()
      modifies this`users
      ensures Valid()
      ensures Clashes(old(users), Field(data, "username"), Field(data, "email")) ==>
        r == Message(400, UserExistsText) && users == old(users)
      ensures !Clashes(old(users), Field(data, "username"), Field(data, "email"))
              && ("username" !in data || "email" !in data || "password" !in data) ==>
        r == ServerError && users == old(users)
      ensures !Clashes(old(users), Field(data, "username"), Field(data, "email"))
              && "username" in data && "email" in data && "password" in data ==>
        r == Message(201, UserCreatedText)
        && users == old(users) + [User(NextUserId(old(users)), data["username"], data["email"],
                                       crypto.hash(data["password"]))]
      ensures old(OwnersExist(users, transactions)) ==> OwnersExist(users, transactions)
    {
      var username := Field(data, "username");
      var email := Field(data, "email");
      var password := Field(data, "password");
      if Clashes(users, username, email) {
        return Message(400, UserExistsText);
      }
      if password.None? {
        return ServerError;
      }
      var hashed := crypto.hash(password.value);
      if username.None? || email.None? {
        return ServerError;
      }
      var newUser := User(NextUserId(users), username.value, email.value, hashed);
      AddUserKeepsValid(users, newUser);
      ghost var before := users;
      users := users + [newUser];
      assert forall t :: t in transactions && IsUser(before, t.userId) ==> IsUser(users, t.userId) by {
        forall t | t in transactions && IsUser(before, t.userId) ensures IsUser(users, t.userId) {
          var u :| u in before && u.id == t.userId;
          assert u in users;
        }
      }
      return Message(201, UserCreatedText);
    }

    /** `UserLoginResource.post`: the user found by `username`, then the
        password check. Reads the tables only. A missing password raises in
        the checking helper once a user was found. */
    method Login(data: Json) returns (r: Reply)
      requires Valid()
      ensures r.TokenIssued? <==>
        exists u :: u in users && Some(u.username) == Field(data, "username")
                    && "password" in data && crypto.check(u.passwordHash, data["password"])
      ensures r.TokenIssued? ==>
        exists u :: u in users && Some(u.username) == Field(data, "username")
                    && r.accessToken == crypto.issue(u.id)
      ensures r == ServerError <==>
        (exists u :: u in users && Some(u.username) == Field(data, "username")) && "password" !in data
      ensures !r.TokenIssued? && r != ServerError ==> r == Message(401, InvalidCredentialsText)
    {
      var username := Field(data, "username");
      var password := Field(data, "password");
      var user := FirstBy(users, UsernameColumn, username);
      if user.Some? {
        if password.None? {
          return ServerError;
        }
        forall u | u in users && Some(u.username) == username
          ensures u == user.value
        {
          FirstByIsOnly(users, UsernameColumn, username, u);
        }
        if crypto.check(user.value.passwordHash, password.value) {
          return TokenIssued(crypto.issue(user.value.id));
        }
      }
      return Message(401, InvalidCredentialsText);
    }

    /** `TransactionResource.post` for the caller `userId`: one row owned by
        the caller, with the next id and the default type. A missing amount
        or date fails the NOT NULL constraint at commit. */
    method PostTransaction(userId: nat, data: Json) returns (r: Reply)
      requires Valid()
      modifies this`transactions
      ensures Valid()
      ensures "amount" in data && "date" in data ==>
        r == Message(201, TransactionAddedText)
        && transactions == old(transactions) + [Transaction(NextTransactionId(old(transactions)),
             data["amount"], Field(data, "description"), data["date"], DefaultTransactionType, userId)]
      ensures "amount" !in data || "date" !in data ==> r == ServerError && transactions == old(transactions)
      ensures forall other :: other != userId ==> OwnedBy(transactions, other) == OwnedBy(old(transactions), other)
      ensures old(AllExpenses(transactions)) ==> AllExpenses(transactions)
      ensures old(OwnersExist(users, transactions)) && IsUser(users, userId) ==> OwnersExist(users, transactions)
    {
      var amount := Field(data, "amount");
      var description := Field(data, "description");
      var date := Field(data, "date");
      if amount.None? || date.None? {
        return ServerError;
      }
      var row := Transaction(NextTransactionId(transactions), amount.value, description, date.value,
                             DefaultTransactionType, userId);
      AddTransactionKeepsIdsUnique(transactions, row);
      forall other | other != userId
        ensures OwnedBy(transactions + [row], other) == OwnedBy(transactions, other)
      {
        OwnedByAppend(transactions, row, other);
      }
      transactions := transactions + [row];
      return Message(201, TransactionAddedText);
    }

    /** `TransactionResource.get` for the caller `userId`: the caller's rows,
        in stored order, each in its listing shape. Reads the tables only. */
    method GetTransactions(userId: nat) returns (r: Reply)
      ensures r == Listing(Views(OwnedBy(transactions, userId)))
      ensures forall v :: v in r.transactions <==>
        exists t :: t in transactions && t.userId == userId && v == View(t)
    {
      var owned := OwnedBy(transactions, userId);
      var result: seq<TxnView> := [];
      var i := 0;
      while i < |owned|
        invariant 0 <= i <= |owned|
        invariant |result| == i
        invariant forall k :: 0 <= k < i ==> result[k] == View(owned[k])
      {
        result := result + [View(owned[i])];
        i := i + 1;
      }
      forall v | v in result
        ensures exists t :: t in transactions && t.userId == userId && v == View(t)
      {
        var k :| 0 <= k < |result| && result[k] == v;
        assert owned[k] in owned;
      }
      forall t | t in transactions && t.userId == userId
        ensures View(t) in result
      {
        assert t in owned;
        var k :| 0 <= k < |owned| && owned[k] == t;
        assert result[k] == View(t);
      }
      return Listing(result);
    }
  }
}
