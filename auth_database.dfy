/** The user store behind sign-up and sign-in
    (server/internal/modules/auth/repo/database/authDatabase.go): inserting a
    user and finding one by email, login or id, with store failures mapped to
    the domain's errors. The ORM's answers are inputs; every statement sent
    and every error logged is appended to an event log. */
module AuthDatabase {
  import opened Optional
  import opened Text

  /** The domain's user (`auth.UserAuth`); its id is 0 until stored. */
  datatype UserAuth = UserAuth(id: nat, login: string, email: string, password: string)

  /** The domain errors the repository reports. */
  datatype AuthError = LoginExists | EmailExists | UserNotFound | Internal

  /** How `db.Create` ends: the store assigns an id, or fails with a text. */
  datatype CreateOutcome = Created(id: nat) | CreateFailed(text: string)

  /** How `First` ends: a row, no row (`gorm.ErrRecordNotFound`), or any
      other failure with its text. */
  datatype FirstOutcome = Found(row: UserAuth) | RecordNotFound | FirstFailed(text: string)

  datatype Lookup = ByEmail(email: string) | ByLogin(login: string) | ById(id: nat)

  datatype DbEvent = Inserted(user: UserAuth) | Queried(lookup: Lookup) | Logged(text: string)

  /** The error text of a `First` failure, as logged. */
  function FailureText(outcome: FirstOutcome): string
    requires !outcome.Found?
  {
    match outcome
    case RecordNotFound => "record not found"
    case FirstFailed(text) => text
  }

  /** Lines 29-34: a failed insert whose text mentions "login" is a taken
      login, even when it also mentions "email"; one mentioning only "email"
      is a taken email; anything else is internal. */
  function ClassifyCreateError(text: string): (e: AuthError)
    ensures e == LoginExists <==> Contains(text, "login")
    ensures e == EmailExists <==> !Contains(text, "login") && Contains(text, "email")
    ensures e == Internal <==> !Contains(text, "login") && !Contains(text, "email")
  {
    if Contains(text, "login") then LoginExists
    else if Contains(text, "email") then EmailExists
    else Internal
  }

  /** Lines 45-48: only a missing row is "not found"; every other failure is
      internal. */
  function ClassifyFirstError(outcome: FirstOutcome): (e: AuthError)
    requires !outcome.Found?
    ensures e == UserNotFound <==> outcome.RecordNotFound?
    ensures e != UserNotFound ==> e == Internal
  {
    if outcome.RecordNotFound? then UserNotFound else Internal
  }

  /** The ORM model of a user (`User`), whose id the store fills in place. */
  class UserRow {
    var userId: nat
    var login: string
    var email: string
    var password: string

    /** `ToModel` (not part of this model beyond copying the fields). */
    constructor(user: UserAuth)
      ensures userId == user.id && login == user.login && email == user.email && password == user.password
    {
      userId, login, email, password := user.id, user.login, user.email, user.password;
    }
  }

  class AuthStore {
    var events: seq<DbEvent>

    constructor()
      ensures events == []
    {
      events := [];
    }

    /** `db.Create(userModel)`: the store records the row and, on success,
      writes the id it assigned into it. */
    method Insert(row: UserRow, outcome: CreateOutcome)
      modifies this, row
      ensures events == old(events) + [Inserted(UserAuth(old(row.userId), row.login, row.email, row.password))]
      ensures row.login == old(row.login) && row.email == old(row.email) && row.password == old(row.password)
      ensures row.userId == (if outcome.Created? then outcome.id else old(row.userId))
    {
      events := events + [Inserted(UserAuth(row.userId, row.login, row.email, row.password))];
      if outcome.Created? {
        row.userId := outcome.id;
      }
    }

    /** `CreateUser` (lines 24-38): the id the store assigned, with no error;
      or 0 with the classified error after logging the failure. */
    method CreateUser(user: UserAuth, outcome: CreateOutcome) returns (id: nat, err: Option<AuthError>)
      modifies this
      ensures outcome.Created? ==> id == outcome.id && err.None? && events == old(events) + [Inserted(user)]
      ensures outcome.CreateFailed? ==>
                && id == 0 && err == Some(ClassifyCreateError(outcome.text))
                && events == old(events) + [Inserted(user), Logged(outcome.text)]
    {
      var row := new UserRow(user);
      Insert(row, outcome);
      if outcome.CreateFailed? {
        events := events + [Logged(outcome.text)];
        return 0, Some(ClassifyCreateError(outcome.text));
      }
      return row.userId, None;
    }

    /** The shared body of the three lookups: the row found, with no error;
      or no user with the classified error after logging the failure. */
    method First(lookup: Lookup, outcome: FirstOutcome) returns (user: Option<UserAuth>, err: Option<AuthError>)
      modifies this
      ensures outcome.Found? ==> user == Some(outcome.row) && err.None? && events == old(events) + [Queried(lookup)]
      ensures !outcome.Found? ==>
                && user.None? && err == Some(ClassifyFirstError(outcome))
                && events == old(events) + [Queried(lookup), Logged(FailureText(outcome))]
    {
      events := events + [Queried(lookup)];
      if !outcome.Found? {
        events := events + [Logged(FailureText(outcome))];
        return None, Some(ClassifyFirstError(outcome));
      }
      return Some(outcome.row), None;
    }

    /** `GetUserByEmail` (lines 40-52). */
    method GetUserByEmail(email: string, outcome: FirstOutcome) returns (user: Option<UserAuth>, err: Option<AuthError>)
      modifies this
      ensures outcome.Found? ==> user == Some(outcome.row) && err.None? && events == old(events) + [Queried(ByEmail(email))]
      ensures !outcome.Found? ==>
                && user.None? && err == Some(ClassifyFirstError(outcome))
                && events == old(events) + [Queried(ByEmail(email)), Logged(FailureText(outcome))]
    {
      user, err := First(ByEmail(email), outcome);
    }

    /** `GetUserByLogin` (lines 54-66). */
    method GetUserByLogin(login: string, outcome: FirstOutcome) returns (user: Option<UserAuth>, err: Option<AuthError>)
      modifies this
      ensures outcome.Found? ==> user == Some(outcome.row) && err.None? && events == old(events) + [Queried(ByLogin(login))]
      ensures !outcome.Found? ==>
                && user.None? && err == Some(ClassifyFirstError(outcome))
                && events == old(events) + [Queried(ByLogin(login)), Logged(FailureText(outcome))]
    {
      user, err := First(ByLogin(login), outcome);
    }

    /** `GetUserById` (lines 68-79). */
    method GetUserById(id: nat, outcome: FirstOutcome) returns (user: Option<UserAuth>, err: Option<AuthError>)
      modifies this
      ensures outcome.Found? ==> user == Some(outcome.row) && err.None? && events == old(events) + [Queried(ById(id))]
      ensures !outcome.Found? ==>
                && user.None? && err == Some(ClassifyFirstError(outcome))
                && events == old(events) + [Queried(ById(id)), Logged(FailureText(outcome))]
    {
      user, err := First(ById(id), outcome);
    }
  }
}
