/**
 * The login screen: the users sheet is searched for rows whose username and
 * password both equal what was typed, and the first such row becomes the
 * session's user.
 */
module Auth {
  import opened Optional

  /** A row of the master users sheet; the model keeps the columns app.py reads. */
  datatype User = User(username: string, password: string, sheetUrl: string)

  predicate Matches(user: User, username: string, password: string) {
    user.username == username && user.password == password
  }

  /** `users_df[(users_df["username"] == username) & (users_df["password"] == password)]`. */
  function MatchingUsers(users: seq<User>, username: string, password: string): (matching: seq<User>)
    ensures |matching| <= |users|
    ensures forall u :: u in matching <==> u in users && Matches(u, username, password)
  {
    if users == [] then []
    else
      (if Matches(users[0], username, password) then [users[0]] else [])
      + MatchingUsers(users[1..], username, password)
  }

  /** What pressing "Login" leads to. */
  datatype LoginOutcome =
    | LoggedIn(user: User)
    | WrongCredentials
      /** The users sheet has no records: the empty frame has no "username" column and the lookup raises. */
    | NoUserColumns

  /**
   * `match.iloc[0]` when the filter is not empty, "Wrong username or password"
   * otherwise; with no records at all the filter itself fails.
   */
  function Login(users: seq<User>, username: string, password: string): (outcome: LoginOutcome)
    ensures outcome.NoUserColumns? <==> users == []
    ensures outcome.LoggedIn? ==> outcome.user in users && Matches(outcome.user, username, password)
  {
    if users == [] then NoUserColumns
    else
      var matching := MatchingUsers(users, username, password);
      if |matching| != 0 then LoggedIn(matching[0]) else WrongCredentials
  }

  /**
   * Login succeeds exactly when some row matches on both columns, and then
   * selects the first such row of the sheet.
   */
  lemma {:induction false} LoginSelectsFirstMatch(users: seq<User>, username: string, password: string)
    ensures Login(users, username, password).LoggedIn?
        <==> exists i :: 0 <= i < |users| && Matches(users[i], username, password)
    ensures Login(users, username, password).LoggedIn? ==>
      exists i :: 0 <= i < |users| && users[i] == Login(users, username, password).user
        && Matches(users[i], username, password)
        && forall j :: 0 <= j < i ==> !Matches(users[j], username, password)
  {
    if users != [] {
      var rest := users[1..];
      LoginSelectsFirstMatch(rest, username, password);
      if Matches(users[0], username, password) {
        assert users[0] == Login(users, username, password).user;
      } else if Login(users, username, password).LoggedIn? {
        var i :| 0 <= i < |rest| && rest[i] == Login(rest, username, password).user
          && Matches(rest[i], username, password)
          && forall j :: 0 <= j < i ==> !Matches(rest[j], username, password);
        assert users[i + 1] == rest[i];
      } else {
        forall i | 0 <= i < |users|
          ensures !Matches(users[i], username, password)
        {
          if i > 0 {
            assert users[i] == rest[i - 1];
          }
        }
      }
    }
  }

  /** The session's login state (`st.session_state.user`). */
  class Session {
    var user: Option<User>

    constructor ()
      ensures user == None
    {
      user := None;
    }

    /**
     * The "Login" button, shown only while nobody is logged in. The user is
     * set only on success; a wrong password and an empty users sheet both
     * leave the session without a user.
     */
    method SubmitLogin(users: seq<User>, username: string, password: string) returns (outcome: LoginOutcome)
      requires user == None
      modifies this
      ensures outcome == Login(users, username, password)
      ensures outcome.NoUserColumns? <==> users == []
      ensures outcome.LoggedIn? <==> exists i :: 0 <= i < |users| && Matches(users[i], username, password)
      ensures user == if outcome.LoggedIn? then Some(outcome.user) else None
    {
      LoginSelectsFirstMatch(users, username, password);
      outcome := Login(users, username, password);
      if outcome.LoggedIn? {
        user := Some(outcome.user);
      }
    }
  }
}
