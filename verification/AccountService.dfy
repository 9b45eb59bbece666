/** The account service, which changes the stored users and sessions in place. */
module AccountService {
  import opened Prelude
  import opened Accounts
  import opened AccountSafety

  /** The login fits user u, whose password it is and who is active, and starts the session. */
  predicate LogsIn(
    s: State, u: UserId, login: string, password: string, session: SessionId, token: string, csrf: string, t: State)
  {
    && u in s.users && Matches(s.users[u], Canonical(login)) && s.users[u].active && s.users[u].password == password
    && t == s.(users := s.users[u := s.users[u].(lastLogin := Some(s.now))],
               sessions := s.sessions[session := Session(u, token, csrf, s.now + s.ttl, None, s.users[u].epoch)])
  }

  /** The login fits nobody, or user u, who is not active or has another password. */
  predicate Refused(s: State, u: UserId, login: string, password: string) {
    || (forall v :: v in s.users ==> !Matches(s.users[v], Canonical(login)))
    || (u in s.users && Matches(s.users[u], Canonical(login))
        && (!s.users[u].active || s.users[u].password != password))
  }

  class AuthService {
    var users: map<UserId, User>
    var sessions: map<SessionId, Session>
    var now: int
    const ttl: int

    ghost function View(): State
      reads this
    {
      State(users, sessions, now, ttl)
    }

    constructor (now: int, ttl: int)
      ensures View() == Initial(now, ttl)
    {
      users, sessions := map[], map[];
      this.now, this.ttl := now, ttl;
    }

    method CreateAccount(id: UserId, username: string, email: string, password: string, role: Role, mustChange: bool)
      returns (r: Result<UserId, AuthError>)
      requires id !in users
      modifies this`users
      ensures var spec := CreateUser(old(View()), id, username, email, password, role, mustChange);
              && View() == Kept(old(View()), spec)
              && r == match spec case Ok(_) => Ok(id) case Err(e) => Err(e)
    {
      var name := NormalizeUsername(username);
      if name.Err? {
        return Err(BadUsername);
      }
      var address := Canonical(email);
      if !LongEnough(password) {
        return Err(ShortPassword);
      }
      if Taken(users, name.value, address) {
        return Err(UserExists);
      }
      users := users[id := User(name.value, address, password, 0, role, true, mustChange, None)];
      return Ok(id);
    }

    /** The first of the users that the login name or address fits, if there is one. */
    method FindByLogin(login: string) returns (found: Option<UserId>)
      ensures found.Some? ==> found.value in users && Matches(users[found.value], login)
      ensures found.None? ==> forall u :: u in users ==> !Matches(users[u], login)
    {
      if u :| u in users && Matches(users[u], login) {
        return Some(u);
      }
      return None;
    }

    method LogIn(login: string, password: string, session: SessionId, token: string, csrf: string)
      returns (r: Result<SessionId, AuthError>)
      requires session !in sessions
      modifies this`users, this`sessions
      ensures r.Err? ==> r == Err(BadLogin) && View() == old(View())
      ensures r.Ok? ==> r.value == session
      ensures r.Ok? ==> exists u :: LogsIn(old(View()), u, login, password, session, token, csrf, View())
      ensures r.Err? ==> exists u :: Refused(old(View()), u, login, password)
    {
      var found := FindByLogin(Canonical(login));
      assert found.None? ==> Refused(View(), 0, login, password);
      if found.None? {
        return Err(BadLogin);
      }
      var u := found.value;
      if !users[u].active || password != users[u].password {
        assert Refused(View(), u, login, password);
        return Err(BadLogin);
      }
      var user := users[u];
      users := users[u := user.(lastLogin := Some(now))];
      sessions := sessions[session := Session(u, token, csrf, now + ttl, None, user.epoch)];
      assert LogsIn(old(View()), u, login, password, session, token, csrf, View());
      return Ok(session);
    }

    /** The session of a token, if a request may use it. */
    method Resolve(token: string) returns (r: Result<SessionId, AuthError>)
      requires UniqueTokens(View())
      ensures r.Ok? ==> Usable(View(), r.value, token)
      ensures r.Err? ==> r == Err(NotAuthenticated) && forall id :: !Usable(View(), id, token)
    {
      if id :| id in sessions && sessions[id].token == token {
        var s := sessions[id];
        if s.revokedAt.Some? || s.expiresAt <= now || s.user !in users || !users[s.user].active {
          return Err(NotAuthenticated);
        }
        return Ok(id);
      }
      return Err(NotAuthenticated);
    }

    method LogOut(session: SessionId)
      requires session in sessions
      modifies this`sessions
      ensures View() == Revoke(old(View()), session)
    {
      sessions := sessions[session := sessions[session].(revokedAt := Some(now))];
    }

    method SetPassword(user: UserId, current: string, password: string) returns (r: Result<(), AuthError>)
      requires user in users
      modifies this`users, this`sessions
      ensures var spec := ChangePassword(old(View()), user, current, password);
              && View() == Kept(old(View()), spec)
              && r == match spec case Ok(_) => Ok(()) case Err(e) => Err(e)
    {
      if current != users[user].password {
        return Err(WrongPassword);
      }
      if !LongEnough(password) {
        return Err(ShortPassword);
      }
      users := users[user := users[user].(password := password, epoch := users[user].epoch + 1, mustChange := false)];
      sessions := RevokeUser(sessions, user, now);
      return Ok(());
    }

    method Enable(user: UserId, active: bool) returns (r: Result<(), AuthError>)
      requires user in users
      modifies this`users, this`sessions
      ensures var spec := SetActive(old(View()), user, active);
              && View() == Kept(old(View()), spec)
              && r == match spec case Ok(_) => Ok(()) case Err(e) => Err(e)
    {
      if users[user].role == Admin && !active {
        if !exists u :: u in users && u != user && users[u].role == Admin && users[u].active {
          return Err(LastAdministrator);
        }
      }
      users := users[user := users[user].(active := active)];
      if !active {
        sessions := RevokeUser(sessions, user, now);
      }
      return Ok(());
    }

    /** The accounts are prepared one by one and committed together. */
    method EnsureBootstrapUsers(accounts: seq<Account>, ids: seq<UserId>) returns (r: Result<(), AuthError>)
      requires |ids| == |accounts| && UniqueUsers(users)
      modifies this`users, this`sessions
      ensures var spec := Bootstrap(old(View()), accounts, ids);
              && View() == Kept(old(View()), spec)
              && r == match spec case Ok(_) => Ok(()) case Err(e) => Err(e)
    {
      hide AddAccount, UniqueUsers;
      ghost var committed := View();
      var staged, changed := State(users, sessions, now, ttl), false;
      for i := 0 to |accounts|
        invariant View() == committed
        invariant AddAccounts(committed, accounts[..i], ids[..i]) == Ok(staged)
        invariant !changed ==> staged == committed
      {
        assert accounts[..i + 1][..i] == accounts[..i] && ids[..i + 1][..i] == ids[..i];
        FailsFrom(committed, accounts, ids, i + 1);
        var next, touched := StageAccount(State(users, sessions, now, ttl), staged, accounts[i], ids[i]);
        match next
        case Err(e) => return Err(e);
        case Ok(s) =>
          staged := s;
          changed := changed || touched;
      }
      assert accounts[..|accounts|] == accounts && ids[..|ids|] == ids;
      if changed {
        if !UniqueUsers(staged.users) {
          return Err(NotUnique);
        }
        users, sessions := staged.users, staged.sessions;
        StagedClock(committed, accounts, ids);
      }
      return Ok(());
    }
  }

  /** One round of the loop: the lookup reads the stored users, the change is only prepared. */
  method StageAccount(stored: State, staged: State, account: Account, id: UserId)
    returns (r: Result<State, AuthError>, touched: bool)
    requires UniqueUsers(stored.users) && stored.users.Keys <= staged.users.Keys
    ensures r == AddAccount(stored, staged, account, id)
    ensures r.Ok? && !touched ==> r.value == staged
  {
    hide RevokeUser, NormalizeUsername, WithPassword;
    if !LongEnough(account.password) {
      return Err(ShortPassword), false;
    }
    var name := NormalizeUsername(account.username);
    if name.Err? {
      NameErrors(account.username);
      return Err(BadUsername), false;
    }
    if HasName(stored.users, name.value) {
      var u :| u in stored.users && stored.users[u].username == name.value;
      OnlyOneNamed(stored.users, name.value, u);
      if account.syncPassword && staged.users[u].password != account.password {
        return Ok(WithPassword(staged, u, account.password)), true;
      }
      return Ok(staged), false;
    }
    return Ok(staged.(users := staged.users[id := NewAccount(account, name.value)])), true;
  }

  lemma {:induction false} StagedClock(s: State, accounts: seq<Account>, ids: seq<UserId>)
    requires |ids| == |accounts| && AddAccounts(s, accounts, ids).Ok?
    ensures AddAccounts(s, accounts, ids).value.now == s.now && AddAccounts(s, accounts, ids).value.ttl == s.ttl
  {
    hide NormalizeUsername, HasName, RevokeUser, LongEnough;
    if accounts != [] {
      var n := |accounts| - 1;
      StagedClock(s, accounts[..n], ids[..n]);
    }
  }

  lemma NameErrors(username: string)
    requires NormalizeUsername(username).Err?
    ensures NormalizeUsername(username) == Err(BadUsername)
  {
  }

  lemma OnlyOneNamed(users: map<UserId, User>, name: string, u: UserId)
    requires UniqueUsers(users) && u in users && users[u].username == name
    ensures HasName(users, name) && UserNamed(users, name) == u
  {
  }

  /** An account that cannot be added fails the whole list. */
  lemma {:induction false} FailsFrom(s: State, accounts: seq<Account>, ids: seq<UserId>, k: nat)
    requires |ids| == |accounts| && k <= |accounts|
    ensures AddAccounts(s, accounts[..k], ids[..k]).Err? ==>
              AddAccounts(s, accounts, ids) == AddAccounts(s, accounts[..k], ids[..k])
  {
    hide AddAccount;
    if k < |accounts| {
      var n := |accounts| - 1;
      FailsFrom(s, accounts[..n], ids[..n], k);
      assert accounts[..n][..k] == accounts[..k] && ids[..n][..k] == ids[..k];
    } else {
      assert accounts[..k] == accounts && ids[..k] == ids;
    }
  }
}
