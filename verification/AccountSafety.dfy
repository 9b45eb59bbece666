/** What every reachable state of the accounts keeps, and what no run can undo. */
module AccountSafety {
  import opened Prelude
  import opened Accounts

  /** Every session that is not revoked belongs to an active user and was issued under the
      password that the user has now. */
  ghost predicate LiveSession(s: State, id: SessionId)
    requires id in s.sessions
  {
    s.sessions[id].revokedAt.None? ==>
      && s.sessions[id].user in s.users
      && s.users[s.sessions[id].user].active
      && s.users[s.sessions[id].user].epoch == s.sessions[id].issuedUnder
  }

  ghost predicate LiveSessions(s: State) {
    forall id :: id in s.sessions ==> LiveSession(s, id)
  }

  ghost predicate KnownOwners(s: State) {
    forall id :: id in s.sessions ==> s.sessions[id].user in s.users
  }

  ghost predicate UniqueTokens(s: State) {
    forall a, b :: a in s.sessions && b in s.sessions && s.sessions[a].token == s.sessions[b].token ==> a == b
  }

  ghost predicate SessionInv(s: State) {
    KnownOwners(s) && LiveSessions(s) && UniqueTokens(s)
  }

  ghost predicate Inv(s: State) {
    UniqueUsers(s.users) && SessionInv(s)
  }

  predicate IsAdmin(s: State, u: UserId) {
    u in s.users && s.users[u].role == Admin && s.users[u].active
  }

  predicate HasAdmin(s: State) {
    exists u :: u in s.users && IsAdmin(s, u)
  }

  // ---------- One step ----------

  lemma RenamingNobody(users: map<UserId, User>, id: UserId, user: User)
    requires UniqueUsers(users) && id in users && user.username == users[id].username && user.email == users[id].email
    ensures UniqueUsers(users[id := user])
  {
  }

  lemma RevokedSessions(sessions: map<SessionId, Session>, user: UserId, now: int, id: SessionId)
    requires id in sessions
    ensures var t := RevokeUser(sessions, user, now);
            && id in t && t[id].user == sessions[id].user && t[id].token == sessions[id].token
            && t[id].issuedUnder == sessions[id].issuedUnder
            && (t[id].revokedAt.None? <==> sessions[id].revokedAt.None? && sessions[id].user != user)
  {
  }

  lemma RevokingKeepsSessions(s: State, user: UserId, changed: User)
    requires SessionInv(s) && user in s.users
    ensures SessionInv(s.(users := s.users[user := changed], sessions := RevokeUser(s.sessions, user, s.now)))
  {
    var t := s.(users := s.users[user := changed], sessions := RevokeUser(s.sessions, user, s.now));
    forall id | id in s.sessions
      ensures && t.sessions[id].user == s.sessions[id].user && t.sessions[id].token == s.sessions[id].token
              && LiveSession(t, id)
    {
      assert LiveSession(s, id);
      RevokedSessions(s.sessions, user, s.now, id);
    }
    hide RevokeUser;
  }

  lemma PasswordKeepsInv(s: State, user: UserId, password: string)
    requires Inv(s) && user in s.users
    ensures Inv(WithPassword(s, user, password))
  {
    hide SessionInv, UniqueUsers, RevokeUser;
    var changed := s.users[user].(password := password, epoch := s.users[user].epoch + 1, mustChange := false);
    RevokingKeepsSessions(s, user, changed);
    RenamingNobody(s.users, user, changed);
  }

  lemma CreateKeepsInv(s: State, id: UserId, username: string, email: string, password: string, role: Role,
      mustChange: bool)
    requires Inv(s) && id !in s.users && CreateUser(s, id, username, email, password, role, mustChange).Ok?
    ensures Inv(CreateUser(s, id, username, email, password, role, mustChange).value)
  {
    hide NormalizeUsername, Canonical, LongEnough;
    var t := CreateUser(s, id, username, email, password, role, mustChange).value;
    forall n | n in t.sessions
      ensures LiveSession(t, n)
    {
      assert LiveSession(s, n);
    }
  }

  lemma LoginKeepsInv(s: State, user: UserId, password: string, session: SessionId, token: string, csrf: string)
    requires Inv(s) && user in s.users && session !in s.sessions && FreshToken(s, token)
    requires Authenticate(s, user, password, session, token, csrf).Ok?
    ensures Inv(Authenticate(s, user, password, session, token, csrf).value)
  {
    var t := Authenticate(s, user, password, session, token, csrf).value;
    forall n | n in t.sessions
      ensures LiveSession(t, n)
    {
      assert n in s.sessions ==> LiveSession(s, n);
    }
  }

  lemma SwitchKeepsInv(s: State, user: UserId, active: bool)
    requires Inv(s) && user in s.users && SetActive(s, user, active).Ok?
    ensures Inv(SetActive(s, user, active).value)
  {
    hide SessionInv, UniqueUsers, RevokeUser, OtherAdmin;
    var changed := s.users[user].(active := active);
    RenamingNobody(s.users, user, changed);
    if active {
      ActivatingKeepsSessions(s, user);
    } else {
      RevokingKeepsSessions(s, user, changed);
    }
  }

  lemma ActivatingKeepsSessions(s: State, user: UserId)
    requires SessionInv(s) && user in s.users
    ensures SessionInv(s.(users := s.users[user := s.users[user].(active := true)]))
  {
    var t := s.(users := s.users[user := s.users[user].(active := true)]);
    forall id | id in s.sessions
      ensures LiveSession(t, id)
    {
      assert LiveSession(s, id);
    }
  }

  lemma PasswordKeepsSessions(s: State, user: UserId, password: string)
    requires SessionInv(s) && user in s.users
    ensures SessionInv(WithPassword(s, user, password))
  {
    RevokingKeepsSessions(
      s, user, s.users[user].(password := password, epoch := s.users[user].epoch + 1, mustChange := false));
  }

  lemma AddingKeepsSessions(s: State, id: UserId, user: User)
    requires SessionInv(s) && id !in s.users
    ensures SessionInv(s.(users := s.users[id := user]))
  {
    var t := s.(users := s.users[id := user]);
    forall n | n in t.sessions
      ensures LiveSession(t, n)
    {
      assert LiveSession(s, n);
    }
  }

  /** The accounts added so far keep their ids. */
  lemma {:induction false} AddedKeys(s: State, accounts: seq<Account>, ids: seq<UserId>)
    requires |ids| == |accounts| && AddAccounts(s, accounts, ids).Ok?
    ensures forall u :: u in AddAccounts(s, accounts, ids).value.users ==> u in s.users || u in ids
  {
    hide NormalizeUsername, HasName, NewAccount, WithPassword, LongEnough;
    if accounts != [] {
      var n := |accounts| - 1;
      AddedKeys(s, accounts[..n], ids[..n]);
      var front := AddAccounts(s, accounts[..n], ids[..n]).value;
      match NormalizeUsername(accounts[n].username)
      case Err(_) =>
      case Ok(name) =>
        if HasName(s.users, name) {
          PasswordKeys(front, NamedUser(s.users, name), accounts[n].password);
        }
    }
  }

  lemma PasswordKeys(s: State, user: UserId, password: string)
    requires user in s.users
    ensures WithPassword(s, user, password).users.Keys == s.users.Keys
  {
  }

  lemma {:induction false} AddingAccountsKeepsSessions(s: State, accounts: seq<Account>, ids: seq<UserId>)
    requires SessionInv(s) && |ids| == |accounts| && FreshIds(s, ids) && AddAccounts(s, accounts, ids).Ok?
    ensures SessionInv(AddAccounts(s, accounts, ids).value)
  {
    hide NormalizeUsername, HasName, NewAccount, WithPassword, SessionInv;
    if accounts != [] {
      var n := |accounts| - 1;
      AddingAccountsKeepsSessions(s, accounts[..n], ids[..n]);
      var front := AddAccounts(s, accounts[..n], ids[..n]).value;
      AddedKeys(s, accounts[..n], ids[..n]);
      match NormalizeUsername(accounts[n].username)
      case Err(_) =>
      case Ok(name) =>
        if HasName(s.users, name) {
          PasswordKeepsSessions(front, NamedUser(s.users, name), accounts[n].password);
        } else {
          AddingKeepsSessions(front, ids[n], NewAccount(accounts[n], name));
        }
    }
  }

  ghost function NamedUser(users: map<UserId, User>, name: string): (u: UserId)
    requires HasName(users, name)
    ensures u in users && users[u].username == name && u == UserNamed(users, name)
  {
    UserNamed(users, name)
  }

  lemma StepKeepsInv(s: State, step: Step)
    requires Inv(s) && Allowed(s, step)
    ensures Inv(Apply(s, step))
  {
    hide CreateUser, Authenticate, SetActive, WithPassword, AddAccounts, UniqueUsers, LiveSessions, UniqueTokens,
      KnownOwners;
    match step
    case Tick(to) => TickKeepsInv(s, to);
    case Create(id, username, email, password, role, mustChange) =>
      if CreateUser(s, id, username, email, password, role, mustChange).Ok? {
        CreateKeepsInv(s, id, username, email, password, role, mustChange);
      }
    case Login(user, _, password, session, token, csrf) =>
      if Authenticate(s, user, password, session, token, csrf).Ok? {
        LoginKeepsInv(s, user, password, session, token, csrf);
      }
    case Logout(session) => LogoutKeepsInv(s, session);
    case NewPassword(user, _, password) => PasswordKeepsInv(s, user, password);
    case Switch(user, active) =>
      if SetActive(s, user, active).Ok? {
        SwitchKeepsInv(s, user, active);
      }
    case Start(accounts, ids) =>
      if Bootstrap(s, accounts, ids).Ok? {
        AddingAccountsKeepsSessions(s, accounts, ids);
      }
  }

  lemma TickKeepsInv(s: State, to: int)
    requires Inv(s)
    ensures Inv(s.(now := to))
  {
    forall n | n in s.sessions
      ensures LiveSession(s.(now := to), n)
    {
      assert LiveSession(s, n);
    }
  }

  lemma LogoutKeepsInv(s: State, session: SessionId)
    requires Inv(s) && session in s.sessions
    ensures Inv(Revoke(s, session))
  {
    var t := Revoke(s, session);
    forall n | n in t.sessions
      ensures LiveSession(t, n)
    {
      assert LiveSession(s, n);
    }
  }

  /** Every reachable state: names, addresses and tokens are unique, and every session that is
      not revoked belongs to an active user and was issued under the current password. */
  lemma {:induction false} ReachableInv(now: int, ttl: int, run: seq<Step>)
    requires ValidRun(Initial(now, ttl), run)
    ensures Inv(Exec(Initial(now, ttl), run))
    decreases |run|
  {
    hide Inv, Apply, Allowed;
    if run == [] {
      assert Inv(Initial(now, ttl)) by { InitialInv(now, ttl); }
    } else {
      ReachableInv(now, ttl, run[..|run| - 1]);
      StepKeepsInv(Exec(Initial(now, ttl), run[..|run| - 1]), run[|run| - 1]);
    }
  }

  lemma InitialInv(now: int, ttl: int)
    ensures Inv(Initial(now, ttl))
  {
  }

  // ---------- Tokens ----------

  /** The session can no longer be used. */
  predicate Dead(s: State, id: SessionId) {
    id in s.sessions && (s.sessions[id].revokedAt.Some? || s.sessions[id].expiresAt <= s.now)
  }

  lemma DeadAfterRevoking(sessions: map<SessionId, Session>, user: UserId, now: int, id: SessionId)
    requires id in sessions
    ensures var t := RevokeUser(sessions, user, now);
            && id in t && t[id].token == sessions[id].token && t[id].expiresAt == sessions[id].expiresAt
            && (sessions[id].revokedAt.Some? ==> t[id].revokedAt.Some?)
  {
  }

  lemma {:induction false} AddedAccountsKeepDead(s: State, accounts: seq<Account>, ids: seq<UserId>, id: SessionId)
    requires |ids| == |accounts| && AddAccounts(s, accounts, ids).Ok? && Dead(s, id)
    ensures var t := AddAccounts(s, accounts, ids).value;
            Dead(t, id) && t.sessions[id].token == s.sessions[id].token && t.now == s.now
  {
    hide NormalizeUsername, HasName, NewAccount, LongEnough, RevokeUser;
    if accounts != [] {
      var n := |accounts| - 1;
      AddedAccountsKeepDead(s, accounts[..n], ids[..n], id);
      var front := AddAccounts(s, accounts[..n], ids[..n]).value;
      match NormalizeUsername(accounts[n].username)
      case Err(_) =>
      case Ok(name) =>
        if HasName(s.users, name) {
          DeadAfterRevoking(front.sessions, NamedUser(s.users, name), front.now, id);
        }
    }
  }

  lemma DeadStep(s: State, step: Step, id: SessionId)
    requires Allowed(s, step) && Dead(s, id)
    ensures Dead(Apply(s, step), id) && Apply(s, step).sessions[id].token == s.sessions[id].token
  {
    hide AddAccounts, NormalizeUsername, RevokeUser, UniqueUsers, OtherAdmin;
    match step
    case Start(accounts, ids) =>
      if AddAccounts(s, accounts, ids).Ok? {
        AddedAccountsKeepDead(s, accounts, ids, id);
      }
    case NewPassword(user, _, _) => DeadAfterRevoking(s.sessions, user, s.now, id);
    case Switch(user, _) => DeadAfterRevoking(s.sessions, user, s.now, id);
    case _ =>
  }

  lemma {:induction false} DeadForever(s: State, run: seq<Step>, id: SessionId)
    requires Dead(s, id) && ValidRun(s, run)
    ensures Dead(Exec(s, run), id) && Exec(s, run).sessions[id].token == s.sessions[id].token
    decreases |run|
  {
    hide Dead, Apply, Allowed;
    if run != [] {
      DeadForever(s, run[..|run| - 1], id);
      DeadStep(Exec(s, run[..|run| - 1]), run[|run| - 1], id);
    }
  }

  lemma {:induction false} RunKeepsInv(s: State, run: seq<Step>)
    requires Inv(s) && ValidRun(s, run)
    ensures Inv(Exec(s, run))
    decreases |run|
  {
    hide Inv, Apply, Allowed;
    if run != [] {
      RunKeepsInv(s, run[..|run| - 1]);
      StepKeepsInv(Exec(s, run[..|run| - 1]), run[|run| - 1]);
    }
  }

  /** A token whose session was revoked or has expired never resolves again, in any run. */
  lemma DeadTokenNeverResolves(s: State, run: seq<Step>, id: SessionId, other: SessionId)
    requires Inv(s) && ValidRun(s, run) && Dead(s, id)
    ensures !Usable(Exec(s, run), other, s.sessions[id].token)
  {
    hide ValidRun, Exec, UniqueUsers, LiveSessions;
    DeadForever(s, run, id);
    RunKeepsInv(s, run);
  }

  /** A password change ends every session the user had, for good. */
  lemma OldTokensEnd(s: State, user: UserId, current: string, password: string, run: seq<Step>, id: SessionId,
      other: SessionId)
    requires Inv(s) && user in s.users && ChangePassword(s, user, current, password).Ok?
    requires ValidRun(ChangePassword(s, user, current, password).value, run)
    requires id in s.sessions && s.sessions[id].user == user
    ensures !Usable(Exec(ChangePassword(s, user, current, password).value, run), other, s.sessions[id].token)
  {
    hide Inv, Exec, ValidRun, RevokeUser, Usable;
    PasswordKeepsInv(s, user, password);
    RevokedSessions(s.sessions, user, s.now, id);
    DeadTokenNeverResolves(ChangePassword(s, user, current, password).value, run, id, other);
  }

  /** So does disabling the user, even if the user is enabled again later. */
  lemma DisablingEndsTokens(s: State, user: UserId, run: seq<Step>, id: SessionId, other: SessionId)
    requires Inv(s) && user in s.users && SetActive(s, user, false).Ok?
    requires ValidRun(SetActive(s, user, false).value, run)
    requires id in s.sessions && s.sessions[id].user == user
    ensures !Usable(Exec(SetActive(s, user, false).value, run), other, s.sessions[id].token)
  {
    hide Inv, Exec, ValidRun, RevokeUser, OtherAdmin, Usable;
    SwitchKeepsInv(s, user, false);
    RevokedSessions(s.sessions, user, s.now, id);
    DeadTokenNeverResolves(SetActive(s, user, false).value, run, id, other);
  }

  /** So does logging out, for the one session. */
  lemma LogoutEndsToken(s: State, session: SessionId, run: seq<Step>, other: SessionId)
    requires Inv(s) && session in s.sessions && ValidRun(Revoke(s, session), run)
    ensures !Usable(Exec(Revoke(s, session), run), other, s.sessions[session].token)
    ensures forall id :: id in s.sessions && id != session ==> Revoke(s, session).sessions[id] == s.sessions[id]
  {
    hide Inv, Exec, ValidRun, Usable;
    LogoutKeepsInv(s, session);
    DeadTokenNeverResolves(Revoke(s, session), run, session, other);
  }

  /** In a reachable state a token resolves exactly when its session is not dead, and then to one
      session only: the check that the user is active never decides. */
  lemma ResolvesIffAlive(s: State, id: SessionId, token: string)
    requires Inv(s)
    ensures Usable(s, id, token) <==> id in s.sessions && s.sessions[id].token == token && !Dead(s, id)
    ensures forall other :: Usable(s, id, token) && Usable(s, other, token) ==> other == id
  {
    hide UniqueUsers;
    assert id in s.sessions ==> LiveSession(s, id);
  }

  // ---------- Administrators ----------

  lemma {:induction false} AddedAccountsKeepUsers(s: State, accounts: seq<Account>, ids: seq<UserId>, u: UserId)
    requires |ids| == |accounts| && FreshIds(s, ids) && AddAccounts(s, accounts, ids).Ok? && u in s.users
    ensures var t := AddAccounts(s, accounts, ids).value;
            && u in t.users && t.users[u].role == s.users[u].role && t.users[u].active == s.users[u].active
            && t.users[u].username == s.users[u].username
  {
    hide NormalizeUsername, HasName, NewAccount, LongEnough, RevokeUser;
    if accounts != [] {
      var n := |accounts| - 1;
      AddedAccountsKeepUsers(s, accounts[..n], ids[..n], u);
      match NormalizeUsername(accounts[n].username)
      case Err(_) =>
      case Ok(name) =>
        if HasName(s.users, name) {
          var named := NamedUser(s.users, name);
        }
    }
  }

  lemma AdminStep(s: State, step: Step)
    requires Allowed(s, step) && HasAdmin(s)
    ensures HasAdmin(Apply(s, step))
  {
    hide AddAccounts, NormalizeUsername, RevokeUser, UniqueUsers, FreshToken;
    var admin :| admin in s.users && IsAdmin(s, admin);
    var t := Apply(s, step);
    match step
    case Start(accounts, ids) =>
      if AddAccounts(s, accounts, ids).Ok? {
        AddedAccountsKeepUsers(s, accounts, ids, admin);
      }
      assert IsAdmin(t, admin);
    case Switch(user, active) =>
      if user == admin && !active && OtherAdmin(s, user) {
        var other :| other in s.users && other != user && s.users[other].role == Admin && s.users[other].active;
        assert IsAdmin(t, other);
      } else {
        assert IsAdmin(t, admin);
      }
    case _ => assert IsAdmin(t, admin);
  }

  /** An active administrator, once present, always remains. */
  lemma {:induction false} AdminRemains(s: State, run: seq<Step>)
    requires HasAdmin(s) && ValidRun(s, run)
    ensures HasAdmin(Exec(s, run))
    decreases |run|
  {
    hide HasAdmin, Apply, Allowed;
    if run != [] {
      AdminRemains(s, run[..|run| - 1]);
      AdminStep(Exec(s, run[..|run| - 1]), run[|run| - 1]);
    }
  }

  // ---------- The bootstrap accounts ----------

  /** Only the first account, the administrator's, synchronises its password. */
  predicate OnlyFirstSyncs(accounts: seq<Account>) {
    forall i :: 0 < i < |accounts| ==> !accounts[i].syncPassword
  }

  predicate Present(s: State, account: Account) {
    NormalizeUsername(account.username).Ok? && HasName(s.users, NormalizeUsername(account.username).value)
  }

  predicate Synced(s: State, account: Account) {
    && NormalizeUsername(account.username).Ok?
    && exists u :: u in s.users && s.users[u].username == NormalizeUsername(account.username).value
                   && s.users[u].password == account.password
  }

  lemma AddingKeepsPresent(s: State, id: UserId, user: User, account: Account)
    requires id !in s.users
    ensures Present(s, account) ==> Present(s.(users := s.users[id := user]), account)
    ensures Synced(s, account) ==> Synced(s.(users := s.users[id := user]), account)
  {
    hide NormalizeUsername;
    var t := s.(users := s.users[id := user]);
    if Present(s, account) {
      var u :| u in s.users && s.users[u].username == NormalizeUsername(account.username).value;
      assert u in t.users && t.users[u] == s.users[u];
    }
    if Synced(s, account) {
      var u :| u in s.users && s.users[u].username == NormalizeUsername(account.username).value
        && s.users[u].password == account.password;
      assert u in t.users && t.users[u] == s.users[u];
    }
  }

  lemma PasswordKeepsPresent(s: State, user: UserId, password: string, account: Account)
    requires user in s.users
    ensures Present(s, account) ==> Present(WithPassword(s, user, password), account)
  {
    hide NormalizeUsername, RevokeUser;
    if Present(s, account) {
      var u :| u in s.users && s.users[u].username == NormalizeUsername(account.username).value;
      assert u in WithPassword(s, user, password).users;
    }
  }

  /** What one account of the list leaves behind. */
  lemma AddAccountMeaning(committed: State, s: State, account: Account, id: UserId, other: Account)
    requires committed.users.Keys <= s.users.Keys && id !in s.users
    requires forall u :: u in committed.users ==> s.users[u].username == committed.users[u].username
    requires AddAccount(committed, s, account, id).Ok?
    ensures LongEnough(account.password) && Present(AddAccount(committed, s, account, id).value, account)
    ensures Present(s, other) ==> Present(AddAccount(committed, s, account, id).value, other)
    ensures !account.syncPassword && Synced(s, other) ==> Synced(AddAccount(committed, s, account, id).value, other)
    ensures account.syncPassword ==> Synced(AddAccount(committed, s, account, id).value, account)
  {
    hide NormalizeUsername, RevokeUser, LongEnough;
    var name := NormalizeUsername(account.username).value;
    var t := AddAccount(committed, s, account, id).value;
    if HasName(committed.users, name) {
      var u := NamedUser(committed.users, name);
      assert u in t.users && t.users[u].username == name;
      PasswordKeepsPresent(s, u, account.password, other);
    } else {
      AddingKeepsPresent(s, id, NewAccount(account, name), other);
      assert id in t.users && t.users[id].username == name && t.users[id].password == account.password;
    }
  }

  lemma {:induction false} AddAccountsMeaning(s: State, accounts: seq<Account>, ids: seq<UserId>)
    requires |ids| == |accounts| && FreshIds(s, ids) && OnlyFirstSyncs(accounts) && AddAccounts(s, accounts, ids).Ok?
    ensures forall i :: 0 <= i < |accounts| ==>
              LongEnough(accounts[i].password) && Present(AddAccounts(s, accounts, ids).value, accounts[i])
    ensures accounts != [] && accounts[0].syncPassword ==> Synced(AddAccounts(s, accounts, ids).value, accounts[0])
  {
    hide NormalizeUsername, Present, Synced, AddAccount, LongEnough;
    if accounts != [] {
      var n := |accounts| - 1;
      AddAccountsMeaning(s, accounts[..n], ids[..n]);
      AddedKeys(s, accounts[..n], ids[..n]);
      var front := AddAccounts(s, accounts[..n], ids[..n]).value;
      forall u | u in s.users
        ensures u in front.users && front.users[u].username == s.users[u].username
      {
        AddedAccountsKeepUsers(s, accounts[..n], ids[..n], u);
      }
      forall i | 0 <= i < |accounts|
        ensures LongEnough(accounts[i].password) && Present(AddAccounts(s, accounts, ids).value, accounts[i])
      {
        AddAccountMeaning(s, front, accounts[n], ids[n], accounts[i]);
      }
      AddAccountMeaning(s, front, accounts[n], ids[n], accounts[0]);
    }
  }

  lemma {:induction false} NothingToAdd(s: State, accounts: seq<Account>, ids: seq<UserId>)
    requires |ids| == |accounts| && OnlyFirstSyncs(accounts) && UniqueUsers(s.users)
    requires forall i :: 0 <= i < |accounts| ==> LongEnough(accounts[i].password) && Present(s, accounts[i])
    requires accounts != [] && accounts[0].syncPassword ==> Synced(s, accounts[0])
    ensures AddAccounts(s, accounts, ids) == Ok(s)
  {
    hide NormalizeUsername, LongEnough, RevokeUser;
    if accounts != [] {
      var n := |accounts| - 1;
      assert forall i :: 0 <= i < n ==> accounts[..n][i] == accounts[i];
      NothingToAdd(s, accounts[..n], ids[..n]);
      assert Present(s, accounts[n]);
      var name := NormalizeUsername(accounts[n].username).value;
      var u := NamedUser(s.users, name);
    }
  }

  /** A successful bootstrap creates every account and leaves nothing for a second one to do. */
  lemma BootstrapTwice(s: State, accounts: seq<Account>, ids: seq<UserId>, again: seq<UserId>)
    requires |ids| == |accounts| == |again| && FreshIds(s, ids) && OnlyFirstSyncs(accounts)
    requires Bootstrap(s, accounts, ids).Ok?
    ensures var t := Bootstrap(s, accounts, ids).value;
            && (forall i :: 0 <= i < |accounts| ==> Present(t, accounts[i]))
            && Bootstrap(t, accounts, again) == Ok(t)
  {
    hide AddAccounts, Present, Synced, LongEnough;
    AddAccountsMeaning(s, accounts, ids);
    NothingToAdd(Bootstrap(s, accounts, ids).value, accounts, again);
  }
}
