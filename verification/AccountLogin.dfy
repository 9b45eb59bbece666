/** Which password a user logs in with after any run, and how long the session of a login lives. */
module AccountLogin {
  import opened Prelude
  import opened Accounts
  import opened Text
  import AccountSafety

  // ---------- What a run does to one user ----------

  /** Some account of the list synchronises the password of the user with this name. */
  predicate SyncsName(accounts: seq<Account>, name: string) {
    exists i :: 0 <= i < |accounts| && accounts[i].syncPassword && NormalizeUsername(accounts[i].username) == Ok(name)
  }

  /** The step gives the user another password: a change that is accepted, or a bootstrap. */
  ghost predicate SetsPassword(s: State, step: Step, u: UserId)
    requires u in s.users
  {
    match step
    case NewPassword(owner, current, chosen) => owner == u && ChangePassword(s, u, current, chosen).Ok?
    case Start(accounts, _) => SyncsName(accounts, s.users[u].username)
    case _ => false
  }

  /** Whether the last accepted switch has left the user enabled. */
  ghost predicate EnabledAfter(s: State, run: seq<Step>, u: UserId)
    requires ValidRun(s, run) && u in s.users
    decreases |run|
  {
    if run == [] then s.users[u].active
    else
      var before, last := run[..|run| - 1], run[|run| - 1];
      KeepsUser(s, before, u);
      var t := Exec(s, before);
      if last.Switch? && last.target == u && SetActive(t, u, last.active).Ok? then last.active
      else EnabledAfter(s, before, u)
  }

  ghost predicate KeepsPassword(s: State, run: seq<Step>, u: UserId)
    requires ValidRun(s, run) && u in s.users
    decreases |run|
  {
    run == []
    || (KeepsUser(s, run[..|run| - 1], u);
        && KeepsPassword(s, run[..|run| - 1], u) && !SetsPassword(Exec(s, run[..|run| - 1]), run[|run| - 1], u))
  }

  lemma SyncsPrefix(accounts: seq<Account>, name: string)
    requires accounts != []
    ensures SyncsName(accounts[..|accounts| - 1], name) ==> SyncsName(accounts, name)
  {
    hide NormalizeUsername;
    var front := accounts[..|accounts| - 1];
    if i :| 0 <= i < |front| && front[i].syncPassword && NormalizeUsername(front[i].username) == Ok(name) {
      assert accounts[i] == front[i];
    }
  }

  predicate SameIdentity(a: User, b: User) {
    a.username == b.username && a.email == b.email && a.role == b.role
  }

  lemma {:induction false} AddingKeepsUser(s: State, accounts: seq<Account>, ids: seq<UserId>, u: UserId)
    requires |ids| == |accounts| && FreshIds(s, ids) && AddAccounts(s, accounts, ids).Ok? && u in s.users
    ensures var t := AddAccounts(s, accounts, ids).value;
            && u in t.users && SameIdentity(s.users[u], t.users[u]) && t.users[u].active == s.users[u].active
            && (!SyncsName(accounts, s.users[u].username) ==> t.users[u] == s.users[u])
  {
    hide NormalizeUsername, HasName, NewAccount, LongEnough, RevokeUser;
    if accounts != [] {
      var n := |accounts| - 1;
      AddingKeepsUser(s, accounts[..n], ids[..n], u);
      SyncsPrefix(accounts, s.users[u].username);
      match NormalizeUsername(accounts[n].username)
      case Err(_) =>
      case Ok(name) =>
        if HasName(s.users, name) {
          var named := AccountSafety.NamedUser(s.users, name);
        }
    }
  }

  lemma UserStep(s: State, step: Step, u: UserId)
    requires Allowed(s, step) && u in s.users
    ensures u in Apply(s, step).users && SameIdentity(s.users[u], Apply(s, step).users[u])
    ensures Apply(s, step).users[u].active
            == if step.Switch? && step.target == u && SetActive(s, u, step.active).Ok? then step.active
               else s.users[u].active
    ensures !SetsPassword(s, step, u) ==>
              && Apply(s, step).users[u].password == s.users[u].password
              && Apply(s, step).users[u].mustChange == s.users[u].mustChange
  {
    hide AddAccounts, NormalizeUsername, RevokeUser, UniqueUsers, OtherAdmin, Taken, LongEnough, SyncsName, FreshToken;
    if step.Start? && AddAccounts(s, step.accounts, step.ids).Ok? {
      AddingKeepsUser(s, step.accounts, step.ids, u);
    }
  }

  /** A user stays for good, with the same name, address and role. */
  lemma {:induction false} KeepsUser(s: State, run: seq<Step>, u: UserId)
    requires ValidRun(s, run) && u in s.users
    ensures u in Exec(s, run).users && SameIdentity(s.users[u], Exec(s, run).users[u])
    decreases |run|
  {
    hide Apply, Allowed;
    if run != [] {
      KeepsUser(s, run[..|run| - 1], u);
      UserStep(Exec(s, run[..|run| - 1]), run[|run| - 1], u);
    }
  }

  lemma {:induction false} UserAfter(s: State, run: seq<Step>, u: UserId)
    requires ValidRun(s, run) && u in s.users
    ensures u in Exec(s, run).users && Exec(s, run).users[u].active == EnabledAfter(s, run, u)
    ensures KeepsPassword(s, run, u) ==>
              && Exec(s, run).users[u].password == s.users[u].password
              && Exec(s, run).users[u].mustChange == s.users[u].mustChange
    decreases |run|
  {
    hide Apply, Allowed, SetsPassword, SetActive;
    if run != [] {
      KeepsUser(s, run[..|run| - 1], u);
      UserAfter(s, run[..|run| - 1], u);
      UserStep(Exec(s, run[..|run| - 1]), run[|run| - 1], u);
    }
  }

  // ---------- Logging in ----------

  /** The login starts its session. */
  ghost predicate Succeeds(s: State, login: Step)
    requires login.Login? && Allowed(s, login)
  {
    login.session in Apply(s, login).sessions
  }

  lemma LoginDecision(s: State, login: Step)
    requires login.Login? && Allowed(s, login)
    ensures Succeeds(s, login) <==> s.users[login.user].active && login.secret == s.users[login.user].password
    ensures !Succeeds(s, login) ==> Apply(s, login) == s
  {
    hide FreshToken;
  }

  /** After any run that sets no password of the user, a login succeeds exactly if the user is enabled
      and the password is the one from the beginning. */
  lemma PasswordStays(s: State, run: seq<Step>, login: Step)
    requires ValidRun(s, run) && login.Login? && login.user in s.users && KeepsPassword(s, run, login.user)
    requires Allowed(Exec(s, run), login)
    ensures Succeeds(Exec(s, run), login)
            <==> EnabledAfter(s, run, login.user) && login.secret == s.users[login.user].password
  {
    UserAfter(s, run, login.user);
    LoginDecision(Exec(s, run), login);
    hide Exec, ValidRun, Succeeds, Allowed, KeepsPassword, EnabledAfter;
  }

  /** After an accepted change, in every run without another one, a login succeeds exactly if the user
      is enabled and the password is the chosen one: the earlier one works no more, unless it was
      chosen again. */
  lemma ChosenPasswordLogsIn(s: State, u: UserId, current: string, chosen: string, run: seq<Step>, login: Step)
    requires u in s.users && ChangePassword(s, u, current, chosen).Ok?
    requires var t := ChangePassword(s, u, current, chosen).value;
             && u in t.users && ValidRun(t, run) && KeepsPassword(t, run, u)
             && login.Login? && login.user == u && Allowed(Exec(t, run), login)
    ensures var t := ChangePassword(s, u, current, chosen).value;
            && (Succeeds(Exec(t, run), login) <==> EnabledAfter(t, run, u) && login.secret == chosen)
            && (s.users[u].active <==> EnabledAfter(t, [], u))
            && u in Exec(t, run).users && !Exec(t, run).users[u].mustChange
  {
    var t := ChangePassword(s, u, current, chosen).value;
    PasswordStays(t, run, login);
    UserAfter(t, run, u);
    hide ValidRun, Exec, Succeeds, Allowed, RevokeUser;
  }

  /** A change is accepted exactly with the current password and a new one of twelve characters. */
  lemma ChangeErrors(s: State, u: UserId, current: string, chosen: string)
    requires u in s.users
    ensures var r := ChangePassword(s, u, current, chosen);
            && (r == Err(WrongPassword) <==> current != s.users[u].password)
            && (r == Err(ShortPassword) <==> current == s.users[u].password && |chosen| < 12)
            && (r.Err? ==> r.error in {WrongPassword, ShortPassword})
  {
  }

  // ---------- New users ----------

  /** A name or an address, whatever its case and the blanks around it. */
  predicate Names(typed: string, name: string) {
    Canonical(typed) == name
  }

  predicate NameFits(name: string) {
    && 1 <= |name| <= 64
    && forall i :: 0 <= i < |name| ==> 'a' <= name[i] <= 'z' || '0' <= name[i] <= '9' || name[i] in "-_."
  }

  /** The two texts differ only in the case of Latin letters. */
  predicate SameButCase(a: string, b: string) {
    && |a| == |b|
    && forall i :: 0 <= i < |a| ==>
         a[i] == b[i] || ('A' <= a[i] <= 'Z' && b[i] == a[i] + ' ') || ('A' <= b[i] <= 'Z' && a[i] == b[i] + ' ')
  }

  /** Names in lower case are kept, and the case of what a user types does not matter. */
  lemma CaseIgnored(a: string, b: string)
    ensures SameButCase(a, b) ==> Lower(a) == Lower(b)
    ensures (forall i :: 0 <= i < |a| ==> !('A' <= a[i] <= 'Z')) ==> Lower(a) == a
  {
  }

  /** Blanks around a name do not matter either. */
  lemma BlanksIgnored(before: string, name: string, after: string)
    requires AllSpace(before) && AllSpace(after) && name != "" && !IsSpace(name[0]) && !IsSpace(name[|name| - 1])
    ensures Canonical(before + name + after) == Lower(name)
  {
    StripAround(before, name, after);
  }

  lemma LowerHasNoCapitals(s: string)
    ensures forall i :: 0 <= i < |Canonical(s)| ==> !('A' <= Canonical(s)[i] <= 'Z')
  {
  }

  /** Why a new user is refused. */
  lemma CreateErrors(
    s: State, id: UserId, username: string, email: string, password: string, role: Role, mustChange: bool)
    ensures var r, name := CreateUser(s, id, username, email, password, role, mustChange), Canonical(username);
            && (r == Err(BadUsername) <==> !NameFits(name))
            && (r == Err(ShortPassword) <==> NameFits(name) && |password| < 12)
            && (r == Err(UserExists) <==>
                  && NameFits(name) && |password| >= 12
                  && exists u :: u in s.users && (s.users[u].username == name || Names(email, s.users[u].email)))
            && (r.Err? ==> r.error in {BadUsername, ShortPassword, UserExists})
  {
    LowerHasNoCapitals(username);
    hide Canonical;
  }

  /** A new user has the name and the address in lower case and the given role, for good, and logs in
      with the given password until another one is set or the user is disabled. */
  lemma NewUserLogsIn(
    s: State, id: UserId, username: string, email: string, password: string, role: Role, mustChange: bool,
    run: seq<Step>, login: Step)
    requires id !in s.users && CreateUser(s, id, username, email, password, role, mustChange).Ok?
    requires var t := CreateUser(s, id, username, email, password, role, mustChange).value;
             && id in t.users && ValidRun(t, run) && KeepsPassword(t, run, id)
             && login.Login? && login.user == id && Allowed(Exec(t, run), login)
    ensures var t := CreateUser(s, id, username, email, password, role, mustChange).value;
            && (Succeeds(Exec(t, run), login) <==> EnabledAfter(t, run, id) && login.secret == password)
            && EnabledAfter(t, [], id) && id in Exec(t, run).users
            && var user := Exec(t, run).users[id];
               && Names(username, user.username) && Names(email, user.email)
               && user.role == role && user.mustChange == mustChange
    ensures var t := Exec(CreateUser(s, id, username, email, password, role, mustChange).value, run);
            forall typed :: id in t.users ==>
              (Matches(t.users[id], Canonical(typed))
               <==> Names(typed, Canonical(username)) || Names(typed, Canonical(email)))
    ensures Names(login.login, Canonical(username)) || Names(login.login, Canonical(email))
  {
    var t := CreateUser(s, id, username, email, password, role, mustChange).value;
    assert t.users[id] == User(Canonical(username), Canonical(email), password, 0, role, true, mustChange, None);
    PasswordStays(t, run, login);
    UserAfter(t, run, id);
    KeepsUser(t, run, id);
    LoginFits(Exec(t, run), login);
    hide ValidRun, Exec, Succeeds, Allowed, Canonical, CreateUser, FreshToken, KeepsPassword, EnabledAfter;
  }

  lemma LoginFits(s: State, login: Step)
    requires login.Login? && Allowed(s, login)
    ensures login.user in s.users && Matches(s.users[login.user], Canonical(login.login))
  {
  }

  // ---------- Disabled users ----------

  /** A disabled user is refused whatever the password, however often it is changed, and after being
      enabled again logs in with the same password as before. */
  lemma SwitchedUserLogsIn(s: State, u: UserId, active: bool, run: seq<Step>, login: Step)
    requires u in s.users && SetActive(s, u, active).Ok?
    requires var t := SetActive(s, u, active).value;
             && u in t.users && ValidRun(t, run)
             && login.Login? && login.user == u && Allowed(Exec(t, run), login)
    ensures var t := SetActive(s, u, active).value;
            && EnabledAfter(t, [], u) == active
            && (!EnabledAfter(t, run, u) ==> !Succeeds(Exec(t, run), login))
            && (KeepsPassword(t, run, u) && EnabledAfter(t, run, u) ==>
                  (Succeeds(Exec(t, run), login) <==> login.secret == s.users[u].password))
  {
    var t := SetActive(s, u, active).value;
    UserAfter(t, run, u);
    LoginDecision(Exec(t, run), login);
    if KeepsPassword(t, run, u) {
      PasswordStays(t, run, login);
    }
    hide ValidRun, Exec, Succeeds, Allowed, RevokeUser, OtherAdmin, KeepsPassword;
  }

  /** Only the last active administrator cannot be disabled, and disabling an administrator leaves one. */
  lemma SwitchErrors(s: State, u: UserId, active: bool)
    requires u in s.users
    ensures var r := SetActive(s, u, active);
            && (r.Err? ==> r == Err(LastAdministrator))
            && (r.Err? <==> && !active && s.users[u].role == Admin
                            && forall v :: v in s.users && v != u ==> !(s.users[v].role == Admin && s.users[v].active))
  {
    hide RevokeUser;
  }

  // ---------- The session of a login ----------

  /** The step ends the sessions of the user, or this one. */
  ghost predicate EndsSession(s: State, step: Step, session: SessionId)
    requires session in s.sessions && s.sessions[session].user in s.users
  {
    var u := s.sessions[session].user;
    match step
    case Logout(ended) => ended == session
    case Switch(target, active) => target == u && !active && SetActive(s, u, active).Ok?
    case _ => SetsPassword(s, step, u)
  }

  lemma {:induction false} AddingKeepsSession(
    s: State, accounts: seq<Account>, ids: seq<UserId>, session: SessionId)
    requires |ids| == |accounts| && FreshIds(s, ids) && AddAccounts(s, accounts, ids).Ok?
    requires session in s.sessions && s.sessions[session].user in s.users
    requires !SyncsName(accounts, s.users[s.sessions[session].user].username)
    ensures session in AddAccounts(s, accounts, ids).value.sessions
    ensures AddAccounts(s, accounts, ids).value.sessions[session] == s.sessions[session]
  {
    hide NormalizeUsername, HasName, NewAccount, LongEnough;
    if accounts != [] {
      var n := |accounts| - 1;
      var u := s.sessions[session].user;
      SyncsPrefix(accounts, s.users[u].username);
      AddingKeepsSession(s, accounts[..n], ids[..n], session);
      match NormalizeUsername(accounts[n].username)
      case Err(_) =>
      case Ok(name) =>
        if HasName(s.users, name) {
          var named := AccountSafety.NamedUser(s.users, name);
          assert accounts[n].syncPassword ==> named != u;
        }
    }
  }

  lemma SessionStep(s: State, step: Step, session: SessionId)
    requires Allowed(s, step) && session in s.sessions && s.sessions[session].user in s.users
    requires !EndsSession(s, step, session)
    ensures session in Apply(s, step).sessions && Apply(s, step).sessions[session] == s.sessions[session]
  {
    hide AddAccounts, NormalizeUsername, UniqueUsers, OtherAdmin, Taken, LongEnough, SyncsName, FreshToken;
    if step.Start? && AddAccounts(s, step.accounts, step.ids).Ok? {
      AddingKeepsSession(s, step.accounts, step.ids, session);
    }
  }

  /** No step of the run ends this session. */
  ghost predicate Undisturbed(s: State, run: seq<Step>, session: SessionId)
    requires ValidRun(s, run)
    decreases |run|
  {
    run == []
    || (Undisturbed(s, run[..|run| - 1], session)
        && var t := Exec(s, run[..|run| - 1]);
           session in t.sessions && t.sessions[session].user in t.users && !EndsSession(t, run[|run| - 1], session))
  }

  lemma {:induction false} SessionAfter(s: State, run: seq<Step>, session: SessionId)
    requires ValidRun(s, run) && session in s.sessions && s.sessions[session].user in s.users
    requires s.users[s.sessions[session].user].active && Undisturbed(s, run, session)
    ensures session in Exec(s, run).sessions && Exec(s, run).sessions[session] == s.sessions[session]
    ensures s.sessions[session].user in Exec(s, run).users && Exec(s, run).users[s.sessions[session].user].active
    decreases |run|
  {
    hide Apply, Allowed, SetsPassword, SetActive;
    if run != [] {
      SessionAfter(s, run[..|run| - 1], session);
      SessionStep(Exec(s, run[..|run| - 1]), run[|run| - 1], session);
      UserStep(Exec(s, run[..|run| - 1]), run[|run| - 1], s.sessions[session].user);
    }
  }

  /** The token of a login resolves to its session exactly until its time to live has passed, unless
      the session is revoked: by logging out, by another password or by disabling the user. */
  lemma TokenLives(s: State, login: Step, run: seq<Step>)
    requires login.Login? && Allowed(s, login) && Succeeds(s, login)
    requires ValidRun(Apply(s, login), run) && Undisturbed(Apply(s, login), run, login.session)
    ensures Usable(Exec(Apply(s, login), run), login.session, login.token)
            <==> Exec(Apply(s, login), run).now < s.now + s.ttl
  {
    LoginDecision(s, login);
    var t := Apply(s, login);
    assert t.sessions[login.session]
        == Session(login.user, login.token, login.csrf, s.now + s.ttl, None, s.users[login.user].epoch);
    SessionAfter(t, run, login.session);
    hide ValidRun, Exec, Undisturbed, Apply, Allowed, Succeeds;
  }

  // ---------- The bootstrap accounts ----------

  predicate DistinctNames(accounts: seq<Account>) {
    forall i, j :: 0 <= i < j < |accounts| ==>
      NormalizeUsername(accounts[i].username) != NormalizeUsername(accounts[j].username)
  }

  /** What a bootstrap makes of one account: a new enabled user who must change the password, or the
      user of that name, with the password of the account if it is synchronised. */
  ghost predicate Provides(s: State, t: State, account: Account, id: UserId) {
    && NormalizeUsername(account.username).Ok?
    && var name := NormalizeUsername(account.username).value;
    && (!HasName(s.users, name) ==>
          && id in t.users
          && t.users[id] == User(name, Canonical(account.email), account.password, 0, account.role, true, true, None))
    && (forall u :: u in s.users && s.users[u].username == name ==>
          && u in t.users && t.users[u].active == s.users[u].active && SameIdentity(s.users[u], t.users[u])
          && t.users[u].password == (if account.syncPassword then account.password else s.users[u].password))
  }

  lemma NoSyncOfName(accounts: seq<Account>, name: string)
    requires accounts != [] && DistinctNames(accounts)
    requires NormalizeUsername(accounts[|accounts| - 1].username) == Ok(name)
    ensures !SyncsName(accounts[..|accounts| - 1], name)
  {
    hide NormalizeUsername;
    assert forall i :: 0 <= i < |accounts| - 1 ==> accounts[..|accounts| - 1][i] == accounts[i];
  }

  lemma ProvidesLast(s: State, accounts: seq<Account>, ids: seq<UserId>)
    requires accounts != [] && |ids| == |accounts| && FreshIds(s, ids) && AddAccounts(s, accounts, ids).Ok?
    requires UniqueUsers(s.users) && DistinctNames(accounts)
    ensures Provides(s, AddAccounts(s, accounts, ids).value, accounts[|accounts| - 1], ids[|ids| - 1])
  {
    hide NormalizeUsername, NewAccount, LongEnough, RevokeUser, DistinctNames, SyncsName;
    var n := |accounts| - 1;
    var front, t := AddAccounts(s, accounts[..n], ids[..n]).value, AddAccounts(s, accounts, ids).value;
    var name := NormalizeUsername(accounts[n].username).value;
    NoSyncOfName(accounts, name);
    NewUserOf(accounts[n], name);
    forall u | u in s.users && s.users[u].username == name
      ensures u in t.users && t.users[u].active == s.users[u].active && SameIdentity(s.users[u], t.users[u])
      ensures t.users[u].password == if accounts[n].syncPassword then accounts[n].password else s.users[u].password
    {
      AddingKeepsUser(s, accounts[..n], ids[..n], u);
      assert AccountSafety.NamedUser(s.users, name) == u;
    }
  }

  lemma NewUserOf(account: Account, name: string)
    ensures NewAccount(account, name)
            == User(name, Canonical(account.email), account.password, 0, account.role, true, true, None)
  {
  }

  lemma ProvidesOn(s: State, accounts: seq<Account>, ids: seq<UserId>, account: Account, id: UserId)
    requires accounts != [] && |ids| == |accounts| && FreshIds(s, ids) && AddAccounts(s, accounts, ids).Ok?
    requires id in ids[..|ids| - 1]
    requires NormalizeUsername(account.username) != NormalizeUsername(accounts[|accounts| - 1].username)
    requires Provides(s, AddAccounts(s, accounts[..|accounts| - 1], ids[..|ids| - 1]).value, account, id)
    ensures Provides(s, AddAccounts(s, accounts, ids).value, account, id)
  {
    hide NormalizeUsername, Canonical, SameIdentity, HasName, AddAccount;
    var n := |accounts| - 1;
    var front, t := AddAccounts(s, accounts[..n], ids[..n]).value, AddAccounts(s, accounts, ids).value;
    forall u | && u in front.users
               && (u == id || (u in s.users && NormalizeUsername(account.username) == Ok(s.users[u].username)))
      ensures u in t.users && t.users[u] == front.users[u]
    {
      OtherUserKept(s, front, accounts[n], ids[n], u);
    }
  }

  lemma OtherUserKept(committed: State, s: State, account: Account, id: UserId, u: UserId)
    requires committed.users.Keys <= s.users.Keys && id !in committed.users && u != id && u in s.users
    requires u in committed.users ==> NormalizeUsername(account.username) != Ok(committed.users[u].username)
    requires AddAccount(committed, s, account, id).Ok?
    ensures u in AddAccount(committed, s, account, id).value.users
    ensures AddAccount(committed, s, account, id).value.users[u] == s.users[u]
  {
    hide NormalizeUsername, NewAccount, LongEnough, RevokeUser;
    if NormalizeUsername(account.username).Ok? && HasName(committed.users, NormalizeUsername(account.username).value) {
      var named := AccountSafety.NamedUser(committed.users, NormalizeUsername(account.username).value);
    }
  }

  /** A successful bootstrap provides every account of the list. */
  lemma {:induction false} BootstrapProvides(s: State, accounts: seq<Account>, ids: seq<UserId>)
    requires |ids| == |accounts| && FreshIds(s, ids) && AddAccounts(s, accounts, ids).Ok?
    requires UniqueUsers(s.users) && DistinctNames(accounts)
    ensures forall i :: 0 <= i < |accounts| ==> Provides(s, AddAccounts(s, accounts, ids).value, accounts[i], ids[i])
  {
    hide NormalizeUsername, Provides, AddAccount, UniqueUsers;
    if accounts != [] {
      var n := |accounts| - 1;
      BootstrapProvides(s, accounts[..n], ids[..n]);
      ProvidesLast(s, accounts, ids);
      forall i | 0 <= i < n
        ensures Provides(s, AddAccounts(s, accounts, ids).value, accounts[i], ids[i])
      {
        assert accounts[..n][i] == accounts[i] && ids[..n][i] == ids[i];
        ProvidesOn(s, accounts, ids, accounts[i], ids[i]);
      }
    }
  }
}
