/** Accounts and login sessions: every operation as a function on the committed state. */
module Accounts {
  import opened Prelude
  import opened Text

  type UserId = nat
  type SessionId = nat

  datatype Role = Admin | Member

  /** `password` stands for the stored hash, which only the same password matches. `epoch`
      counts the hashes the user has had; it is not stored. */
  datatype User = User(
    username: string, email: string, password: string, epoch: nat, role: Role, active: bool, mustChange: bool,
    lastLogin: Option<int>)

  /** `token` and `csrf` stand for the stored hashes. `issuedUnder` is the epoch of the user at
      the login; it is not stored. */
  datatype Session = Session(
    user: UserId, token: string, csrf: string, expiresAt: int, revokedAt: Option<int>, issuedUnder: nat)

  datatype State = State(users: map<UserId, User>, sessions: map<SessionId, Session>, now: int, ttl: int)

  datatype Account = Account(username: string, email: string, password: string, role: Role, syncPassword: bool)

  datatype AuthError =
    | BadUsername | ShortPassword | UserExists | BadLogin
    | NotAuthenticated | WrongPassword | LastAdministrator | NotUnique

  // ---------- Names ----------

  function LowerChar(c: char): char {
    if 'A' <= c <= 'Z' then c - 'A' + 'a' else c
  }

  function Lower(s: string): string {
    seq(|s|, i requires 0 <= i < |s| => LowerChar(s[i]))
  }

  function Canonical(s: string): string {
    Lower(Strip(s))
  }

  predicate IsNameChar(c: char) {
    'a' <= c <= 'z' || IsUpper(c) || IsDigit(c) || c in "-_."
  }

  function NormalizeUsername(username: string): Result<string, AuthError> {
    var value := Canonical(username);
    if 1 <= |value| <= 64 && forall i :: 0 <= i < |value| ==> IsNameChar(value[i]) then Ok(value) else Err(BadUsername)
  }

  predicate LongEnough(password: string) {
    |password| >= 12
  }

  // ---------- Uniqueness, sessions ----------

  /** The unique indexes on the user table. */
  predicate UniqueUsers(users: map<UserId, User>) {
    forall a, b :: a in users && b in users && a != b ==>
      users[a].username != users[b].username && users[a].email != users[b].email
  }

  predicate Taken(users: map<UserId, User>, username: string, email: string) {
    exists u :: u in users && (users[u].username == username || users[u].email == email)
  }

  predicate Matches(user: User, login: string) {
    user.username == login || user.email == login
  }

  function RevokeUser(sessions: map<SessionId, Session>, user: UserId, now: int): map<SessionId, Session> {
    map id | id in sessions ::
      if sessions[id].user == user && sessions[id].revokedAt.None?
      then sessions[id].(revokedAt := Some(now)) else sessions[id]
  }

  function WithPassword(s: State, id: UserId, password: string): State
    requires id in s.users
  {
    s.(users := s.users[id := s.users[id].(password := password, epoch := s.users[id].epoch + 1, mustChange := false)],
       sessions := RevokeUser(s.sessions, id, s.now))
  }

  // ---------- The operations ----------

  function CreateUser(
    s: State, id: UserId, username: string, email: string, password: string, role: Role, mustChange: bool)
    : Result<State, AuthError>
  {
    match NormalizeUsername(username)
    case Err(e) => Err(e)
    case Ok(name) =>
      if !LongEnough(password) then Err(ShortPassword)
      else if Taken(s.users, name, Canonical(email)) then Err(UserExists)
      else Ok(s.(users := s.users[id := User(name, Canonical(email), password, 0, role, true, mustChange, None)]))
  }

  /** A login of the user that the lookup found. */
  function Authenticate(s: State, user: UserId, password: string, session: SessionId, token: string, csrf: string)
    : Result<State, AuthError>
    requires user in s.users
  {
    var u := s.users[user];
    if !u.active || password != u.password then Err(BadLogin)
    else Ok(s.(users := s.users[user := u.(lastLogin := Some(s.now))],
               sessions := s.sessions[session := Session(user, token, csrf, s.now + s.ttl, None, u.epoch)]))
  }

  function Revoke(s: State, session: SessionId): State
    requires session in s.sessions
  {
    s.(sessions := s.sessions[session := s.sessions[session].(revokedAt := Some(s.now))])
  }

  function ChangePassword(s: State, user: UserId, current: string, password: string): Result<State, AuthError>
    requires user in s.users
  {
    if current != s.users[user].password then Err(WrongPassword)
    else if !LongEnough(password) then Err(ShortPassword)
    else Ok(WithPassword(s, user, password))
  }

  predicate OtherAdmin(s: State, user: UserId) {
    exists u :: u in s.users && u != user && s.users[u].role == Admin && s.users[u].active
  }

  function SetActive(s: State, user: UserId, active: bool): Result<State, AuthError>
    requires user in s.users
  {
    if s.users[user].role == Admin && !active && !OtherAdmin(s, user) then Err(LastAdministrator)
    else Ok(s.(users := s.users[user := s.users[user].(active := active)],
               sessions := if active then s.sessions else RevokeUser(s.sessions, user, s.now)))
  }

  /** A session that a request with this token may use. */
  predicate Usable(s: State, session: SessionId, token: string) {
    && session in s.sessions && s.sessions[session].token == token
    && s.sessions[session].revokedAt.None? && s.sessions[session].expiresAt > s.now
    && s.sessions[session].user in s.users && s.users[s.sessions[session].user].active
  }

  // ---------- The bootstrap accounts ----------

  predicate HasName(users: map<UserId, User>, name: string) {
    exists u :: u in users && users[u].username == name
  }

  ghost function UserNamed(users: map<UserId, User>, name: string): UserId
    requires HasName(users, name)
  {
    var u :| u in users && users[u].username == name;
    u
  }

  function NewAccount(account: Account, name: string): User {
    User(name, Canonical(account.email), account.password, 0, account.role, true, true, None)
  }

  /** One account of the list: the lookup sees the committed users, because nothing is flushed
      before the commit. */
  ghost function AddAccount(committed: State, s: State, account: Account, id: UserId): Result<State, AuthError>
    requires committed.users.Keys <= s.users.Keys
  {
    if !LongEnough(account.password) then Err(ShortPassword)
    else
      match NormalizeUsername(account.username)
      case Err(e) => Err(e)
      case Ok(name) =>
        if HasName(committed.users, name) then
          var u := UserNamed(committed.users, name);
          if account.syncPassword && s.users[u].password != account.password
          then Ok(WithPassword(s, u, account.password)) else Ok(s)
        else Ok(s.(users := s.users[id := NewAccount(account, name)]))
  }

  ghost function AddAccounts(committed: State, accounts: seq<Account>, ids: seq<UserId>): (r: Result<State, AuthError>)
    requires |ids| == |accounts|
    ensures r.Ok? ==> committed.users.Keys <= r.value.users.Keys
  {
    if accounts == [] then Ok(committed)
    else
      var n := |accounts| - 1;
      match AddAccounts(committed, accounts[..n], ids[..n])
      case Err(e) => Err(e)
      case Ok(s) => AddAccount(committed, s, accounts[n], ids[n])
  }

  /** All accounts are committed together, or none is. */
  ghost function Bootstrap(s: State, accounts: seq<Account>, ids: seq<UserId>): Result<State, AuthError>
    requires |ids| == |accounts|
  {
    match AddAccounts(s, accounts, ids)
    case Err(e) => Err(e)
    case Ok(t) => if UniqueUsers(t.users) then Ok(t) else Err(NotUnique)
  }

  // ---------- Runs ----------

  datatype Step =
    | Tick(to: int)
    | Create(id: UserId, username: string, email: string, password: string, role: Role, mustChange: bool)
    | Login(user: UserId, login: string, secret: string, session: SessionId, token: string, csrf: string)
    | Logout(ended: SessionId)
    | NewPassword(owner: UserId, current: string, chosen: string)
    | Switch(target: UserId, active: bool)
    | Start(accounts: seq<Account>, ids: seq<UserId>)

  ghost predicate FreshToken(s: State, token: string) {
    forall id :: id in s.sessions ==> s.sessions[id].token != token
  }

  predicate FreshIds(s: State, ids: seq<UserId>) {
    && (forall i :: 0 <= i < |ids| ==> ids[i] !in s.users)
    && (forall i, j :: 0 <= i < j < |ids| ==> ids[i] != ids[j])
  }

  /** What callers and the random generators guarantee. */
  ghost predicate Allowed(s: State, step: Step) {
    match step
    case Tick(to) => to >= s.now
    case Create(id, _, _, _, _, _) => id !in s.users
    case Login(user, login, _, session, token, _) =>
      user in s.users && Matches(s.users[user], Canonical(login)) && session !in s.sessions && FreshToken(s, token)
    case Logout(session) => session in s.sessions
    case NewPassword(user, _, _) => user in s.users
    case Switch(user, _) => user in s.users
    case Start(accounts, ids) => |ids| == |accounts| && FreshIds(s, ids)
  }

  function Kept(s: State, r: Result<State, AuthError>): State {
    if r.Ok? then r.value else s
  }

  /** A failing operation commits nothing. */
  ghost function Apply(s: State, step: Step): State
    requires Allowed(s, step)
  {
    match step
    case Tick(to) => s.(now := to)
    case Create(id, username, email, password, role, mustChange) =>
      Kept(s, CreateUser(s, id, username, email, password, role, mustChange))
    case Login(user, _, password, session, token, csrf) =>
      Kept(s, Authenticate(s, user, password, session, token, csrf))
    case Logout(session) => Revoke(s, session)
    case NewPassword(user, current, password) => Kept(s, ChangePassword(s, user, current, password))
    case Switch(user, active) => Kept(s, SetActive(s, user, active))
    case Start(accounts, ids) => Kept(s, Bootstrap(s, accounts, ids))
  }

  ghost predicate ValidRun(s: State, run: seq<Step>)
    decreases |run|, 0
  {
    run == [] || (ValidRun(s, run[..|run| - 1]) && Allowed(Exec(s, run[..|run| - 1]), run[|run| - 1]))
  }

  ghost function Exec(s: State, run: seq<Step>): State
    requires ValidRun(s, run)
    decreases |run|, 1
  {
    if run == [] then s else Apply(Exec(s, run[..|run| - 1]), run[|run| - 1])
  }

  const EMPTY_USERS: map<UserId, User> := map[]

  function Initial(now: int, ttl: int): State {
    State(EMPTY_USERS, map[], now, ttl)
  }
}
