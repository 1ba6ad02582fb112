/**
 Login sessions of `server/app/central_auth.py` under concurrency. Registration, login, refresh and password change read
 or check in one transaction and write in another; anything may happen in between. Tokens are fresh random values, stored as hashes.
 */
module AuthSessions {
  import opened Common

  type UserId = nat
  type SessionId = nat
  type Token = nat
  type CallId = nat

  /** `epoch` counts the passwords the user has had. */
  datatype User = User(enabled: bool, epoch: nat)

  /** `epoch` is history: which password the login of this session was checked against. */
  datatype Session = Session(
    user: UserId, access: Token, refresh: Token, accessExp: int, refreshExp: int, revoked: bool, epoch: nat)

  type Sessions = map<SessionId, Session>

  datatype Db = Db(users: map<UserId, User>, sessions: Sessions)

  // ----- transactions -----

  predicate Enabled(db: Db, user: UserId) {
    user in db.users && db.users[user].enabled
  }

  predicate Grants(db: Db, sid: SessionId, token: Token, now: int) {
    && sid in db.sessions && db.sessions[sid].access == token && !db.sessions[sid].revoked
    && db.sessions[sid].accessExp > now && Enabled(db, db.sessions[sid].user)
  }

  predicate Refreshes(db: Db, sid: SessionId, token: Token, now: int) {
    && sid in db.sessions && db.sessions[sid].refresh == token && !db.sessions[sid].revoked
    && db.sessions[sid].refreshExp > now && Enabled(db, db.sessions[sid].user)
  }

  /** The insert of `_issue_session`; the foreign key asks for the user, nothing asks whether it is enabled. */
  function Issued(db: Db, sid: SessionId, row: Session): Db {
    if row.user in db.users then db.(sessions := db.sessions[sid := row]) else db
  }

  /** The update of `refresh`: by id only, and `revoked_at` is not among its columns. */
  function Refreshed(db: Db, sid: SessionId, access: Token, refresh: Token, accessExp: int, refreshExp: int): Db {
    if sid in db.sessions
    then db.(sessions := db.sessions[sid := db.sessions[sid].(
                access := access, refresh := refresh, accessExp := accessExp, refreshExp := refreshExp)])
    else db
  }

  function Revoked(db: Db, ids: set<SessionId>): Db {
    db.(sessions := map i | i in db.sessions ::
          if i in ids then db.sessions[i].(revoked := true) else db.sessions[i])
  }

  function OfUser(db: Db, user: UserId, keep: Option<SessionId>): set<SessionId> {
    set i | i in db.sessions && db.sessions[i].user == user && Some(i) != keep
  }

  function WithAccess(db: Db, token: Token): set<SessionId> {
    set i | i in db.sessions && db.sessions[i].access == token
  }

  /** Disabling revokes in the same transaction. */
  function EnabledSet(db: Db, user: UserId, enabled: bool): Db {
    if user !in db.users then db
    else
      var db1 := db.(users := db.users[user := db.users[user].(enabled := enabled)]);
      if enabled then db1 else Revoked(db1, OfUser(db1, user, None))
  }

  function NewPassword(db: Db, user: UserId): Db {
    if user in db.users then db.(users := db.users[user := db.users[user].(epoch := db.users[user].epoch + 1)]) else db
  }

  /** The last transaction of `confirm_password_reset`: the password and all sessions at once. */
  function PasswordReset(db: Db, user: UserId): Db {
    Revoked(NewPassword(db, user), OfUser(db, user, None))
  }

  function Deleted(db: Db, user: UserId): Db {
    Db(db.users - {user}, map i | i in db.sessions && db.sessions[i].user != user :: db.sessions[i])
  }

  // ----- interleavings -----

  datatype Call =
    // a login past its password check, or a registration past its insert, whose session is not stored yet
    | Issuing(user: UserId, epoch: nat)
    | Refreshing(session: SessionId, at: int)
    | Changing(user: UserId, keep: Option<SessionId>, written: bool)

  datatype State = State(
    clock: int, db: Db, calls: map<CallId, Call>, tokens: set<Token>, ids: set<SessionId>, everUsers: set<UserId>)

  datatype Life = Life(access: nat, refresh: nat)

  datatype Choice =
    | Advance(seconds: nat)
    | Register(call: CallId, user: UserId)
    | CheckLogin(call: CallId, user: UserId, right: bool)
    | IssueSession(call: CallId, sid: SessionId, access: Token, refresh: Token, life: Life)
    | CheckRefresh(call: CallId, sid: SessionId, token: Token)
    | WriteRefresh(call: CallId, access: Token, refresh: Token, life: Life)
    | CheckChange(call: CallId, user: UserId, keep: Option<SessionId>, right: bool)
    | WriteChange(call: CallId)
    | RevokeOthers(call: CallId)
    | RevokeAccess(token: Token)
    | RevokeSession(user: UserId, sid: SessionId)
    | RevokeUser(user: UserId, keep: Option<SessionId>)
    | SetEnabled(user: UserId, enabled: bool)
    | Reset(user: UserId)
    | DeleteUser(user: UserId)
    | Abandon(call: CallId)

  predicate Fresh(s: State, access: Token, refresh: Token) {
    access !in s.tokens && refresh !in s.tokens && access != refresh
  }

  predicate Pending(s: State, call: CallId, c: Call) {
    call in s.calls && s.calls[call] == c
  }

  function StepLogin(s: State, c: Choice): State
    requires c.CheckLogin? || c.IssueSession?
  {
    match c
    case CheckLogin(call, user, right) =>
      if call !in s.calls && Enabled(s.db, user) && right
      then s.(calls := s.calls[call := Issuing(user, s.db.users[user].epoch)]) else s
    case IssueSession(call, sid, access, refresh, life) =>
      if call in s.calls && s.calls[call].Issuing? && sid !in s.ids && Fresh(s, access, refresh) then
        var l := s.calls[call];
        var row := Session(l.user, access, refresh, s.clock + life.access, s.clock + life.refresh, false, l.epoch);
        s.(db := Issued(s.db, sid, row), calls := s.calls - {call}, tokens := s.tokens + {access, refresh}, ids := s.ids + {sid})
      else s
  }

  function StepRefresh(s: State, c: Choice): State
    requires c.CheckRefresh? || c.WriteRefresh?
  {
    match c
    case CheckRefresh(call, sid, token) =>
      if call !in s.calls && Refreshes(s.db, sid, token, s.clock)
      then s.(calls := s.calls[call := Refreshing(sid, s.clock)]) else s
    case WriteRefresh(call, access, refresh, life) =>
      if call in s.calls && s.calls[call].Refreshing? && Fresh(s, access, refresh) then
        var r := s.calls[call];
        s.(db := Refreshed(s.db, r.session, access, refresh, r.at + life.access, r.at + life.refresh),
           calls := s.calls - {call}, tokens := s.tokens + {access, refresh})
      else s
  }

  function StepChange(s: State, c: Choice): State
    requires c.CheckChange? || c.WriteChange? || c.RevokeOthers?
  {
    match c
    case CheckChange(call, user, keep, right) =>
      if call !in s.calls && Enabled(s.db, user) && right then s.(calls := s.calls[call := Changing(user, keep, false)]) else s
    case WriteChange(call) =>
      if call in s.calls && s.calls[call].Changing? && !s.calls[call].written
      then s.(db := NewPassword(s.db, s.calls[call].user), calls := s.calls[call := s.calls[call].(written := true)]) else s
    case RevokeOthers(call) =>
      if call in s.calls && s.calls[call].Changing? && s.calls[call].written
      then s.(db := Revoked(s.db, OfUser(s.db, s.calls[call].user, s.calls[call].keep)), calls := s.calls - {call}) else s
  }

  function StepAdmin(s: State, c: Choice): State
    requires c.RevokeAccess? || c.RevokeSession? || c.RevokeUser? || c.SetEnabled? || c.Reset? || c.DeleteUser?
  {
    match c
    case RevokeAccess(token) => s.(db := Revoked(s.db, WithAccess(s.db, token)))
    case RevokeSession(user, sid) =>
      if sid in s.db.sessions && s.db.sessions[sid].user == user then s.(db := Revoked(s.db, {sid})) else s
    case RevokeUser(user, keep) => s.(db := Revoked(s.db, OfUser(s.db, user, keep)))
    case SetEnabled(user, enabled) => s.(db := EnabledSet(s.db, user, enabled))
    case Reset(user) => s.(db := PasswordReset(s.db, user))
    case DeleteUser(user) => s.(db := Deleted(s.db, user))
  }

  function Step(s: State, c: Choice): State {
    match c
    case Advance(n) => s.(clock := s.clock + n)
    case Register(call, user) =>
      if user in s.everUsers || call in s.calls then s
      else s.(db := s.db.(users := s.db.users[user := User(true, 0)]), everUsers := s.everUsers + {user},
              calls := s.calls[call := Issuing(user, 0)])
    case Abandon(call) => s.(calls := s.calls - {call})
    case CheckLogin(_, _, _) => StepLogin(s, c)
    case IssueSession(_, _, _, _, _) => StepLogin(s, c)
    case CheckRefresh(_, _, _) => StepRefresh(s, c)
    case WriteRefresh(_, _, _, _) => StepRefresh(s, c)
    case CheckChange(_, _, _, _) => StepChange(s, c)
    case WriteChange(_) => StepChange(s, c)
    case RevokeOthers(_) => StepChange(s, c)
    case _ => StepAdmin(s, c)
  }

  function Exec(s: State, cs: seq<Choice>): State {
    if cs == [] then s else Step(Exec(s, cs[..|cs| - 1]), cs[|cs| - 1])
  }

  function Init(clock: int): State {
    State(clock, Db(map[], map[]), map[], {}, {}, {})
  }

  lemma OneMore(s: State, cs: seq<Choice>, c: Choice)
    ensures Exec(s, cs + [c]) == Step(Exec(s, cs), c)
  {
    assert (cs + [c])[..|cs|] == cs;
  }

  // ----- invariant -----

  predicate SessionOk(s: State, i: SessionId)
    requires i in s.db.sessions
  {
    var row := s.db.sessions[i];
    && i in s.ids && row.access in s.tokens && row.refresh in s.tokens && row.access != row.refresh
    && row.user in s.db.users && row.epoch <= s.db.users[row.user].epoch
  }

  predicate Apart(a: Session, b: Session) {
    a.access != b.access && a.refresh != b.refresh && a.access != b.refresh && a.refresh != b.access
  }

  predicate CallOk(s: State, c: Call) {
    c.Issuing? ==> c.user in s.everUsers && (c.user in s.db.users ==> c.epoch <= s.db.users[c.user].epoch)
  }

  ghost predicate Inv(s: State) {
    && (forall i {:trigger SessionOk(s, i)} :: i in s.db.sessions ==> SessionOk(s, i))
    && (forall i, j {:trigger Apart(s.db.sessions[i], s.db.sessions[j])} ::
          i in s.db.sessions && j in s.db.sessions && i != j ==> Apart(s.db.sessions[i], s.db.sessions[j]))
    && (forall k {:trigger CallOk(s, s.calls[k])} :: k in s.calls ==> CallOk(s, s.calls[k]))
    && s.db.users.Keys <= s.everUsers
  }

  /** Steps that hand out no token: rows may be revoked, users may get new passwords. */
  ghost predicate Tamer(s: State, t: State) {
    && t.ids == s.ids && t.tokens == s.tokens && t.everUsers == s.everUsers
    && t.db.sessions.Keys <= s.db.sessions.Keys
    && (forall i :: i in t.db.sessions ==> t.db.sessions[i].(revoked := true) == s.db.sessions[i].(revoked := true))
    && (forall i :: i in t.db.sessions ==> t.db.sessions[i].user in t.db.users)
    && t.db.users.Keys <= s.db.users.Keys
    && (forall u :: u in t.db.users ==> s.db.users[u].epoch <= t.db.users[u].epoch)
  }

  lemma TamerKeeps(s: State, t: State)
    requires Inv(s) && Tamer(s, t)
    requires forall k :: k in t.calls ==> CallOk(t, t.calls[k])
    ensures Inv(t)
  {
    forall i | i in t.db.sessions ensures SessionOk(t, i) {
      assert SessionOk(s, i);
    }
    forall i, j | i in t.db.sessions && j in t.db.sessions && i != j ensures Apart(t.db.sessions[i], t.db.sessions[j]) {
      assert Apart(s.db.sessions[i], s.db.sessions[j]);
    }
  }

  /** A row gets tokens that nobody has. */
  lemma FreshRowKeeps(s: State, t: State, sid: SessionId)
    requires Inv(s) && sid in t.db.sessions && t.db.users == s.db.users && t.everUsers == s.everUsers
    requires t.db.sessions == s.db.sessions[sid := t.db.sessions[sid]] && s.ids <= t.ids && sid in t.ids
    requires var row := t.db.sessions[sid];
             && Fresh(s, row.access, row.refresh) && t.tokens == s.tokens + {row.access, row.refresh}
             && row.user in s.db.users && row.epoch <= s.db.users[row.user].epoch
    requires forall k :: k in t.calls ==> k in s.calls && t.calls[k] == s.calls[k]
    ensures Inv(t)
  {
    forall i | i in t.db.sessions ensures SessionOk(t, i) {
      assert i != sid ==> SessionOk(s, i);
    }
    forall i, j | i in t.db.sessions && j in t.db.sessions && i != j ensures Apart(t.db.sessions[i], t.db.sessions[j]) {
      assert i != sid ==> SessionOk(s, i);
      assert j != sid ==> SessionOk(s, j);
      assert i != sid && j != sid ==> Apart(s.db.sessions[i], s.db.sessions[j]);
    }
    forall k | k in t.calls ensures CallOk(t, t.calls[k]) {
      assert CallOk(s, s.calls[k]);
    }
  }

  lemma CallsKeep(s: State, t: State)
    requires Inv(s)
    requires forall k :: k in t.calls ==>
               (k in s.calls && (t.calls[k] == s.calls[k] || !t.calls[k].Issuing?))
               || !t.calls[k].Issuing? || (t.calls[k].user in s.db.users && t.calls[k].epoch == s.db.users[t.calls[k].user].epoch)
    requires forall u :: u in t.db.users ==> u in s.db.users && s.db.users[u].epoch <= t.db.users[u].epoch
    requires t.everUsers == s.everUsers
    ensures forall k :: k in t.calls ==> CallOk(t, t.calls[k])
  {
    forall k | k in t.calls ensures CallOk(t, t.calls[k]) {
      assert k in s.calls ==> CallOk(s, s.calls[k]);
    }
  }

  lemma LoginKeeps(s: State, c: Choice)
    requires Inv(s) && (c.CheckLogin? || c.IssueSession?)
    ensures Inv(StepLogin(s, c))
  {
    var t := StepLogin(s, c);
    if c.IssueSession? && t != s {
      assert CallOk(s, s.calls[c.call]);
      if s.calls[c.call].user in s.db.users {
        FreshRowKeeps(s, t, c.sid);
      } else {
        CallsKeep(s, t);
        UnusedTokensKeep(s, t);
      }
    } else {
      CallsKeep(s, t);
      SameDbKeeps(s, t);
    }
  }

  /** Tokens may be drawn for nothing. */
  lemma UnusedTokensKeep(s: State, t: State)
    requires Inv(s) && t.db == s.db && s.tokens <= t.tokens && s.ids <= t.ids && t.everUsers == s.everUsers
    requires forall k :: k in t.calls ==> CallOk(t, t.calls[k])
    ensures Inv(t)
  {
    forall i | i in t.db.sessions ensures SessionOk(t, i) {
      assert SessionOk(s, i);
    }
  }

  lemma SameDbKeeps(s: State, t: State)
    requires Inv(s) && t == s.(calls := t.calls, clock := t.clock)
    requires forall k :: k in t.calls ==> CallOk(t, t.calls[k])
    ensures Inv(t)
  {
    UnusedTokensKeep(s, t);
  }

  lemma RefreshKeeps(s: State, c: Choice)
    requires Inv(s) && (c.CheckRefresh? || c.WriteRefresh?)
    ensures Inv(StepRefresh(s, c))
  {
    var t := StepRefresh(s, c);
    if c.WriteRefresh? && t != s {
      var sid := s.calls[c.call].session;
      if sid in s.db.sessions {
        assert SessionOk(s, sid);
        FreshRowKeeps(s, t, sid);
      } else {
        CallsKeep(s, t);
        UnusedTokensKeep(s, t);
      }
    } else {
      CallsKeep(s, t);
      SameDbKeeps(s, t);
    }
  }

  lemma ChangeKeeps(s: State, c: Choice)
    requires Inv(s) && (c.CheckChange? || c.WriteChange? || c.RevokeOthers?)
    ensures Inv(StepChange(s, c))
  {
    var t := StepChange(s, c);
    CallsKeep(s, t);
    forall i | i in t.db.sessions ensures t.db.sessions[i].user in t.db.users {
      assert SessionOk(s, i);
    }
    TamerKeeps(s, t);
  }

  lemma AdminKeeps(s: State, c: Choice)
    requires Inv(s) && (c.RevokeAccess? || c.RevokeSession? || c.RevokeUser? || c.SetEnabled? || c.Reset? || c.DeleteUser?)
    ensures Inv(StepAdmin(s, c))
  {
    var t := StepAdmin(s, c);
    CallsKeep(s, t);
    forall i | i in t.db.sessions ensures t.db.sessions[i].user in t.db.users {
      assert SessionOk(s, i);
    }
    TamerKeeps(s, t);
  }

  lemma RegisterKeeps(s: State, call: CallId, user: UserId)
    requires Inv(s) && user !in s.everUsers && call !in s.calls
    ensures Inv(Step(s, Register(call, user)))
  {
    var t := Step(s, Register(call, user));
    forall i | i in t.db.sessions ensures SessionOk(t, i) {
      assert SessionOk(s, i);
    }
    forall k | k in t.calls ensures CallOk(t, t.calls[k]) {
      assert k != call ==> CallOk(s, s.calls[k]);
    }
  }

  lemma StepKeeps(s: State, c: Choice)
    requires Inv(s)
    ensures Inv(Step(s, c))
  {
    match c
    case Advance(_) =>
      CallsKeep(s, Step(s, c));
      SameDbKeeps(s, Step(s, c));
    case Register(call, user) =>
      if user !in s.everUsers && call !in s.calls {
        RegisterKeeps(s, call, user);
      }
    case Abandon(_) =>
      CallsKeep(s, Step(s, c));
      SameDbKeeps(s, Step(s, c));
    case CheckLogin(_, _, _) => LoginKeeps(s, c);
    case IssueSession(_, _, _, _, _) => LoginKeeps(s, c);
    case CheckRefresh(_, _, _) => RefreshKeeps(s, c);
    case WriteRefresh(_, _, _, _) => RefreshKeeps(s, c);
    case CheckChange(_, _, _, _) => ChangeKeeps(s, c);
    case WriteChange(_) => ChangeKeeps(s, c);
    case RevokeOthers(_) => ChangeKeeps(s, c);
    case _ => AdminKeeps(s, c);
  }

  lemma {:induction false} InvAlways(clock: int, cs: seq<Choice>)
    ensures Inv(Exec(Init(clock), cs))
  {
    if cs != [] {
      InvAlways(clock, cs[..|cs| - 1]);
      StepKeeps(Exec(Init(clock), cs[..|cs| - 1]), cs[|cs| - 1]);
    }
  }

  // ----- what holds in every interleaving -----

  /** Access and refresh tokens identify one session each. */
  lemma TokensIdentifySessions(clock: int, cs: seq<Choice>, i: SessionId, j: SessionId, token: Token, now: int)
    requires var db := Exec(Init(clock), cs).db;
             (Grants(db, i, token, now) || Refreshes(db, i, token, now)) && (Grants(db, j, token, now) || Refreshes(db, j, token, now))
    ensures i == j
  {
    var s := Exec(Init(clock), cs);
    InvAlways(clock, cs);
    assert i != j ==> Apart(s.db.sessions[i], s.db.sessions[j]);
  }

  /** The session is revoked, or gone with its id used up. */
  predicate Over(s: State, sid: SessionId) {
    sid in s.ids && (sid in s.db.sessions ==> s.db.sessions[sid].revoked)
  }

  lemma OverStaysOver(s: State, c: Choice, sid: SessionId)
    requires Over(s, sid)
    ensures Over(Step(s, c), sid)
  {}

  /** Revocation is final, also for a refresh that read the row before and writes it after. */
  lemma {:induction false} RevokedIsFinal(s: State, cs: seq<Choice>, sid: SessionId, token: Token, now: int)
    requires Over(s, sid)
    ensures Over(Exec(s, cs), sid)
    ensures !Grants(Exec(s, cs).db, sid, token, now) && !Refreshes(Exec(s, cs).db, sid, token, now)
  {
    if cs != [] {
      RevokedIsFinal(s, cs[..|cs| - 1], sid, token, now);
      OverStaysOver(Exec(s, cs[..|cs| - 1]), cs[|cs| - 1], sid);
    }
  }

  /** A token that was handed out and is no longer in any row. */
  predicate Spent(s: State, token: Token) {
    token in s.tokens && forall i :: i in s.db.sessions ==> s.db.sessions[i].access != token && s.db.sessions[i].refresh != token
  }

  lemma SpentStaysSpent(s: State, c: Choice, token: Token)
    requires Spent(s, token)
    ensures Spent(Step(s, c), token)
  {}

  lemma {:induction false} SpentIsFinal(s: State, cs: seq<Choice>, token: Token)
    requires Spent(s, token)
    ensures Spent(Exec(s, cs), token)
    ensures forall i, now :: !Grants(Exec(s, cs).db, i, token, now) && !Refreshes(Exec(s, cs).db, i, token, now)
  {
    if cs != [] {
      SpentIsFinal(s, cs[..|cs| - 1], token);
      SpentStaysSpent(Exec(s, cs[..|cs| - 1]), cs[|cs| - 1], token);
    }
  }

  /** A written refresh replaces both tokens: the old ones are spent, for good. */
  lemma RefreshSpendsOldTokens(clock: int, cs: seq<Choice>, s: State, c: Choice, sid: SessionId)
    requires s == Exec(Init(clock), cs) && c.WriteRefresh? && c.call in s.calls
    requires s.calls[c.call].Refreshing? && s.calls[c.call].session == sid && sid in s.db.sessions
    requires Fresh(s, c.access, c.refresh)
    ensures var t := Step(s, c);
            && Spent(t, s.db.sessions[sid].access) && Spent(t, s.db.sessions[sid].refresh)
            && t.db.sessions[sid].access == c.access && t.db.sessions[sid].refresh == c.refresh
            && t.db.sessions[sid].revoked == s.db.sessions[sid].revoked
  {
    InvAlways(clock, cs);
    var t := Step(s, c);
    assert SessionOk(s, sid);
    forall i | i in t.db.sessions && i != sid
      ensures Apart(s.db.sessions[i], s.db.sessions[sid])
    {}
  }

  /** Two refreshes that read the same session: what the first one handed out is spent once the second has written. */
  lemma LastRefreshWins(clock: int, cs: seq<Choice>, s: State, a: Choice, b: Choice, sid: SessionId, later: seq<Choice>)
    requires s == Exec(Init(clock), cs) && a.WriteRefresh? && b.WriteRefresh? && a.call != b.call
    requires a.call in s.calls && b.call in s.calls && sid in s.db.sessions
    requires s.calls[a.call].Refreshing? && s.calls[a.call].session == sid
    requires s.calls[b.call].Refreshing? && s.calls[b.call].session == sid
    requires Fresh(s, a.access, a.refresh) && Fresh(Step(s, a), b.access, b.refresh)
    ensures var t := Exec(Step(Step(s, a), b), later);
            && Spent(t, a.access) && Spent(t, a.refresh)
            && Step(Step(s, a), b).db.sessions[sid].access == b.access
  {
    OneMore(Init(clock), cs, a);
    RefreshSpendsOldTokens(clock, cs, s, a, sid);
    RefreshSpendsOldTokens(clock, cs + [a], Step(s, a), b, sid);
    SpentIsFinal(Step(Step(s, a), b), later, a.access);
    SpentIsFinal(Step(Step(s, a), b), later, a.refresh);
  }

  // ----- password reset and change -----

  /** Which sessions a claim about earlier passwords is about: those of one user, but for one that is kept. */
  predicate Concerns(s: State, user: UserId, keep: Option<SessionId>, i: SessionId) {
    i in s.db.sessions && s.db.sessions[i].user == user && Some(i) != keep
  }

  /** No live session of the user, but for the kept one, rests on a password before this one. */
  predicate OnlySince(s: State, user: UserId, epoch: nat, keep: Option<SessionId>) {
    && user in s.everUsers
    && (forall i :: i in s.db.sessions && Concerns(s, user, keep, i) && !s.db.sessions[i].revoked ==>
          s.db.sessions[i].epoch >= epoch)
  }

  /** A login has passed its check, or a registration its insert, and its session is not stored yet. */
  predicate InFlight(s: State, user: UserId, call: CallId) {
    call in s.calls && s.calls[call].Issuing? && s.calls[call].user == user
  }

  ghost predicate NoneInFlightBefore(s: State, user: UserId, epoch: nat) {
    forall call :: InFlight(s, user, call) ==> s.calls[call].epoch >= epoch
  }

  ghost predicate PasswordSince(s: State, user: UserId, epoch: nat) {
    user in s.db.users ==> s.db.users[user].epoch >= epoch
  }

  lemma SinceStays(s: State, c: Choice, user: UserId, epoch: nat, keep: Option<SessionId>)
    requires OnlySince(s, user, epoch, keep) && NoneInFlightBefore(s, user, epoch) && PasswordSince(s, user, epoch)
    ensures var t := Step(s, c);
            OnlySince(t, user, epoch, keep) && NoneInFlightBefore(t, user, epoch) && PasswordSince(t, user, epoch)
  {
    var t := Step(s, c);
    forall call | InFlight(t, user, call) ensures t.calls[call].epoch >= epoch {
      assert call in s.calls && s.calls[call] == t.calls[call] ==> InFlight(s, user, call);
    }
    SessionsStaySince(s, c, user, epoch, keep);
  }

  lemma SessionsStaySince(s: State, c: Choice, user: UserId, epoch: nat, keep: Option<SessionId>)
    requires OnlySince(s, user, epoch, keep) && NoneInFlightBefore(s, user, epoch)
    ensures OnlySince(Step(s, c), user, epoch, keep)
  {
    var t := Step(s, c);
    forall i | i in t.db.sessions && Concerns(t, user, keep, i) && !t.db.sessions[i].revoked
      ensures t.db.sessions[i].epoch >= epoch
    {
      if c.IssueSession? && i == c.sid && t != s {
        assert i in s.db.sessions && s.db.sessions[i] == t.db.sessions[i] ==> Concerns(s, user, keep, i);
        assert s.db.sessions != t.db.sessions ==> InFlight(s, user, c.call);
      } else {
        assert Concerns(s, user, keep, i);
      }
    }
  }

  lemma {:induction false} SinceAlways(s: State, cs: seq<Choice>, user: UserId, epoch: nat, keep: Option<SessionId>)
    requires OnlySince(s, user, epoch, keep) && NoneInFlightBefore(s, user, epoch) && PasswordSince(s, user, epoch)
    ensures OnlySince(Exec(s, cs), user, epoch, keep) && NoneInFlightBefore(Exec(s, cs), user, epoch)
    ensures PasswordSince(Exec(s, cs), user, epoch)
  {
    if cs != [] {
      SinceAlways(s, cs[..|cs| - 1], user, epoch, keep);
      SinceStays(Exec(s, cs[..|cs| - 1]), cs[|cs| - 1], user, epoch, keep);
    }
  }

  /** What is in flight with an earlier password stores its session later. */
  lemma InFlightIsStored(t: State, user: UserId, epoch: nat, keep: Option<SessionId>, call: CallId)
    requires user in t.db.users && InFlight(t, user, call) && t.calls[call].epoch < epoch
    ensures !AlwaysSince(t, user, epoch, keep)
  {
    var a := FreshNat(t.tokens);
    var sid := FreshNat(t.ids + (if keep.Some? then {keep.value} else {}));
    assert a !in t.tokens && a + 1 !in t.tokens && sid !in t.ids && Some(sid) != keep;
    var c := IssueSession(call, sid, a, a + 1, Life(1, 1));
    OneMore(t, [], c);
    assert [] + [c] == [c];
    StoredSession(t, c);
    assert Concerns(Step(t, c), user, keep, sid);
    assert !OnlySince(Exec(t, [c]), user, epoch, keep);
  }

  lemma StoredSession(t: State, c: Choice)
    requires c.IssueSession? && c.call in t.calls && t.calls[c.call].Issuing? && c.sid !in t.ids && Fresh(t, c.access, c.refresh)
    requires t.calls[c.call].user in t.db.users
    ensures var u := Step(t, c);
            && c.sid in u.db.sessions && !u.db.sessions[c.sid].revoked
            && u.db.sessions[c.sid].user == t.calls[c.call].user && u.db.sessions[c.sid].epoch == t.calls[c.call].epoch
            && u.db.sessions[c.sid].access == c.access && u.db.sessions[c.sid].accessExp == t.clock + c.life.access
            && u.clock == t.clock && u.db.users == t.db.users
  {}

  ghost predicate AlwaysSince(s: State, user: UserId, epoch: nat, keep: Option<SessionId>) {
    forall later :: OnlySince(Exec(s, later), user, epoch, keep)
  }

  lemma NoneInFlightMeansSince(t: State, user: UserId, epoch: nat, keep: Option<SessionId>)
    requires OnlySince(t, user, epoch, keep) && NoneInFlightBefore(t, user, epoch) && PasswordSince(t, user, epoch)
    ensures AlwaysSince(t, user, epoch, keep)
  {
    forall later ensures OnlySince(Exec(t, later), user, epoch, keep) {
      SinceAlways(t, later, user, epoch, keep);
    }
  }

  /** In a state without such sessions, there never will be any, if and only if nothing is in flight with an earlier password. */
  lemma StaysSinceExactly(t: State, user: UserId, epoch: nat, keep: Option<SessionId>)
    requires user in t.db.users && t.db.users[user].epoch >= epoch && OnlySince(t, user, epoch, keep)
    ensures AlwaysSince(t, user, epoch, keep) <==> NoneInFlightBefore(t, user, epoch)
  {
    if NoneInFlightBefore(t, user, epoch) {
      NoneInFlightMeansSince(t, user, epoch, keep);
    } else {
      var call :| InFlight(t, user, call) && t.calls[call].epoch < epoch;
      InFlightIsStored(t, user, epoch, keep, call);
    }
  }

  /**
   A confirmed reset ends every session that rests on an earlier password, for good, if and only if no login and no
   registration of that user is between its first transaction and its session at that moment.
   */
  lemma ResetEndsEarlierSessionsExactly(clock: int, cs: seq<Choice>, s: State, t: State, user: UserId)
    requires s == Exec(Init(clock), cs) && user in s.db.users && t == Step(s, Reset(user))
    ensures AlwaysSince(t, user, t.db.users[user].epoch, None) <==>
            (forall call :: !InFlight(s, user, call))
  {
    InvAlways(clock, cs);
    var epoch := t.db.users[user].epoch;
    assert user in s.everUsers;
    forall i | i in t.db.sessions && Concerns(t, user, None, i) ensures t.db.sessions[i].revoked {
      assert i in OfUser(s.db, user, None);
    }
    StaysSinceExactly(t, user, epoch, None);
    assert t.calls == s.calls && epoch == s.db.users[user].epoch + 1;
    forall call | InFlight(s, user, call) ensures s.calls[call].epoch < epoch {
      assert CallOk(s, s.calls[call]);
    }
    assert (forall call :: !InFlight(s, user, call)) <==> NoneInFlightBefore(t, user, epoch) by {
      assert forall call :: InFlight(t, user, call) <==> InFlight(s, user, call);
    }
  }

  /**
   The last transaction of a password change ends every session that rests on an earlier password but the one it keeps,
   for good, if and only if nothing is in flight that was checked against an earlier password. The kept session is left
   as it was.
   */
  lemma ChangeEndsOtherSessionsExactly(clock: int, cs: seq<Choice>, s: State, t: State, call: CallId, user: UserId, keep: Option<SessionId>)
    requires s == Exec(Init(clock), cs) && user in s.db.users
    requires call in s.calls && s.calls[call] == Changing(user, keep, true) && t == Step(s, RevokeOthers(call))
    ensures AlwaysSince(t, user, s.db.users[user].epoch, keep) <==>
            NoneInFlightBefore(s, user, s.db.users[user].epoch)
    ensures keep.Some? && keep.value in s.db.sessions ==> t.db.sessions[keep.value] == s.db.sessions[keep.value]
  {
    InvAlways(clock, cs);
    var epoch := s.db.users[user].epoch;
    assert user in s.everUsers;
    forall i | i in t.db.sessions && Concerns(t, user, keep, i) ensures t.db.sessions[i].revoked {
      assert i in OfUser(s.db, user, keep);
    }
    StaysSinceExactly(t, user, epoch, keep);
    assert forall k :: InFlight(t, user, k) <==> InFlight(s, user, k);
    assert forall k :: InFlight(s, user, k) ==> t.calls[k] == s.calls[k];
  }

  // ----- how long a session lives -----

  predicate Alive(s: State, sid: SessionId) {
    sid in s.db.sessions && !s.db.sessions[sid].revoked
  }

  /** The calls that end this session. */
  predicate Ends(s: State, c: Choice, sid: SessionId)
    requires sid in s.db.sessions
  {
    var row := s.db.sessions[sid];
    match c
    case RevokeAccess(token) => token == row.access
    case RevokeSession(user, i) => user == row.user && i == sid
    case RevokeUser(user, keep) => user == row.user && keep != Some(sid)
    case SetEnabled(user, enabled) => user == row.user && !enabled && user in s.db.users
    case Reset(user) => user == row.user
    case DeleteUser(user) => user == row.user
    case RevokeOthers(call) =>
      && call in s.calls && s.calls[call].Changing? && s.calls[call].written
      && s.calls[call].user == row.user && s.calls[call].keep != Some(sid)
    case _ => false
  }

  /** No step of this run ends the session. */
  predicate Unended(s: State, cs: seq<Choice>, sid: SessionId) {
    cs == []
    || (&& Unended(s, cs[..|cs| - 1], sid)
        && sid in Exec(s, cs[..|cs| - 1]).db.sessions && !Ends(Exec(s, cs[..|cs| - 1]), cs[|cs| - 1], sid))
  }

  lemma StepEndsExactly(s: State, c: Choice, sid: SessionId)
    requires Alive(s, sid) && sid in s.ids
    ensures Alive(Step(s, c), sid) <==> !Ends(s, c, sid)
    ensures Alive(Step(s, c), sid) ==> Step(s, c).db.sessions[sid].user == s.db.sessions[sid].user
    ensures s.ids <= Step(s, c).ids
  {
    if c.CheckLogin? || c.IssueSession? {
      LoginEndsNothing(s, c, sid);
    } else if c.CheckRefresh? || c.WriteRefresh? {
      RefreshEndsNothing(s, c, sid);
    }
  }

  lemma LoginEndsNothing(s: State, c: Choice, sid: SessionId)
    requires Alive(s, sid) && sid in s.ids && (c.CheckLogin? || c.IssueSession?)
    ensures var t := StepLogin(s, c); sid in t.db.sessions && t.db.sessions[sid] == s.db.sessions[sid] && s.ids <= t.ids
  {}

  lemma RefreshEndsNothing(s: State, c: Choice, sid: SessionId)
    requires Alive(s, sid) && (c.CheckRefresh? || c.WriteRefresh?)
    ensures var t := StepRefresh(s, c);
            Alive(t, sid) && t.db.sessions[sid].user == s.db.sessions[sid].user && s.ids == t.ids
  {}

  /** In every run a session lives until the first call that ends it, and no longer. */
  lemma {:induction false} SessionLivesExactly(s: State, cs: seq<Choice>, sid: SessionId)
    requires Alive(s, sid) && sid in s.ids
    ensures Alive(Exec(s, cs), sid) <==> Unended(s, cs, sid)
    ensures sid in Exec(s, cs).ids
  {
    if cs != [] {
      var t, c := Exec(s, cs[..|cs| - 1]), cs[|cs| - 1];
      SessionLivesExactly(s, cs[..|cs| - 1], sid);
      if Alive(t, sid) {
        StepEndsExactly(t, c, sid);
      } else {
        OverStaysOver(t, c, sid);
      }
    }
  }

  /** No refresh of this session is written in this run. */
  predicate Unrefreshed(s: State, cs: seq<Choice>, sid: SessionId) {
    cs == []
    || (&& Unrefreshed(s, cs[..|cs| - 1], sid)
        && var t, c := Exec(s, cs[..|cs| - 1]), cs[|cs| - 1];
           !(c.WriteRefresh? && c.call in t.calls && t.calls[c.call].Refreshing? && t.calls[c.call].session == sid))
  }

  /** The session is as it was, and its user is enabled if it was. */
  predicate AsBefore(s: State, t: State, sid: SessionId)
    requires sid in s.db.sessions
  {
    && sid in t.ids && sid in t.db.sessions && t.db.sessions[sid] == s.db.sessions[sid]
    && (Enabled(s.db, s.db.sessions[sid].user) ==> Enabled(t.db, s.db.sessions[sid].user))
  }

  lemma StepKeepsSession(s: State, c: Choice, sid: SessionId)
    requires Alive(s, sid) && sid in s.ids && !Ends(s, c, sid) && s.db.sessions[sid].user in s.everUsers
    requires !(c.WriteRefresh? && c.call in s.calls && s.calls[c.call].Refreshing? && s.calls[c.call].session == sid)
    ensures AsBefore(s, Step(s, c), sid) && s.everUsers <= Step(s, c).everUsers
  {
    if c.CheckLogin? || c.IssueSession? {
      LoginEndsNothing(s, c, sid);
    }
  }

  lemma {:induction false} RunKeepsSession(s: State, cs: seq<Choice>, sid: SessionId)
    requires Alive(s, sid) && sid in s.ids && s.db.sessions[sid].user in s.everUsers
    requires Unended(s, cs, sid) && Unrefreshed(s, cs, sid)
    ensures AsBefore(s, Exec(s, cs), sid) && s.everUsers <= Exec(s, cs).everUsers
  {
    if cs != [] {
      RunKeepsSession(s, cs[..|cs| - 1], sid);
      StepKeepsSession(Exec(s, cs[..|cs| - 1]), cs[|cs| - 1], sid);
    }
  }

  /**
   The first transaction of a password change ends nothing: from then on, in every interleaving, each earlier session
   lives until a call that ends it, such as the second transaction; and its tokens are good for what they were good
   for before, until they are refreshed.
   */
  lemma NewPasswordEndsNothing(clock: int, cs: seq<Choice>, s: State, call: CallId, later: seq<Choice>, sid: SessionId)
    requires s == Exec(Init(clock), cs) && Alive(s, sid) && Enabled(s.db, s.db.sessions[sid].user)
    requires call in s.calls && s.calls[call].Changing? && !s.calls[call].written
    ensures var t := Step(s, WriteChange(call));
            var u := Exec(t, later);
            && (Alive(u, sid) <==> Unended(t, later, sid))
            && (Unended(t, later, sid) && Unrefreshed(t, later, sid) ==>
                  forall token, now ::
                    && (Grants(u.db, sid, token, now) <==> Grants(s.db, sid, token, now))
                    && (Refreshes(u.db, sid, token, now) <==> Refreshes(s.db, sid, token, now)))
  {
    InvAlways(clock, cs);
    assert SessionOk(s, sid);
    var t := Step(s, WriteChange(call));
    SessionLivesExactly(t, later, sid);
    if Unended(t, later, sid) && Unrefreshed(t, later, sid) {
      RunKeepsSession(t, later, sid);
    }
  }

  // ----- disabling -----

  /** While a user is disabled nothing is granted; what was live then stays over after the user is enabled again. */
  lemma DisablingEndsSessions(clock: int, cs: seq<Choice>, s: State, user: UserId, later: seq<Choice>, sid: SessionId)
    requires s == Exec(Init(clock), cs) && sid in s.db.sessions && s.db.sessions[sid].user == user
    ensures var t := Step(s, SetEnabled(user, false));
            && (forall i, token, now :: i in t.db.sessions && t.db.sessions[i].user == user ==>
                  !Grants(t.db, i, token, now) && !Refreshes(t.db, i, token, now))
            && Over(Exec(t, later), sid)
  {
    InvAlways(clock, cs);
    assert SessionOk(s, sid);
    RevokedIsFinal(Step(s, SetEnabled(user, false)), later, sid, 0, 0);
  }

  /** Nobody logs in as this user. */
  predicate NoLogin(cs: seq<Choice>, user: UserId) {
    forall i :: 0 <= i < |cs| ==> !(cs[i].CheckLogin? && cs[i].user == user)
  }

  /** Some token is good for this user now. */
  ghost predicate Served(s: State, user: UserId) {
    exists i, token ::
      && i in s.db.sessions && s.db.sessions[i].user == user
      && (Grants(s.db, i, token, s.clock) || Refreshes(s.db, i, token, s.clock))
  }

  /** Without a new login the user is served by no session, whatever else happens. */
  ghost predicate ShutOut(s: State, user: UserId) {
    forall later :: NoLogin(later, user) ==> !Served(Exec(s, later), user)
  }

  ghost predicate NoneLives(s: State, user: UserId) {
    && user in s.everUsers
    && (forall i :: i in s.db.sessions && s.db.sessions[i].user == user ==> s.db.sessions[i].revoked)
    && forall call :: !InFlight(s, user, call)
  }

  lemma NoneLivesStays(s: State, c: Choice, user: UserId)
    requires NoneLives(s, user) && !(c.CheckLogin? && c.user == user)
    ensures NoneLives(Step(s, c), user)
  {
    var t := Step(s, c);
    forall call | InFlight(t, user, call) ensures false {
      assert InFlight(s, user, call);
    }
    if c.IssueSession? {
      assert !InFlight(s, user, c.call);
    }
  }

  lemma {:induction false} NoneLivesAlways(s: State, later: seq<Choice>, user: UserId)
    requires NoneLives(s, user) && NoLogin(later, user)
    ensures NoneLives(Exec(s, later), user)
  {
    if later != [] {
      var before := later[..|later| - 1];
      assert forall i :: 0 <= i < |before| ==> before[i] == later[i];
      NoneLivesAlways(s, before, user);
      NoneLivesStays(Exec(s, before), later[|later| - 1], user);
    }
  }

  lemma NoneLivesMeansShutOut(s: State, user: UserId)
    requires NoneLives(s, user)
    ensures ShutOut(s, user)
  {
    forall later | NoLogin(later, user) ensures !Served(Exec(s, later), user) {
      NoneLivesAlways(s, later, user);
    }
  }

  /** What is in flight stores its session under the disabled user, and enabling the user makes it good. */
  lemma InFlightIsServed(t: State, user: UserId, call: CallId)
    requires user in t.db.users && InFlight(t, user, call)
    ensures !ShutOut(t, user)
  {
    var a := FreshNat(t.tokens);
    var sid := FreshNat(t.ids);
    assert a !in t.tokens && a + 1 !in t.tokens && sid !in t.ids;
    var c, on := IssueSession(call, sid, a, a + 1, Life(1, 1)), SetEnabled(user, true);
    OneMore(t, [], c);
    OneMore(t, [c], on);
    assert [] + [c] == [c] && [c] + [on] == [c, on];
    StoredSession(t, c);
    var u := Exec(t, [c, on]);
    assert u == Step(Step(t, c), on);
    assert u.db.sessions == Step(t, c).db.sessions;
    assert Grants(u.db, sid, a, u.clock);
    assert Served(u, user) && NoLogin([c, on], user);
  }

  /**
   A disabled user is served by no session until the next login, whatever happens and even when enabled again, if and
   only if no login and no registration of that user is between its first transaction and its session at that moment.
   */
  lemma DisablingShutsOutExactly(clock: int, cs: seq<Choice>, s: State, user: UserId)
    requires s == Exec(Init(clock), cs) && user in s.db.users
    ensures ShutOut(Step(s, SetEnabled(user, false)), user) <==> forall call :: !InFlight(s, user, call)
  {
    InvAlways(clock, cs);
    var t := Step(s, SetEnabled(user, false));
    assert t.calls == s.calls;
    forall i | i in t.db.sessions && t.db.sessions[i].user == user ensures t.db.sessions[i].revoked {
      assert i in OfUser(s.db, user, None);
    }
    if call :| InFlight(s, user, call) {
      InFlightIsServed(t, user, call);
    } else {
      assert forall call :: InFlight(t, user, call) <==> InFlight(s, user, call);
      NoneLivesMeansShutOut(t, user);
    }
  }

  // ----- the store -----

  class CentralAuthSessions {
    var users: map<UserId, User>
    var sessions: Sessions

    constructor ()
      ensures View() == Db(map[], map[])
    {
      users, sessions := map[], map[];
    }

    ghost function View(): Db
      reads this
    {
      Db(users, sessions)
    }

    /** `authenticate_access`. */
    method AuthenticateAccess(token: Token, now: int) returns (sid: Option<SessionId>)
      ensures sid.Some? ==> Grants(View(), sid.value, token, now)
      ensures sid.None? ==> forall i :: !Grants(View(), i, token, now)
    {
      if i :| i in sessions && sessions[i].access == token && !sessions[i].revoked && sessions[i].accessExp > now
              && sessions[i].user in users && users[sessions[i].user].enabled {
        return Some(i);
      }
      return None;
    }

    /** The read of `refresh`. */
    method FindRefresh(token: Token, now: int) returns (sid: Option<SessionId>)
      ensures sid.Some? ==> Refreshes(View(), sid.value, token, now)
      ensures sid.None? ==> forall i :: !Refreshes(View(), i, token, now)
    {
      if i :| i in sessions && sessions[i].refresh == token && !sessions[i].revoked && sessions[i].refreshExp > now
              && sessions[i].user in users && users[sessions[i].user].enabled {
        return Some(i);
      }
      return None;
    }

    /** The write of `refresh`. */
    method StoreRefresh(sid: SessionId, access: Token, refresh: Token, accessExp: int, refreshExp: int)
      modifies this
      ensures View() == Refreshed(old(View()), sid, access, refresh, accessExp, refreshExp)
    {
      if sid in sessions {
        sessions := sessions[sid := sessions[sid].(
                              access := access, refresh := refresh, accessExp := accessExp, refreshExp := refreshExp)];
      }
    }

    /** `_issue_session`. */
    method IssueSession(sid: SessionId, row: Session) returns (stored: bool)
      modifies this
      ensures stored == (row.user in old(users)) && View() == Issued(old(View()), sid, row)
    {
      stored := row.user in users;
      if stored {
        sessions := sessions[sid := row];
      }
    }

    method RevokeAccess(token: Token)
      modifies this
      ensures View() == Revoked(old(View()), WithAccess(old(View()), token))
    {
      sessions := map i | i in sessions ::
        if sessions[i].access == token then sessions[i].(revoked := true) else sessions[i];
    }

    /** `revoke_user_sessions`: how many live sessions were ended. */
    method RevokeUserSessions(user: UserId, keep: Option<SessionId>) returns (count: nat)
      modifies this
      ensures View() == Revoked(old(View()), OfUser(old(View()), user, keep))
      ensures count == |set i | i in OfUser(old(View()), user, keep) && !old(sessions)[i].revoked|
    {
      ghost var db := View();
      var live := set i | i in sessions && sessions[i].user == user && Some(i) != keep && !sessions[i].revoked;
      assert live == set i | i in OfUser(db, user, keep) && !db.sessions[i].revoked;
      count := |live|;
      sessions := map i | i in sessions :: if i in live then sessions[i].(revoked := true) else sessions[i];
      assert sessions == Revoked(db, OfUser(db, user, keep)).sessions;
    }

    method RevokeSession(user: UserId, sid: SessionId) returns (revoked: bool)
      modifies this
      ensures revoked == (sid in old(sessions) && old(sessions)[sid].user == user && !old(sessions)[sid].revoked)
      ensures View() == if revoked then Revoked(old(View()), {sid}) else old(View())
    {
      ghost var db := View();
      revoked := sid in sessions && sessions[sid].user == user && !sessions[sid].revoked;
      if revoked {
        sessions := sessions[sid := sessions[sid].(revoked := true)];
        assert sessions == Revoked(db, {sid}).sessions;
      }
    }

    method SetUserEnabled(user: UserId, enabled: bool) returns (found: bool)
      modifies this
      ensures found == (user in old(users)) && View() == EnabledSet(old(View()), user, enabled)
    {
      found := user in users;
      if found {
        users := users[user := users[user].(enabled := enabled)];
        if !enabled {
          var _ := RevokeUserSessions(user, None);
        }
      }
    }

    /** The last transaction of `confirm_password_reset`. */
    method ConfirmReset(user: UserId)
      modifies this
      ensures View() == PasswordReset(old(View()), user)
    {
      if user in users {
        users := users[user := users[user].(epoch := users[user].epoch + 1)];
      }
      var _ := RevokeUserSessions(user, None);
    }
  }
}
