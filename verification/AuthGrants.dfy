/**
 What a token is good for, told from the calls of a run (`server/app/central_auth.py`): the last tokens written for a
 session, whether anything ended it, and the last word on its user.
 */
module AuthGrants {
  import opened Common
  import opened AuthSessions

  /** The tokens of a session as they were written last, with their ends. */
  datatype Written = Written(user: UserId, access: Token, refresh: Token, accessExp: int, refreshExp: int)

  /** The step stores this session. */
  predicate Issues(s: State, c: Choice, sid: SessionId) {
    && c.IssueSession? && c.sid == sid && sid !in s.ids && Fresh(s, c.access, c.refresh)
    && c.call in s.calls && s.calls[c.call].Issuing? && s.calls[c.call].user in s.db.users
  }

  /** The step replaces the tokens of this session. */
  predicate Rotates(s: State, c: Choice, sid: SessionId) {
    && c.WriteRefresh? && Fresh(s, c.access, c.refresh) && sid in s.db.sessions
    && c.call in s.calls && s.calls[c.call].Refreshing? && s.calls[c.call].session == sid
  }

  function LastWritten(clock: int, cs: seq<Choice>, sid: SessionId): Option<Written> {
    if cs == [] then None
    else
      var s, c := Exec(Init(clock), cs[..|cs| - 1]), cs[|cs| - 1];
      var before := LastWritten(clock, cs[..|cs| - 1], sid);
      if Issues(s, c, sid) then
        Some(Written(s.calls[c.call].user, c.access, c.refresh, s.clock + c.life.access, s.clock + c.life.refresh))
      else if Rotates(s, c, sid) && before.Some? then
        // counted from the moment the old token was checked
        Some(Written(before.value.user, c.access, c.refresh, s.calls[c.call].at + c.life.access, s.calls[c.call].at + c.life.refresh))
      else before
  }

  /** Stored, and not ended by any call since. */
  predicate StillOpen(clock: int, cs: seq<Choice>, sid: SessionId) {
    cs != []
    && var s, c := Exec(Init(clock), cs[..|cs| - 1]), cs[|cs| - 1];
       Issues(s, c, sid) || (StillOpen(clock, cs[..|cs| - 1], sid) && sid in s.db.sessions && !Ends(s, c, sid))
  }

  /** The last word on a user: registered or enabled, disabled, or not there. */
  function LastWord(clock: int, cs: seq<Choice>, user: UserId): Option<bool> {
    if cs == [] then None
    else
      var s, c := Exec(Init(clock), cs[..|cs| - 1]), cs[|cs| - 1];
      var before := LastWord(clock, cs[..|cs| - 1], user);
      match c
      case Register(call, u) => if u == user && u !in s.everUsers && call !in s.calls then Some(true) else before
      case SetEnabled(u, enabled) => if u == user && before.Some? then Some(enabled) else before
      case DeleteUser(u) => if u == user then None else before
      case _ => before
  }

  function Fields(row: Session): Written {
    Written(row.user, row.access, row.refresh, row.accessExp, row.refreshExp)
  }

  // ----- the rows -----

  lemma WordStep(s: State, c: Choice, user: UserId, before: Option<bool>)
    requires before == if user in s.db.users then Some(s.db.users[user].enabled) else None
    ensures var t := Step(s, c);
            (if user in t.db.users then Some(t.db.users[user].enabled) else None)
            == match c
               case Register(call, u) => if u == user && u !in s.everUsers && call !in s.calls then Some(true) else before
               case SetEnabled(u, enabled) => if u == user && before.Some? then Some(enabled) else before
               case DeleteUser(u) => if u == user then None else before
               case _ => before
  {}

  lemma {:induction false} WordIsKept(clock: int, cs: seq<Choice>, user: UserId)
    ensures var db := Exec(Init(clock), cs).db;
            LastWord(clock, cs, user) == if user in db.users then Some(db.users[user].enabled) else None
  {
    if cs != [] {
      WordIsKept(clock, cs[..|cs| - 1], user);
      WordStep(Exec(Init(clock), cs[..|cs| - 1]), cs[|cs| - 1], user, LastWord(clock, cs[..|cs| - 1], user));
    }
  }

  lemma RowStep(s: State, c: Choice, sid: SessionId)
    requires Inv(s) && sid in Step(s, c).db.sessions
    ensures var row := Step(s, c).db.sessions[sid];
            if Issues(s, c, sid) then
              && Fields(row) == Written(s.calls[c.call].user, c.access, c.refresh, s.clock + c.life.access, s.clock + c.life.refresh)
              && !row.revoked
            else
              && sid in s.db.sessions
              && Fields(row) == (if Rotates(s, c, sid)
                                 then Written(s.db.sessions[sid].user, c.access, c.refresh,
                                              s.calls[c.call].at + c.life.access, s.calls[c.call].at + c.life.refresh)
                                 else Fields(s.db.sessions[sid]))
  {
    assert sid in s.db.sessions ==> SessionOk(s, sid);
  }

  lemma {:induction false} RowIsWritten(clock: int, cs: seq<Choice>, sid: SessionId)
    requires sid in Exec(Init(clock), cs).db.sessions
    ensures LastWritten(clock, cs, sid) == Some(Fields(Exec(Init(clock), cs).db.sessions[sid]))
  {
    if cs != [] {
      var front, c := cs[..|cs| - 1], cs[|cs| - 1];
      InvAlways(clock, front);
      RowStep(Exec(Init(clock), front), c, sid);
      if !Issues(Exec(Init(clock), front), c, sid) {
        RowIsWritten(clock, front, sid);
      }
    }
  }

  lemma {:induction false} OpenMeansAlive(clock: int, cs: seq<Choice>, sid: SessionId)
    ensures StillOpen(clock, cs, sid) <==> Alive(Exec(Init(clock), cs), sid)
  {
    if cs != [] {
      var front, c := cs[..|cs| - 1], cs[|cs| - 1];
      var s := Exec(Init(clock), front);
      InvAlways(clock, front);
      OpenMeansAlive(clock, front, sid);
      if Issues(s, c, sid) {
        StoredSession(s, c);
      } else if Alive(s, sid) {
        assert SessionOk(s, sid);
        StepEndsExactly(s, c, sid);
      } else if sid in s.db.sessions {
        assert SessionOk(s, sid);
        OverStaysOver(s, c, sid);
      } else if Alive(Step(s, c), sid) {
        RowStep(s, c, sid);
      }
    }
  }

  /**
   What a token is good for after any run of any calls. It is an access token of a session exactly when it is the access
   token written last for it, that token's time has not passed, no call ended the session, and the last word on its user
   is that it is enabled; the same for refresh tokens.
   */
  lemma TokenIsGoodExactly(clock: int, cs: seq<Choice>, sid: SessionId, token: Token, now: int)
    ensures var db, w := Exec(Init(clock), cs).db, LastWritten(clock, cs, sid);
            var open := StillOpen(clock, cs, sid) && w.Some? && LastWord(clock, cs, w.value.user) == Some(true);
            && (Grants(db, sid, token, now) <==> open && w.value.access == token && now < w.value.accessExp)
            && (Refreshes(db, sid, token, now) <==> open && w.value.refresh == token && now < w.value.refreshExp)
  {
    OpenMeansAlive(clock, cs, sid);
    if sid in Exec(Init(clock), cs).db.sessions {
      RowIsWritten(clock, cs, sid);
      WordIsKept(clock, cs, Exec(Init(clock), cs).db.sessions[sid].user);
    }
  }
}
