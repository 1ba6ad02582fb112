/**
 The end of a Host session: `codex_interaction_scope` of `server/app/codex_interaction_install.py`. A creation runs in a
 thread; when its await is cancelled the thread goes on and may commit at any time, also after the scope has exited.
 */
module InteractionScope {
  import opened Common
  import opened Utf8
  import opened Interactions
  import opened InteractionRuns

  /** The broker of one Host session; its id is fresh and its interactions belong to one owner. */
  datatype Broker = Broker(owner: string, host: string)

  /** `flying` are the creations of this session that have not reached the table yet. */
  datatype Session = Session(db: Db, flying: map<nat, Request>, exited: bool)

  datatype Move =
    | Launch(k: nat, request: Request)
    | Land(k: nat)
    | Act(step: Step)
    | Exit(reason: string)

  predicate OfSession(b: Broker, q: Request) {
    q.owner == b.owner && q.host == b.host
  }

  /** Creations of this session go through its broker, which is gone after the exit; anybody may do anything else. */
  function Moved(b: Broker, w: Session, m: Move): Session {
    match m
    case Launch(k, q) =>
      if !w.exited && k !in w.flying && OfSession(b, q) && !q.method_.Unsupported? then w.(flying := w.flying[k := q]) else w
    case Land(k) => if k in w.flying then w.(db := CreateSpec(w.db, w.flying[k]).0, flying := w.flying - {k}) else w
    case Act(s) => if s.Create? && s.request.host == b.host then w else w.(db := Next(w.db, s))
    case Exit(reason) =>
      if w.exited then w else w.(db := InterruptHostSpec(w.db, b.owner, b.host, reason), exited := true)
  }

  function Exec(b: Broker, w: Session, ms: seq<Move>): Session {
    if ms == [] then w else Moved(b, Exec(b, w, ms[..|ms| - 1]), ms[|ms| - 1])
  }

  function Init(): Session {
    Session(Db(map[], 0), map[], false)
  }

  lemma OneMore(b: Broker, w: Session, ms: seq<Move>, m: Move)
    ensures Exec(b, w, ms + [m]) == Moved(b, Exec(b, w, ms), m)
  {
    assert (ms + [m])[..|ms|] == ms;
  }

  // ----- who owns the rows of a session -----

  ghost predicate Inv(b: Broker, w: Session) {
    && (forall id :: id in w.db.rows && w.db.rows[id].host == b.host ==> w.db.rows[id].owner == b.owner)
    && (forall k :: k in w.flying ==> OfSession(b, w.flying[k]))
  }

  lemma MoveKeeps(b: Broker, w: Session, m: Move)
    requires Inv(b, w)
    ensures Inv(b, Moved(b, w, m))
  {}

  lemma {:induction false} InvAlways(b: Broker, ms: seq<Move>)
    ensures Inv(b, Exec(b, Init(), ms))
  {
    if ms != [] {
      InvAlways(b, ms[..|ms| - 1]);
      MoveKeeps(b, Exec(b, Init(), ms[..|ms| - 1]), ms[|ms| - 1]);
    }
  }

  // ----- when a session is over -----

  /** No row of the session is pending or answered. */
  ghost predicate Closed(b: Broker, w: Session) {
    forall id :: id in w.db.rows && w.db.rows[id].host == b.host ==> !w.db.rows[id].state.Open()
  }

  ghost predicate AlwaysClosed(b: Broker, w: Session) {
    forall later :: Closed(b, Exec(b, w, later))
  }

  /** A creation that its own checks let through. */
  predicate Acceptable(q: Request) {
    !q.method_.Unsupported? && ByteLen(q.json) <= MAX_JSON && RpcKey(q.rpc).Ok?
  }

  predicate NoneInFlight(w: Session) {
    forall k :: k in w.flying ==> !Acceptable(w.flying[k])
  }

  lemma ClosedStays(b: Broker, w: Session, m: Move)
    requires w.exited && Closed(b, w) && NoneInFlight(w)
    ensures var t := Moved(b, w, m); t.exited && Closed(b, t) && NoneInFlight(t)
  {}

  lemma {:induction false} ClosedForGood(b: Broker, w: Session, later: seq<Move>)
    requires w.exited && Closed(b, w) && NoneInFlight(w)
    ensures var t := Exec(b, w, later); t.exited && Closed(b, t) && NoneInFlight(t)
  {
    if later != [] {
      ClosedForGood(b, w, later[..|later| - 1]);
      ClosedStays(b, Exec(b, w, later[..|later| - 1]), later[|later| - 1]);
    }
  }

  lemma ClosedMeansAlways(b: Broker, w: Session)
    requires w.exited && Closed(b, w) && NoneInFlight(w)
    ensures AlwaysClosed(b, w)
  {
    forall later ensures Closed(b, Exec(b, w, later)) {
      ClosedForGood(b, w, later);
    }
  }

  /** An acceptable creation whose key no row of its session has. */
  lemma LandedIsPending(b: Broker, w: Session, k: nat)
    requires k in w.flying && OfSession(b, w.flying[k]) && Acceptable(w.flying[k])
    requires forall id :: id in w.db.rows ==> w.db.rows[id].host != b.host
    ensures var t := Moved(b, w, Land(k));
            && w.db.issued in t.db.rows && t.db.rows[w.db.issued].host == b.host
            && t.db.rows[w.db.issued].owner == b.owner && t.db.rows[w.db.issued].state.Pending?
    ensures !Closed(b, Moved(b, w, Land(k)))
  {
    assert w.db.issued in Moved(b, w, Land(k)).db.rows;
  }

  /** Whatever the session has stored, its owner may erase it, and then the creation lands. */
  lemma FlyingReopens(b: Broker, w: Session, k: nat)
    requires Inv(b, w) && k in w.flying && Acceptable(w.flying[k])
    ensures !AlwaysClosed(b, w)
  {
    var erase := Act(DeleteOwner(b.owner));
    var m := Moved(b, w, erase);
    OneMore(b, w, [], erase);
    OneMore(b, w, [] + [erase], Land(k));
    LandedIsPending(b, m, k);
    assert !Closed(b, Exec(b, w, [] + [erase] + [Land(k)]));
  }

  /**
   In every reachable state after the exit: the session stays closed, whatever anybody does, if and only if it is closed
   and no creation of it that its own checks let through is still in flight.
   */
  lemma SessionIsOverExactly(b: Broker, ms: seq<Move>, w: Session)
    requires w == Exec(b, Init(), ms) && w.exited
    ensures AlwaysClosed(b, w) <==> Closed(b, w) && NoneInFlight(w)
  {
    InvAlways(b, ms);
    if Closed(b, w) && NoneInFlight(w) {
      ClosedMeansAlways(b, w);
    } else if !Closed(b, w) {
      assert Exec(b, w, []) == w;
    } else {
      var k :| k in w.flying && Acceptable(w.flying[k]);
      FlyingReopens(b, w, k);
    }
  }

  /**
   The exit of the scope leaves no row of its session pending or answered, in every run. They stay closed, whatever
   anybody does, if and only if no acceptable creation of the session is in flight at the exit.
   */
  lemma ScopeExitClosesSessionExactly(b: Broker, ms: seq<Move>, w: Session, reason: string)
    requires w == Exec(b, Init(), ms) && !w.exited
    ensures var t := Moved(b, w, Exit(reason));
            Closed(b, t) && (AlwaysClosed(b, t) <==> NoneInFlight(w))
  {
    InvAlways(b, ms);
    OneMore(b, Init(), ms, Exit(reason));
    SessionIsOverExactly(b, ms + [Exit(reason)], Moved(b, w, Exit(reason)));
  }

  /** No open row of the session has a thread that still runs. */
  predicate NoLiveThread(b: Broker, w: Session, live: set<string>) {
    forall id :: id in w.db.rows && w.db.rows[id].host == b.host && w.db.rows[id].state.Open() ==>
      w.db.rows[id].thread == "" || w.db.rows[id].thread !in live
  }

  /** A sweep of orphans ends what landed late, for good, if and only if none of it has a live thread and nothing flies. */
  lemma SweepClosesSessionExactly(b: Broker, ms: seq<Move>, w: Session, live: set<string>)
    requires w == Exec(b, Init(), ms) && w.exited
    ensures AlwaysClosed(b, Moved(b, w, Act(InterruptOrphans(b.owner, live)))) <==> NoLiveThread(b, w, live) && NoneInFlight(w)
  {
    var sweep := Act(InterruptOrphans(b.owner, live));
    var t := Moved(b, w, sweep);
    InvAlways(b, ms);
    OneMore(b, Init(), ms, sweep);
    SessionIsOverExactly(b, ms + [sweep], t);
    assert t.db.rows.Keys == w.db.rows.Keys;
    if !NoLiveThread(b, w, live) {
      var id :| id in w.db.rows && w.db.rows[id].host == b.host && w.db.rows[id].state.Open()
                && w.db.rows[id].thread != "" && w.db.rows[id].thread in live;
      assert t.db.rows[id] == w.db.rows[id];
    }
  }

  // ----- a run that leaves a row behind -----

  /** The creation is in flight at the exit and lands after it. */
  function LateRun(q: Request, reason: string): seq<Move> {
    [] + [Launch(0, q)] + [Exit(reason)] + [Land(0)]
  }

  /** It happens, for every acceptable creation: the ended session has a pending row, and an answer to it stays sealed there. */
  lemma LateCreationOutlivesScope(q: Request, reason: string, response: string, key: nat, now: int)
    requires Acceptable(q) && ByteLen(response) <= MAX_JSON
    ensures var b := Broker(q.owner, q.host);
            var t := Exec(b, Init(), LateRun(q, reason));
            var u := Moved(b, t, Act(Submit(q.owner, 0, response, "", key, now)));
            && t.exited && 0 in t.db.rows && t.db.rows[0].host == q.host && t.db.rows[0].state.Pending?
            && 0 in u.db.rows && u.db.rows[0].state.Answered? && u.db.rows[0].token == Sealed(key, response)
  {
    var b := Broker(q.owner, q.host);
    OneMore(b, Init(), [], Launch(0, q));
    OneMore(b, Init(), [] + [Launch(0, q)], Exit(reason));
    OneMore(b, Init(), [] + [Launch(0, q)] + [Exit(reason)], Land(0));
    var w := Exec(b, Init(), [] + [Launch(0, q)] + [Exit(reason)]);
    assert w.flying == map[0 := q] && w.exited;
    assert w.db.rows == map[] && w.db.issued == 0;
    LandedIsPending(b, w, 0);
    assert ByteLen("") == 0;
  }
}
