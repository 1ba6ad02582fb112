/**
 Threads, turns and the control queue of `server/app/codex_host_store.py`, with the repairs of
 `server/app/codex_host_guard.py`. Every operation is one transaction.
 */
module HostStore {
  import opened Common

  type OwnerId = nat
  type ThreadId = nat
  type TurnId = nat

  datatype Action = Steer | Compact

  datatype ControlState = Pending | Processing | Succeeded | Failed | Rejected {
    predicate Open() {
      Pending? || Processing?
    }
  }

  datatype Control = Control(owner: OwnerId, thread: ThreadId, action: Action, state: ControlState, error: string, result: string)

  datatype TurnStatus = InProgress | TurnCompleted | TurnInterrupted | TurnFailed

  datatype Turn = Turn(owner: OwnerId, status: TurnStatus, error: string)

  datatype ThreadStatus = Ready | Running | Compacting | Idle | ThreadFailed | Interrupted

  datatype Thread = Thread(owner: OwnerId, status: ThreadStatus, current: Option<TurnId>, lastCompleted: Option<TurnId>)

  datatype TurnKey = TurnKey(thread: ThreadId, turn: TurnId)

  datatype HostDb = HostDb(
    threads: map<ThreadId, Thread>, turns: map<TurnKey, Turn>, controls: map<nat, Control>, nextId: nat)

  datatype HostError = ThreadMissing | TurnMissing | ControlMissing | OwnerMismatch | NotTerminal | StillActive

  const MAX_CLAIM := 50

  // ----- operations -----

  function PutThread(db: HostDb, owner: OwnerId, thread: ThreadId, status: ThreadStatus): Result<HostDb, HostError> {
    if thread in db.threads then
      if db.threads[thread].owner != owner then Err(OwnerMismatch)
      else Ok(db.(threads := db.threads[thread := db.threads[thread].(status := status)]))
    else Ok(db.(threads := db.threads[thread := Thread(owner, status, None, None)]))
  }

  predicate Owned(db: HostDb, owner: OwnerId, thread: ThreadId) {
    thread in db.threads && db.threads[thread].owner == owner
  }

  function StartTurn(db: HostDb, owner: OwnerId, thread: ThreadId, turn: TurnId): Result<HostDb, HostError> {
    if !Owned(db, owner, thread) then Err(ThreadMissing)
    else
      var key := TurnKey(thread, turn);
      var row := if key in db.turns then db.turns[key].(status := InProgress) else Turn(owner, InProgress, "");
      Ok(db.(turns := db.turns[key := row],
             threads := db.threads[thread := db.threads[thread].(status := Running, current := Some(turn))]))
  }

  function ThreadAfter(status: TurnStatus): ThreadStatus {
    if status.TurnCompleted? then Idle else if status.TurnInterrupted? then Interrupted else ThreadFailed
  }

  function CompleteTurn(db: HostDb, owner: OwnerId, thread: ThreadId, turn: TurnId, status: TurnStatus, error: string)
    : Result<HostDb, HostError>
  {
    var key := TurnKey(thread, turn);
    if key !in db.turns || db.turns[key].owner != owner then Err(TurnMissing)
    else
      var db1 := db.(turns := db.turns[key := Turn(owner, status, error)]);
      Ok(if Owned(db, owner, thread)
         then db1.(threads := db.threads[thread := Thread(owner, ThreadAfter(status), None, Some(turn))]) else db1)
  }

  function Enqueue(db: HostDb, owner: OwnerId, thread: ThreadId, action: Action): Result<HostDb, HostError> {
    if !Owned(db, owner, thread) then Err(ThreadMissing)
    else Ok(db.(controls := db.controls[db.nextId := Control(owner, thread, action, Pending, "", "")], nextId := db.nextId + 1))
  }

  /** Which controls a claim is about. */
  datatype Filter = Filter(owner: OwnerId, thread: ThreadId, actions: set<Action>)

  predicate Matches(db: HostDb, f: Filter, id: nat) {
    && id in db.controls && db.controls[id].state.Pending?
    && db.controls[id].owner == f.owner && db.controls[id].thread == f.thread && db.controls[id].action in f.actions
  }

  /** The `limit` smallest matching ids, in order. */
  function FirstMatches(db: HostDb, f: Filter, start: nat, limit: nat): seq<nat>
    decreases db.nextId - start
  {
    if limit == 0 || start >= db.nextId then []
    else if Matches(db, f, start) then [start] + FirstMatches(db, f, start + 1, limit - 1)
    else FirstMatches(db, f, start + 1, limit)
  }

  function ClaimLimit(limit: int): nat {
    Max(1, Min(limit, MAX_CLAIM))
  }

  function ClaimedIds(db: HostDb, f: Filter, limit: int): seq<nat> {
    FirstMatches(db, f, 0, ClaimLimit(limit))
  }

  function MarkProcessing(db: HostDb, ids: seq<nat>): HostDb {
    db.(controls := map i | i in db.controls :: if i in ids then db.controls[i].(state := Processing) else db.controls[i])
  }

  function Claim(db: HostDb, f: Filter, limit: int): HostDb {
    MarkProcessing(db, ClaimedIds(db, f, limit))
  }

  /** The terminal write looks at neither the state nor the claimant. */
  function Finish(db: HostDb, owner: OwnerId, id: nat, state: ControlState, result: string, error: string)
    : Result<HostDb, HostError>
  {
    if state.Open() then Err(NotTerminal)
    else if id !in db.controls || db.controls[id].owner != owner then Err(ControlMissing)
    else Ok(db.(controls := db.controls[id := db.controls[id].(state := state, result := result, error := error)]))
  }

  predicate OpenOn(db: HostDb, owner: OwnerId, thread: ThreadId, id: nat) {
    id in db.controls && db.controls[id].state.Open() && db.controls[id].owner == owner && db.controls[id].thread == thread
  }

  function FirstError(present: string, reason: string): string {
    if present == "" then reason else present
  }

  predicate BusyThread(t: Thread) {
    t.status.Running? || t.status.Compacting?
  }

  predicate LiveTurn(db: HostDb, owner: OwnerId, key: TurnKey, thread: ThreadId) {
    key in db.turns && key.thread == thread && db.turns[key].owner == owner && db.turns[key].status.InProgress?
  }

  /** `reconcile_orphaned_thread`. */
  function Reconcile(db: HostDb, owner: OwnerId, thread: ThreadId, reason: string): Result<HostDb, HostError> {
    if !Owned(db, owner, thread) then Err(ThreadMissing)
    else if !BusyThread(db.threads[thread]) then Ok(db)
    else
      Ok(HostDb(
           db.threads[thread := db.threads[thread].(status := Interrupted, current := None)],
           map k | k in db.turns :: if LiveTurn(db, owner, k, thread)
                                    then Turn(owner, TurnInterrupted, FirstError(db.turns[k].error, reason)) else db.turns[k],
           map i | i in db.controls :: if OpenOn(db, owner, thread, i)
                                       then db.controls[i].(state := Failed, error := FirstError(db.controls[i].error, reason))
                                       else db.controls[i],
           db.nextId))
  }

  /** `settle_orphaned_controls`. */
  function Settle(db: HostDb, owner: OwnerId, thread: ThreadId, reason: string): HostDb {
    db.(controls := map i | i in db.controls ::
          if OpenOn(db, owner, thread, i)
          then db.controls[i].(state := if db.controls[i].action.Steer? then Rejected else Failed,
                               error := FirstError(db.controls[i].error, reason))
          else db.controls[i])
  }

  predicate ActiveOwner(db: HostDb, owner: OwnerId) {
    || (exists t :: t in db.threads && db.threads[t].owner == owner && BusyThread(db.threads[t]))
    || (exists i :: i in db.controls && db.controls[i].owner == owner && db.controls[i].state.Open())
  }

  /** Ids are never given out again, even after the rows are gone. */
  function DeleteOwner(db: HostDb, owner: OwnerId): Result<HostDb, HostError> {
    if ActiveOwner(db, owner) then Err(StillActive)
    else
      Ok(HostDb(
           map t | t in db.threads && db.threads[t].owner != owner :: db.threads[t],
           map k | k in db.turns && db.turns[k].owner != owner && !Owned(db, owner, k.thread) :: db.turns[k],
           map i | i in db.controls && db.controls[i].owner != owner && !Owned(db, owner, db.controls[i].thread) :: db.controls[i],
           db.nextId))
  }

  // ----- runs -----

  datatype Op =
    | OpThread(owner: OwnerId, thread: ThreadId, status: ThreadStatus)
    | OpStart(owner: OwnerId, thread: ThreadId, turn: TurnId)
    | OpComplete(owner: OwnerId, thread: ThreadId, turn: TurnId, turnStatus: TurnStatus, error: string)
    | OpEnqueue(owner: OwnerId, thread: ThreadId, action: Action)
    | OpClaim(filter: Filter, limit: int)
    | OpFinish(owner: OwnerId, id: nat, state: ControlState, result: string, error: string)
    | OpReconcile(owner: OwnerId, thread: ThreadId, error: string)
    | OpSettle(owner: OwnerId, thread: ThreadId, error: string)
    | OpDelete(owner: OwnerId)

  function OrSame(r: Result<HostDb, HostError>, db: HostDb): HostDb {
    if r.Ok? then r.value else db
  }

  function Do(db: HostDb, op: Op): HostDb {
    match op
    case OpThread(o, t, st) => OrSame(PutThread(db, o, t, st), db)
    case OpStart(o, t, n) => OrSame(StartTurn(db, o, t, n), db)
    case OpComplete(o, t, n, st, e) => OrSame(CompleteTurn(db, o, t, n, st, e), db)
    case OpEnqueue(o, t, a) => OrSame(Enqueue(db, o, t, a), db)
    case OpClaim(f, n) => Claim(db, f, n)
    case OpFinish(o, id, st, r, e) => OrSame(Finish(db, o, id, st, r, e), db)
    case OpReconcile(o, t, e) => OrSame(Reconcile(db, o, t, e), db)
    case OpSettle(o, t, e) => Settle(db, o, t, e)
    case OpDelete(o) => OrSame(DeleteOwner(db, o), db)
  }

  function DoAll(db: HostDb, ops: seq<Op>): HostDb {
    if ops == [] then db else Do(DoAll(db, ops[..|ops| - 1]), ops[|ops| - 1])
  }

  const EMPTY := HostDb(map[], map[], map[], 1)

  predicate IdsOk(db: HostDb) {
    forall i :: i in db.controls ==> i < db.nextId
  }

  /** A control that matches a filter afterwards matched it before, or is newer than every control before. */
  lemma NothingBecomesPending(db: HostDb, op: Op, f: Filter, id: nat)
    requires IdsOk(db) && Matches(Do(db, op), f, id)
    ensures Matches(db, f, id) || id >= db.nextId
  {}

  lemma IdsStayOk(db: HostDb, op: Op)
    requires IdsOk(db)
    ensures IdsOk(Do(db, op)) && Do(db, op).nextId >= db.nextId
  {}

  // ----- claims -----

  predicate Ascending(s: seq<nat>) {
    forall i, j :: 0 <= i < j < |s| ==> s[i] < s[j]
  }

  /** The scan returns matching ids in order, and any match it leaves out comes after all of them. */
  lemma {:induction false} ScanTakesFirst(db: HostDb, f: Filter, start: nat, limit: nat)
    requires IdsOk(db)
    ensures Scanned(db, f, start, limit, FirstMatches(db, f, start, limit))
    decreases db.nextId - start
  {
    if limit != 0 && start < db.nextId {
      var fewer := if Matches(db, f, start) then limit - 1 else limit;
      var rest := FirstMatches(db, f, start + 1, fewer);
      ScanTakesFirst(db, f, start + 1, fewer);
      forall k | 0 <= k < |rest| ensures rest[k] > start {
        assert rest[k] in rest;
      }
      if Matches(db, f, start) {
        assert forall i :: i in [start] + rest <==> i == start || i in rest;
      }
    }
  }

  ghost predicate Scanned(db: HostDb, f: Filter, start: nat, limit: nat, ids: seq<nat>) {
    && Ascending(ids) && |ids| <= limit
    && (forall i :: i in ids ==> start <= i && Matches(db, f, i))
    && (forall i {:trigger Matches(db, f, i)} :: start <= i && Matches(db, f, i) && i !in ids ==>
          |ids| == limit && forall k :: k in ids ==> k < i)
  }

  /** After a claim, what still matches is larger than everything it returned. */
  lemma ClaimLeavesLarger(db: HostDb, f: Filter, limit: int, id: nat)
    requires IdsOk(db) && Matches(Claim(db, f, limit), f, id)
    ensures id !in ClaimedIds(db, f, limit) && forall k :: k in ClaimedIds(db, f, limit) ==> k < id
  {
    ScanTakesFirst(db, f, 0, ClaimLimit(limit));
    assert Matches(db, f, id);
  }

  /** Any filter that is no wider finds only larger ids, in every later state. */
  lemma {:induction false} LaterMatchesAreLarger(db: HostDb, f: Filter, limit: int, ops: seq<Op>, g: Filter, id: nat)
    requires IdsOk(db) && g.owner == f.owner && g.thread == f.thread && g.actions <= f.actions
    requires Matches(DoAll(Claim(db, f, limit), ops), g, id)
    ensures id !in ClaimedIds(db, f, limit) && forall k :: k in ClaimedIds(db, f, limit) ==> k < id
    ensures IdsOk(DoAll(Claim(db, f, limit), ops)) && DoAll(Claim(db, f, limit), ops).nextId >= db.nextId
  {
    if ops == [] {
      assert Matches(Claim(db, f, limit), f, id);
      ClaimLeavesLarger(db, f, limit, id);
    } else {
      var before := DoAll(Claim(db, f, limit), ops[..|ops| - 1]);
      RunKeepsIds(Claim(db, f, limit), ops[..|ops| - 1]);
      IdsStayOk(before, ops[|ops| - 1]);
      NothingBecomesPending(before, ops[|ops| - 1], g, id);
      if Matches(before, g, id) {
        LaterMatchesAreLarger(db, f, limit, ops[..|ops| - 1], g, id);
      } else {
        ScanTakesFirst(db, f, 0, ClaimLimit(limit));
      }
    }
  }

  lemma {:induction false} RunKeepsIds(db: HostDb, ops: seq<Op>)
    requires IdsOk(db)
    ensures IdsOk(DoAll(db, ops)) && DoAll(db, ops).nextId >= db.nextId
  {
    if ops != [] {
      RunKeepsIds(db, ops[..|ops| - 1]);
      IdsStayOk(DoAll(db, ops[..|ops| - 1]), ops[|ops| - 1]);
    }
  }

  /** A claimed control is never pending again, whatever is done and whoever claims. */
  lemma {:induction false} ClaimedIsNeverPending(db: HostDb, f: Filter, limit: int, ops: seq<Op>, g: Filter, id: nat)
    requires IdsOk(db) && id in ClaimedIds(db, f, limit)
    ensures !Matches(DoAll(Claim(db, f, limit), ops), g, id)
  {
    ScanTakesFirst(db, f, 0, ClaimLimit(limit));
    if ops != [] {
      var before := DoAll(Claim(db, f, limit), ops[..|ops| - 1]);
      ClaimedIsNeverPending(db, f, limit, ops[..|ops| - 1], g, id);
      RunKeepsIds(Claim(db, f, limit), ops[..|ops| - 1]);
      assert Matches(Do(before, ops[|ops| - 1]), g, id) ==> Matches(before, g, id) || id >= before.nextId by {
        if Matches(Do(before, ops[|ops| - 1]), g, id) {
          NothingBecomesPending(before, ops[|ops| - 1], g, id);
        }
      }
    }
  }

  /**
   Two claims in any run, with anything in between: they return different controls, each claim returns its controls in
   the order of their ids, and a later claim on the same thread that asks for no more actions returns only larger ids.
   */
  lemma ClaimsAreExclusiveAndFifo(before: seq<Op>, f: Filter, m: int, between: seq<Op>, g: Filter, n: int)
    ensures var db := DoAll(EMPTY, before);
            var first := ClaimedIds(db, f, m);
            var second := ClaimedIds(DoAll(Claim(db, f, m), between), g, n);
            && Ascending(first) && Ascending(second) && |first| <= MAX_CLAIM
            && (forall i :: i in first ==> i !in second)
            && (g.owner == f.owner && g.thread == f.thread && g.actions <= f.actions ==>
                  forall i, j :: i in first && j in second ==> i < j)
  {
    var db := DoAll(EMPTY, before);
    RunKeepsIds(EMPTY, before);
    ScanTakesFirst(db, f, 0, ClaimLimit(m));
    RunKeepsIds(Claim(db, f, m), between);
    var later := DoAll(Claim(db, f, m), between);
    ScanTakesFirst(later, g, 0, ClaimLimit(n));
    var first, second := ClaimedIds(db, f, m), ClaimedIds(later, g, n);
    forall i | i in first ensures i !in second {
      ClaimedIsNeverPending(db, f, m, between, g, i);
    }
    if g.owner == f.owner && g.thread == f.thread && g.actions <= f.actions {
      forall j | j in second ensures forall i :: i in first ==> i < j {
        LaterMatchesAreLarger(db, f, m, between, g, j);
      }
    }
  }

  /** A claim with a filter that asks for an action returns the oldest pending control of that action, if there is one. */
  lemma ClaimReturnsOldest(ops: seq<Op>, f: Filter, limit: int, id: nat)
    requires Matches(DoAll(EMPTY, ops), f, id)
    ensures var ids := ClaimedIds(DoAll(EMPTY, ops), f, limit);
            && ids != [] && ids[0] <= id
            && |ids| <= (if limit < 1 then 1 else if limit > 50 then 50 else limit)
            && (id in ids || |ids| == if limit < 1 then 1 else if limit > 50 then 50 else limit)
  {
    RunKeepsIds(EMPTY, ops);
    ScanTakesFirst(DoAll(EMPTY, ops), f, 0, ClaimLimit(limit));
    var ids := ClaimedIds(DoAll(EMPTY, ops), f, limit);
    assert ids != [] ==> ids[0] in ids;
  }

  // ----- repair -----

  ghost predicate NoOpenControl(db: HostDb, owner: OwnerId, thread: ThreadId) {
    forall i :: !OpenOn(db, owner, thread, i)
  }

  ghost predicate NoLiveTurn(db: HostDb, owner: OwnerId, thread: ThreadId) {
    forall k :: !LiveTurn(db, owner, k, thread)
  }

  /** Settling leaves no control of the thread open, and touches no other. */
  lemma SettleClosesControls(db: HostDb, owner: OwnerId, thread: ThreadId, reason: string)
    ensures var u := Settle(db, owner, thread, reason);
            && NoOpenControl(u, owner, thread)
            && u.controls.Keys == db.controls.Keys && u.turns == db.turns && u.threads == db.threads
            && (forall i :: i in db.controls && !OpenOn(db, owner, thread, i) ==> u.controls[i] == db.controls[i])
            && (forall i :: OpenOn(db, owner, thread, i) && db.controls[i].error != "" ==> u.controls[i].error == db.controls[i].error)
  {}

  /** What does not match a filter never will, unless it is a new control. */
  lemma {:induction false} OldControlsStayUnmatched(db: HostDb, ops: seq<Op>, f: Filter, id: nat)
    requires IdsOk(db) && id < db.nextId && !Matches(db, f, id)
    ensures !Matches(DoAll(db, ops), f, id)
  {
    if ops != [] {
      var before, op := DoAll(db, ops[..|ops| - 1]), ops[|ops| - 1];
      OldControlsStayUnmatched(db, ops[..|ops| - 1], f, id);
      RunKeepsIds(db, ops[..|ops| - 1]);
      if Matches(Do(before, op), f, id) {
        NothingBecomesPending(before, op, f, id);
      }
    }
  }

  /**
   The guard's last step, over whole runs: when a thread is settled no control of it stays open, and whatever is done
   afterwards, no claim on that thread ever returns a control from before.
   */
  lemma SettledIsNeverClaimed(
    before: seq<Op>, owner: OwnerId, thread: ThreadId, reason: string, between: seq<Op>, actions: set<Action>, limit: int)
    ensures var db := DoAll(EMPTY, before);
            var u := Settle(db, owner, thread, reason);
            && NoOpenControl(u, owner, thread)
            && forall i :: i in ClaimedIds(DoAll(u, between), Filter(owner, thread, actions), limit) ==> i >= db.nextId
  {
    var db := DoAll(EMPTY, before);
    var u := Settle(db, owner, thread, reason);
    var f := Filter(owner, thread, actions);
    RunKeepsIds(EMPTY, before);
    SettleClosesControls(db, owner, thread, reason);
    RunKeepsIds(u, between);
    var later := DoAll(u, between);
    ScanTakesFirst(later, f, 0, ClaimLimit(limit));
    forall i | i in ClaimedIds(later, f, limit) ensures i >= db.nextId {
      assert Matches(later, f, i);
      if i < db.nextId {
        assert !OpenOn(u, owner, thread, i);
        OldControlsStayUnmatched(u, between, f, i);
      }
    }
  }

  /**
   Reconciling leaves no turn in progress and no open control exactly when the thread is marked busy or has none; a
   thread that is not marked busy is left as it is.
   */
  lemma ReconcileRepairsExactly(db: HostDb, owner: OwnerId, thread: ThreadId, reason: string)
    requires Owned(db, owner, thread)
    ensures var r := Reconcile(db, owner, thread, reason);
            && r.Ok? && !BusyThread(r.value.threads[thread])
            && (NoLiveTurn(r.value, owner, thread) && NoOpenControl(r.value, owner, thread) <==>
                  BusyThread(db.threads[thread]) || (NoLiveTurn(db, owner, thread) && NoOpenControl(db, owner, thread)))
            && (forall i :: i in db.controls && !OpenOn(db, owner, thread, i) ==> r.value.controls[i] == db.controls[i])
            && (forall k :: k in db.turns && !LiveTurn(db, owner, k, thread) ==> r.value.turns[k] == db.turns[k])
            && (forall t :: t in db.threads && t != thread ==> r.value.threads[t] == db.threads[t])
  {
    var r := Reconcile(db, owner, thread, reason);
    if BusyThread(db.threads[thread]) {
      assert NoLiveTurn(r.value, owner, thread);
      assert NoOpenControl(r.value, owner, thread);
    }
  }

  /** Doing either repair twice is doing it once. */
  lemma RepairsAreIdempotent(db: HostDb, owner: OwnerId, thread: ThreadId, a: string, b: string)
    requires Owned(db, owner, thread)
    ensures Reconcile(Reconcile(db, owner, thread, a).value, owner, thread, b) == Reconcile(db, owner, thread, a)
    ensures Settle(Settle(db, owner, thread, a), owner, thread, b) == Settle(db, owner, thread, a)
  {
    var u := Settle(db, owner, thread, a);
    SettleClosesControls(db, owner, thread, a);
    assert Settle(u, owner, thread, b).controls == u.controls;
  }

  class CodexHostStore {
    var threads: map<ThreadId, Thread>
    var turns: map<TurnKey, Turn>
    var controls: map<nat, Control>
    var nextId: nat

    constructor ()
      ensures View() == EMPTY
    {
      threads, turns, controls, nextId := map[], map[], map[], 1;
    }

    ghost function View(): HostDb
      reads this
    {
      HostDb(threads, turns, controls, nextId)
    }

    method RecordTurnStarted(owner: OwnerId, thread: ThreadId, turn: TurnId) returns (error: Option<HostError>)
      modifies this
      ensures error.None? <==> StartTurn(old(View()), owner, thread, turn).Ok?
      ensures View() == Do(old(View()), OpStart(owner, thread, turn))
    {
      if thread !in threads || threads[thread].owner != owner {
        return Some(ThreadMissing);
      }
      var key := TurnKey(thread, turn);
      turns := turns[key := if key in turns then turns[key].(status := InProgress) else Turn(owner, InProgress, "")];
      threads := threads[thread := threads[thread].(current := Some(turn), status := Running)];
      return None;
    }

    method RecordTurnCompleted(owner: OwnerId, thread: ThreadId, turn: TurnId, status: TurnStatus, detail: string)
      returns (error: Option<HostError>)
      modifies this
      ensures error.None? <==> CompleteTurn(old(View()), owner, thread, turn, status, detail).Ok?
      ensures View() == Do(old(View()), OpComplete(owner, thread, turn, status, detail))
    {
      var key := TurnKey(thread, turn);
      if key !in turns || turns[key].owner != owner {
        return Some(TurnMissing);
      }
      turns := turns[key := Turn(owner, status, detail)];
      if thread in threads && threads[thread].owner == owner {
        var after := if status.TurnCompleted? then Idle else if status.TurnInterrupted? then Interrupted else ThreadFailed;
        threads := threads[thread := threads[thread].(current := None, lastCompleted := Some(turn), status := after)];
      }
      return None;
    }

    method EnqueueControl(owner: OwnerId, thread: ThreadId, action: Action) returns (id: Option<nat>)
      modifies this
      ensures id == if Owned(old(View()), owner, thread) then Some(old(nextId)) else None
      ensures View() == Do(old(View()), OpEnqueue(owner, thread, action))
    {
      if thread !in threads || threads[thread].owner != owner {
        return None;
      }
      id := Some(nextId);
      controls := controls[nextId := Control(owner, thread, action, Pending, "", "")];
      nextId := nextId + 1;
    }

    /** Select in the order of ids, up to the limit, and mark what was selected. */
    method ClaimControls(f: Filter, limit: int) returns (ids: seq<nat>)
      modifies this
      ensures ids == ClaimedIds(old(View()), f, limit)
      ensures View() == Do(old(View()), OpClaim(f, limit))
    {
      ids := [];
      var most := Max(1, Min(limit, MAX_CLAIM));
      var id := 0;
      while id < nextId && |ids| < most
        invariant 0 <= id <= nextId && |ids| <= most
        invariant View() == old(View())
        invariant ids + FirstMatches(View(), f, id, most - |ids|) == ClaimedIds(View(), f, limit)
      {
        if id in controls && controls[id].state.Pending? && controls[id].owner == f.owner
           && controls[id].thread == f.thread && controls[id].action in f.actions {
          ids := ids + [id];
        }
        id := id + 1;
      }
      controls := map i | i in controls :: if i in ids then controls[i].(state := Processing) else controls[i];
    }

    method FinishControl(owner: OwnerId, id: nat, state: ControlState, result: string, detail: string)
      returns (error: Option<HostError>)
      modifies this
      ensures error.None? <==> Finish(old(View()), owner, id, state, result, detail).Ok?
      ensures View() == Do(old(View()), OpFinish(owner, id, state, result, detail))
    {
      if state.Pending? || state.Processing? {
        return Some(NotTerminal);
      }
      if id !in controls || controls[id].owner != owner {
        return Some(ControlMissing);
      }
      controls := controls[id := controls[id].(error := detail, result := result, state := state)];
      return None;
    }

    method ReconcileOrphanedThread(owner: OwnerId, thread: ThreadId, reason: string) returns (error: Option<HostError>)
      modifies this
      ensures error.None? <==> Owned(old(View()), owner, thread)
      ensures View() == Do(old(View()), OpReconcile(owner, thread, reason))
    {
      if thread !in threads || threads[thread].owner != owner {
        return Some(ThreadMissing);
      }
      if !threads[thread].status.Running? && !threads[thread].status.Compacting? {
        return None;
      }
      ghost var db := View();
      turns := map k | k in turns :: if k.thread == thread && turns[k].owner == owner && turns[k].status.InProgress?
                                     then turns[k].(status := TurnInterrupted, error := FirstError(turns[k].error, reason))
                                     else turns[k];
      controls := map i | i in controls ::
        if controls[i].owner == owner && controls[i].thread == thread && controls[i].state.Open()
        then controls[i].(state := Failed, error := FirstError(controls[i].error, reason)) else controls[i];
      threads := threads[thread := threads[thread].(status := Interrupted, current := None)];
      assert turns == Reconcile(db, owner, thread, reason).value.turns;
      assert controls == Reconcile(db, owner, thread, reason).value.controls;
      return None;
    }

    method SettleOrphanedControls(owner: OwnerId, thread: ThreadId, reason: string) returns (settled: nat)
      modifies this
      ensures View() == Do(old(View()), OpSettle(owner, thread, reason))
      ensures settled == |set i | i in old(controls) && OpenOn(old(View()), owner, thread, i)|
    {
      ghost var db := View();
      var open := set i | i in controls
                          && controls[i].owner == owner && controls[i].thread == thread && controls[i].state.Open();
      settled := |open|;
      assert open == set i | i in db.controls && OpenOn(db, owner, thread, i);
      controls := map i | i in controls ::
        if i in open
        then controls[i].(state := if controls[i].action.Steer? then Rejected else Failed,
                          error := FirstError(controls[i].error, reason))
        else controls[i];
    }
  }
}
