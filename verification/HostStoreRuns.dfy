/**
 What the Host tables hold after a run, told from the calls themselves (`server/app/codex_host_store.py`,
 `server/app/codex_host_guard.py`): every control's fate, and the turns that a thread row names.
 */
module HostStoreRuns {
  import opened Common
  import opened HostStore

  // ----- what a call does to a control -----

  predicate IsReport(op: Op) {
    op.OpFinish? && !op.state.Pending? && !op.state.Processing?
  }

  predicate IsRepair(op: Op) {
    op.OpSettle? || op.OpReconcile?
  }

  /** The call reports this control's end. */
  predicate ReportOn(db: HostDb, op: Op, id: nat) {
    && IsReport(op) && op.id == id && id in db.controls && db.controls[id].owner == op.owner
  }

  /** The call repairs this control: it is open on a thread that is settled, or that is reconciled while marked busy. */
  predicate RepairOn(db: HostDb, op: Op, id: nat) {
    && id in db.controls && (db.controls[id].state.Pending? || db.controls[id].state.Processing?)
    && IsRepair(op)
    && db.controls[id].owner == op.owner && db.controls[id].thread == op.thread
    && (op.OpReconcile? ==>
          && op.thread in db.threads && db.threads[op.thread].owner == op.owner
          && (db.threads[op.thread].status.Running? || db.threads[op.thread].status.Compacting?))
  }

  predicate TakenBy(db: HostDb, op: Op, id: nat) {
    op.OpClaim? && id in ClaimedIds(db, op.filter, op.limit)
  }

  function LastReport(ops: seq<Op>, id: nat): (r: Option<Op>)
    ensures r.Some? ==> IsReport(r.value)
  {
    if ops == [] then None
    else
      var front, op := ops[..|ops| - 1], ops[|ops| - 1];
      if ReportOn(DoAll(EMPTY, front), op, id) then Some(op) else LastReport(front, id)
  }

  function LastRepair(ops: seq<Op>, id: nat): (r: Option<Op>)
    ensures r.Some? ==> IsRepair(r.value)
  {
    if ops == [] then None
    else
      var front, op := ops[..|ops| - 1], ops[|ops| - 1];
      if RepairOn(DoAll(EMPTY, front), op, id) then Some(op) else LastRepair(front, id)
  }

  ghost predicate Taken(ops: seq<Op>, id: nat) {
    exists i :: 0 <= i < |ops| && TakenBy(DoAll(EMPTY, ops[..i]), ops[i], id)
  }

  ghost predicate Asked(ops: seq<Op>, id: nat, c: Control) {
    exists i ::
      0 <= i < |ops| && ops[i] == OpEnqueue(c.owner, c.thread, c.action) && DoAll(EMPTY, ops[..i]).nextId == id
  }

  /** What the calls say about a control: the last report, or else the repair, or else whether it was taken. */
  predicate Told(report: Option<Op>, repair: Option<Op>, taken: bool, c: Control)
    requires report.Some? ==> IsReport(report.value)
    requires repair.Some? ==> IsRepair(repair.value)
  {
    if report.Some? then c.state == report.value.state && c.result == report.value.result && c.error == report.value.error
    else if repair.Some? then
      && c.state == (if repair.value.OpSettle? && c.action.Steer? then Rejected else Failed)
      && c.error == repair.value.error && c.result == ""
    else c.state == (if taken then Processing else Pending) && c.error == "" && c.result == ""
  }

  // ----- one step -----

  lemma TakenMore(ops: seq<Op>, id: nat)
    requires ops != []
    ensures var front, op := ops[..|ops| - 1], ops[|ops| - 1];
            Taken(ops, id) <==> Taken(front, id) || TakenBy(DoAll(EMPTY, front), op, id)
  {
    var front := ops[..|ops| - 1];
    assert forall i :: 0 <= i < |front| ==> front[..i] == ops[..i];
  }

  lemma AskedMore(ops: seq<Op>, id: nat, c: Control)
    requires ops != []
    ensures var front, op := ops[..|ops| - 1], ops[|ops| - 1];
            Asked(ops, id, c) <==>
              Asked(front, id, c) || (op == OpEnqueue(c.owner, c.thread, c.action) && DoAll(EMPTY, front).nextId == id)
  {
    var front := ops[..|ops| - 1];
    assert forall i :: 0 <= i < |front| ==> front[..i] == ops[..i];
  }

  /** A control that is there after a call was there before, with the same request, or is the one just asked for. */
  lemma ControlComesFrom(db: HostDb, op: Op, id: nat)
    requires IdsOk(db) && id in Do(db, op).controls
    ensures var u := Do(db, op).controls[id];
            if id in db.controls
            then u.owner == db.controls[id].owner && u.thread == db.controls[id].thread && u.action == db.controls[id].action
            else op == OpEnqueue(u.owner, u.thread, u.action) && id == db.nextId && u.state.Pending? && u.error == "" && u.result == ""
  {}

  /** What one call leaves of a control. */
  lemma ControlStep(db: HostDb, op: Op, id: nat)
    requires id in db.controls && id < db.nextId && id in Do(db, op).controls
    ensures var c, u := db.controls[id], Do(db, op).controls[id];
            if ReportOn(db, op, id) then u.state == op.state && u.result == op.result && u.error == op.error
            else if RepairOn(db, op, id) then
              && u.state == (if op.OpSettle? && c.action.Steer? then Rejected else Failed)
              && u.error == (if c.error == "" then op.error else c.error) && u.result == c.result
            else if TakenBy(db, op, id) then u == c.(state := Processing)
            else u == c
  {}

  lemma TakenWasPending(db: HostDb, op: Op, id: nat)
    requires IdsOk(db) && TakenBy(db, op, id)
    ensures id in db.controls && db.controls[id].state.Pending?
  {
    ScanTakesFirst(db, op.filter, 0, ClaimLimit(op.limit));
  }

  /** Before it exists nothing happens to a control. */
  lemma {:induction false} NothingBeforeCreation(ops: seq<Op>, id: nat)
    requires id >= DoAll(EMPTY, ops).nextId
    ensures LastReport(ops, id).None? && LastRepair(ops, id).None? && !Taken(ops, id)
  {
    if ops != [] {
      var front, op := ops[..|ops| - 1], ops[|ops| - 1];
      var db := DoAll(EMPTY, front);
      RunKeepsIds(EMPTY, front);
      IdsStayOk(db, op);
      NothingBeforeCreation(front, id);
      TakenMore(ops, id);
      if TakenBy(db, op, id) {
        TakenWasPending(db, op, id);
      }
    }
  }

  /**
   The fate of every control of every run. A control is what was asked for under its id. The last report about it
   decides its state, result and error; without one, the repair that met it open; without that, it is being processed if
   a claim returned it, and pending otherwise.
   */
  lemma {:induction false} ControlIsExactly(ops: seq<Op>, id: nat)
    requires id in DoAll(EMPTY, ops).controls
    ensures var c := DoAll(EMPTY, ops).controls[id];
            Asked(ops, id, c) && Told(LastReport(ops, id), LastRepair(ops, id), Taken(ops, id), c)
  {
    if ops != [] {
      var front, op := ops[..|ops| - 1], ops[|ops| - 1];
      var db := DoAll(EMPTY, front);
      var u := Do(db, op).controls[id];
      RunKeepsIds(EMPTY, front);
      ControlComesFrom(db, op, id);
      TakenMore(ops, id);
      AskedMore(ops, id, u);
      if id in db.controls {
        ControlIsExactly(front, id);
        FateMoves(db, op, id, LastReport(front, id), LastRepair(front, id), Taken(front, id));
      } else {
        NothingBeforeCreation(front, id);
        NewIsUntouched(db, op, id);
      }
    }
  }

  lemma NewIsUntouched(db: HostDb, op: Op, id: nat)
    requires IdsOk(db) && id !in db.controls
    ensures !ReportOn(db, op, id) && !RepairOn(db, op, id) && !TakenBy(db, op, id)
  {
    if TakenBy(db, op, id) {
      TakenWasPending(db, op, id);
    }
  }

  /** The step of the induction on the fate. */
  lemma FateMoves(db: HostDb, op: Op, id: nat, report: Option<Op>, repair: Option<Op>, taken: bool)
    requires IdsOk(db) && id in db.controls && id in Do(db, op).controls
    requires (report.Some? ==> IsReport(report.value)) && (repair.Some? ==> IsRepair(repair.value))
    requires Told(report, repair, taken, db.controls[id])
    ensures Told(if ReportOn(db, op, id) then Some(op) else report, if RepairOn(db, op, id) then Some(op) else repair,
                 taken || TakenBy(db, op, id), Do(db, op).controls[id])
  {
    ControlStep(db, op, id);
    ControlComesFrom(db, op, id);
    if TakenBy(db, op, id) {
      TakenWasPending(db, op, id);
    }
  }

  // ----- threads and turns -----

  /** A thread's row and the rows it names: they have its owner, and its current turn is in progress. */
  ghost predicate ThreadOk(db: HostDb, t: ThreadId)
    requires t in db.threads
  {
    var row := db.threads[t];
    && (row.current.Some? ==>
          var key := TurnKey(t, row.current.value);
          key in db.turns && db.turns[key].owner == row.owner && db.turns[key].status.InProgress?)
    && (row.lastCompleted.Some? ==> TurnKey(t, row.lastCompleted.value) in db.turns)
  }

  ghost predicate ThreadsOk(db: HostDb) {
    forall t :: t in db.threads ==> ThreadOk(db, t)
  }

  ghost predicate TurnsOk(db: HostDb) {
    forall k :: k in db.turns ==> k.thread in db.threads && db.threads[k.thread].owner == db.turns[k].owner
  }

  ghost predicate ControlsOk(db: HostDb) {
    forall i :: i in db.controls ==> Owned(db, db.controls[i].owner, db.controls[i].thread)
  }

  ghost predicate HostInv(db: HostDb) {
    ThreadsOk(db) && TurnsOk(db) && ControlsOk(db)
  }

  lemma StepKeepsThreads(db: HostDb, op: Op)
    requires ThreadsOk(db) && TurnsOk(db)
    ensures ThreadsOk(Do(db, op))
  {}

  lemma StepKeepsTurns(db: HostDb, op: Op)
    requires TurnsOk(db)
    ensures TurnsOk(Do(db, op))
  {}

  lemma StepKeepsControls(db: HostDb, op: Op)
    requires ControlsOk(db)
    ensures ControlsOk(Do(db, op))
  {}

  lemma StepKeepsHost(db: HostDb, op: Op)
    requires HostInv(db)
    ensures HostInv(Do(db, op))
  {
    StepKeepsThreads(db, op);
    StepKeepsTurns(db, op);
    StepKeepsControls(db, op);
  }

  /** In every run: rows belong to the owner of their thread, and the turn a thread runs is in progress. */
  lemma {:induction false} HostInvAlways(ops: seq<Op>)
    ensures HostInv(DoAll(EMPTY, ops))
  {
    if ops != [] {
      HostInvAlways(ops[..|ops| - 1]);
      StepKeepsHost(DoAll(EMPTY, ops[..|ops| - 1]), ops[|ops| - 1]);
    }
  }

  /** A thread row is written by its owner alone: a new one runs nothing, an old one keeps its turns. */
  lemma PutContents(db: HostDb, owner: OwnerId, thread: ThreadId, status: ThreadStatus)
    ensures var u := Do(db, OpThread(owner, thread, status));
            if thread in db.threads && db.threads[thread].owner != owner then u == db
            else
              && thread in u.threads && u.threads[thread].owner == owner && u.threads[thread].status == status
              && u == db.(threads := db.threads[thread := u.threads[thread]])
              && (if thread in db.threads
                  then u.threads[thread].current == db.threads[thread].current
                       && u.threads[thread].lastCompleted == db.threads[thread].lastCompleted
                  else u.threads[thread].current.None? && u.threads[thread].lastCompleted.None?)
  {}

  /** A started turn is in progress on a running thread; what the thread completed last and other rows stay. */
  lemma StartedContents(ops: seq<Op>, owner: OwnerId, thread: ThreadId, turn: TurnId)
    ensures var db := DoAll(EMPTY, ops);
            var u, key := Do(db, OpStart(owner, thread, turn)), TurnKey(thread, turn);
            if thread in db.threads && db.threads[thread].owner == owner then
              && u.threads == db.threads[thread := Thread(owner, Running, Some(turn), db.threads[thread].lastCompleted)]
              && u.turns == db.turns[key := Turn(owner, InProgress, if key in db.turns then db.turns[key].error else "")]
              && u.controls == db.controls
            else u == db
  {
    HostInvAlways(ops);
  }

  /** A completed turn leaves its thread idle, an interrupted one interrupted, and a failed one failed. */
  lemma CompletedContents(
    ops: seq<Op>, owner: OwnerId, thread: ThreadId, turn: TurnId, status: TurnStatus, error: string)
    ensures var db := DoAll(EMPTY, ops);
            var u, key := Do(db, OpComplete(owner, thread, turn, status, error)), TurnKey(thread, turn);
            if key in db.turns && db.turns[key].owner == owner then
              && u.turns == db.turns[key := Turn(owner, status, error)] && u.controls == db.controls
              && thread in u.threads && u.threads.Keys == db.threads.Keys
              && u.threads[thread].owner == owner && u.threads[thread].current == None
              && u.threads[thread].lastCompleted == Some(turn)
              && (u.threads[thread].status.Idle? <==> status.TurnCompleted?)
              && (u.threads[thread].status.Interrupted? <==> status.TurnInterrupted?)
              && (u.threads[thread].status.ThreadFailed? <==> status.TurnFailed? || status.InProgress?)
              && (forall t :: t in db.threads && t != thread ==> u.threads[t] == db.threads[t])
            else u == db
  {
    HostInvAlways(ops);
  }

  /** Reconciling a busy thread interrupts it and its live turns, which keep the error they have. */
  lemma ReconciledContents(ops: seq<Op>, owner: OwnerId, thread: ThreadId, reason: string)
    ensures var db := DoAll(EMPTY, ops);
            var u := Do(db, OpReconcile(owner, thread, reason));
            if thread in db.threads && db.threads[thread].owner == owner
               && (db.threads[thread].status.Running? || db.threads[thread].status.Compacting?) then
              && u.threads == db.threads[thread := Thread(owner, Interrupted, None, db.threads[thread].lastCompleted)]
              && u.turns.Keys == db.turns.Keys && u.controls.Keys == db.controls.Keys
              && (forall k :: k in db.turns ==>
                    u.turns[k] == if k.thread == thread && db.turns[k].status.InProgress?
                                  then Turn(owner, TurnInterrupted, if db.turns[k].error == "" then reason else db.turns[k].error)
                                  else db.turns[k])
            else u == db
  {
    HostInvAlways(ops);
  }

  /** A control is queued behind all others on a thread of its owner, and refused elsewhere. */
  lemma EnqueuedContents(ops: seq<Op>, owner: OwnerId, thread: ThreadId, action: Action)
    ensures var db := DoAll(EMPTY, ops);
            var u := Do(db, OpEnqueue(owner, thread, action));
            if thread in db.threads && db.threads[thread].owner == owner then
              && (forall i :: i in db.controls ==> i < db.nextId) && u.nextId == db.nextId + 1
              && u == db.(controls := db.controls[db.nextId := Control(owner, thread, action, Pending, "", "")], nextId := u.nextId)
            else u == db
  {
    RunKeepsIds(EMPTY, ops);
  }

  /** An account with a busy thread or an open control is kept; otherwise its rows go, and no one else's. */
  lemma DeletedContents(ops: seq<Op>, owner: OwnerId)
    ensures var db := DoAll(EMPTY, ops);
            var u := Do(db, OpDelete(owner));
            if (exists t :: t in db.threads && db.threads[t].owner == owner
                            && (db.threads[t].status.Running? || db.threads[t].status.Compacting?))
               || (exists i :: i in db.controls && db.controls[i].owner == owner
                               && (db.controls[i].state.Pending? || db.controls[i].state.Processing?))
            then u == db
            else
              && u.threads == (map t | t in db.threads && db.threads[t].owner != owner :: db.threads[t])
              && u.turns == (map k | k in db.turns && db.turns[k].owner != owner :: db.turns[k])
              && u.controls == (map i | i in db.controls && db.controls[i].owner != owner :: db.controls[i])
              && u.nextId == db.nextId
  {
    HostInvAlways(ops);
  }
}
