/**
 The retry driver of `server/app/agent_loop.py` as it is written, a loop over tables. Every method extends a run of the
 state machine `RetryChain`, so all that is proved of those runs holds of the loop.
 */
module AgentLoop {
  import opened Common
  import opened RetryLedger
  import opened RetryChain
  import opened RetryChainInvariant
  import opened RetryChainSteps
  import opened RetryRecovery
  import opened RetryOutcome

  datatype Meddling = Meddling(id: TaskId, status: Status, cancel: bool)

  /** What other workers do to the task rows during one await, and what the awaited call answers. */
  datatype Moment = Moment(meddling: seq<Meddling>, env: Env)

  ghost predicate Linked(ss: seq<State>, cs: seq<Choice>, i: nat)
    requires i < |cs| && |ss| == |cs| + 1
  {
    Leads(ss[i], cs[i], ss[i + 1])
  }

  ghost predicate Leads(s: State, c: Choice, t: State) {
    t == Step(s, c)
  }

  /** The states and choices of a run of the state machine that ends here. */
  ghost predicate IsRun(ss: seq<State>, cs: seq<Choice>, s: State) {
    && |ss| == |cs| + 1 && ss[|cs|] == s
    && forall i {:trigger Linked(ss, cs, i)} :: 0 <= i < |cs| ==> Linked(ss, cs, i)
  }

  lemma RunGrows(ss: seq<State>, cs: seq<Choice>, s: State, c: Choice)
    requires IsRun(ss, cs, s)
    ensures IsRun(ss + [Step(s, c)], cs + [c], Step(s, c))
  {
    var tt, ds := ss + [Step(s, c)], cs + [c];
    forall i | 0 <= i < |ds| ensures Linked(tt, ds, i) {
      if i < |cs| {
        assert Linked(ss, cs, i);
      }
    }
  }

  lemma {:induction false} RunIsExec(ss: seq<State>, cs: seq<Choice>, s: State)
    requires IsRun(ss, cs, s)
    ensures s == Exec(ss[0], cs)
    decreases |cs|
  {
    if cs != [] {
      var n := |cs| - 1;
      var tt, ds := ss[..n + 1], cs[..n];
      forall i | 0 <= i < n ensures Linked(tt, ds, i) {
        assert Linked(ss, cs, i);
      }
      RunIsExec(tt, ds, ss[n]);
      assert Linked(ss, cs, n);
    }
  }

  lemma RootIsThere(owner: string, root: TaskId, ss: seq<State>, cs: seq<Choice>, s: State)
    requires IsRun(ss, cs, s) && ss[0] == Init(owner, root)
    ensures root in s.tasks
  {
    RunIsExec(ss, cs, s);
    InvAlways(owner, root, cs);
    RootNeverMoves(Init(owner, root), cs);
  }

  /** The tick of a blank `record_queued`. */
  lemma BlankTick(s: State, e: Env)
    requires On(s, QueueAudit) || On(s, StartQueue)
    ensures StepTick(s, e) == StepQueueBlank(s, if On(s, QueueAudit) then Preflight else Mark)
  {}

  /** `Refused` is the `AgentRuntimeError` of a task that can no longer run; `Raised` any other exception. */
  datatype Prepared = Refused | Raised | NotReady | Launchable

  datatype Next = Gone | Returned | Ended | Retriable

  datatype Attempted = NeverRan | Aborted | Ran(failed: bool)

  class FdexAgentLoop {
    const owner: string
    const root: TaskId
    const world: nat -> Moment
    const chain: CodexRetryChainStore
    var tasks: map<TaskId, Task>
    var launches: seq<TaskId>
    var clock: nat
    ghost var driver: Driver
    ghost var trace: seq<Choice>
    ghost var states: seq<State>

    constructor (owner: string, root: TaskId, world: nat -> Moment)
      ensures Valid() && fresh(chain) && driver.Idle?
      ensures this.owner == owner && this.root == root && this.world == world && View() == Init(owner, root)
    {
      this.owner, this.root, this.world := owner, root, world;
      chain := new CodexRetryChainStore();
      tasks, launches, clock := map[root := Task(false, None, 0, Waiting, false)], [], 0;
      driver, trace, states := Idle, [], [Init(owner, root)];
    }

    ghost function View(): State
      reads this, chain
    {
      State(owner, root, tasks, chain.Tables(), launches, driver)
    }

    /** The tables and the loop's position are those at the end of a run of the state machine. */
    ghost predicate Valid()
      reads this, chain
    {
      IsRun(states, trace, View()) && states[0] == Init(owner, root)
    }

    /** The state before the last step. */
    ghost function Before(): State
      requires |states| >= 2
      reads this
    {
      states[|states| - 2]
    }

    /** The last step completed the root for this retry child, which had succeeded. */
    ghost predicate EndsDone(last: TaskId)
      reads this
    {
      && |states| >= 2 && On(Before(), Top) && Before().driver.task == last && last != root
      && last in Before().tasks && Before().tasks[last].status.Done?
      && EndsAs(Before().tasks, tasks, root, Done)
    }

    /** The last step failed the root, about this attempt. */
    ghost predicate EndsFailed(last: TaskId)
      reads this
    {
      && |states| >= 2 && On(Before(), EndRoot) && Before().driver.task == last
      && EndsAs(Before().tasks, tasks, root, Broken)
    }

    /** The root ended as its own attempt did: succeeded, or failed without a captured failure. */
    ghost predicate EndsByItself()
      reads this
    {
      && |states| >= 2 && On(Before(), Top) && Before().driver.task == root && tasks == Before().tasks && root in tasks
      && (tasks[root].status.Done? || (!tasks[root].status.Stopped? && !Before().driver.failed))
    }

    /** How a call that returns has ended: about the root itself, or with an outcome for it. */
    ghost predicate EndsAbout(last: TaskId)
      reads this
    {
      EndsDone(last) || EndsFailed(last) || (last == root && EndsByItself())
    }

    /**
     The last step was one that raises: a refused ledger call, a child that may not be created, a row that is gone, or a
     root whose cancellation was requested before its child succeeded.
     */
    ghost predicate EndsRaised()
      reads this
    {
      && |states| >= 2 && Before().driver.Working?
      && var id := Before().driver.task;
         match Before().driver.pc
         case QueueAudit => true
         case StartQueue => true
         case SettleAudit => true
         case WritePlan => true
         case CreateChild => true
         case AttachToPlan => true
         case QueueChild => true
         case Enter => Before().driver.recovering
         case Top =>
           || id !in Before().tasks
           || (id != root && Before().tasks[id].status.Done? && root in Before().tasks && Before().tasks[root].cancel)
         case _ => false
    }

    /** The call has ended with an exception. */
    ghost predicate Died()
      reads this, chain
    {
      Valid() && driver.Idle? && EndsRaised()
    }

    /** The call is over: it returned about this attempt, with the root settled if that is a child, or it raised. */
    ghost predicate Closed(ok: bool, last: TaskId)
      reads this, chain
    {
      if ok then Valid() && driver.Idle? && !EndsRaised() && EndsAbout(last) && (last != root ==> RootSettled()) else Died()
    }

    /** The tables now hold the outcome of one more tick. */
    ghost method CommitTick(s: State, e: Env)
      requires IsRun(states, trace, s) && states[0] == Init(owner, root)
      requires s.owner == owner && s.root == root
      requires var t := StepTick(s, e); t.tasks == tasks && t.ledger == chain.Tables() && t.launches == launches
      modifies this`driver, this`trace, this`states
      ensures Valid() && View() == StepTick(s, e) && trace == old(trace) + [Tick(e)]
      ensures |states| >= 2 && Before() == s
    {
      RunGrows(states, trace, s, Tick(e));
      driver, trace, states := StepTick(s, e).driver, trace + [Tick(e)], states + [StepTick(s, e)];
    }

    ghost predicate Kept(before: State)
      reads this, chain
    {
      && Valid()
      && chain.Tables() == before.ledger && launches == before.launches && driver == before.driver
      && tasks.Keys == before.tasks.Keys
      && forall i :: i in tasks ==> SameLineage(tasks[i], before.tasks[i])
    }

    /** An await: statuses and cancel flags may change under the loop. */
    method Await() returns (e: Env)
      requires Valid()
      modifies this`tasks, this`clock, this`trace, this`states
      ensures Kept(old(View()))
    {
      var moment := world(clock);
      clock, e := clock + 1, moment.env;
      ghost var before := old(View());
      var i := 0;
      while i < |moment.meddling|
        invariant 0 <= i <= |moment.meddling|
        invariant Kept(before)
      {
        var c := moment.meddling[i];
        RunGrows(states, trace, View(), Interfere(c.id, c.status, c.cancel));
        states := states + [Step(View(), Interfere(c.id, c.status, c.cancel))];
        trace := trace + [Interfere(c.id, c.status, c.cancel)];
        if c.id in tasks {
          tasks := tasks[c.id := tasks[c.id].(status := c.status, cancel := c.cancel)];
        }
        i := i + 1;
      }
    }

    method Move(id: TaskId, status: Status)
      modifies this`tasks
      ensures tasks == MovedRows(old(tasks), id, status)
    {
      if id in tasks && !tasks[id].status.Terminal() {
        tasks := tasks[id := tasks[id].(status := status)];
      }
    }

    /** `fail_task` or `complete_task`: a task whose cancellation was requested ends canceled. */
    method EndTask(id: TaskId, status: Status)
      modifies this`tasks
      ensures tasks == MovedRows(old(tasks), id, EndStatus(old(tasks), id, status))
    {
      if id in tasks && tasks[id].cancel {
        Move(id, Stopped);
      } else {
        Move(id, status);
      }
    }

    /** The loop stands at this counter, working on this attempt. */
    ghost predicate Stands(pc: Pc, id: TaskId, count: nat)
      reads this, chain
    {
      Valid() && On(View(), pc) && driver.task == id && driver.count == count
    }

    /** The attempt could not run: outside the loop the caller sees the error, inside the loop it is handled there. */
    ghost predicate Turned(id: TaskId, count: nat, outside: bool)
      reads this, chain
    {
      if outside then Died() else Stands(LostAudit, id, count)
    }

    // ----- _run_one_attempt -----

    /** Is the task still `queued` or `running`? */
    method MayRun(id: TaskId, count: nat) returns (runs: bool)
      requires Stands(Enter, id, count) && !driver.failed
      modifies this, chain
      ensures launches == old(launches)
      ensures runs ==> Stands(QueueAudit, id, count) && !driver.failed && !driver.recovering
      ensures !runs ==> Turned(id, count, old(driver).recovering)
    {
      var e := Await();
      runs := id in tasks && (tasks[id].status.Waiting? || tasks[id].status.Active?);
      CommitTick(View(), e);
    }

    /** The blank `record_queued` of an attempt. */
    method QueueAttempt(id: TaskId, count: nat) returns (ok: bool)
      requires Stands(QueueAudit, id, count) || Stands(StartQueue, id, count)
      modifies this, chain
      ensures launches == old(launches)
      ensures ok ==> Stands(if old(driver).pc.QueueAudit? then Preflight else Mark, id, count)
      ensures ok ==> driver == old(driver).(pc := driver.pc)
      ensures !ok ==> Died()
    {
      var e := Await();
      ghost var s := View();
      var parent := if id in tasks then tasks[id].parent else None;
      assert QueueBlank(s) == RecordQueued(s.ledger, owner, root, id, parent, count, BLANK);
      BlankTick(s, e);
      var error := chain.Queue(owner, root, id, parent, count, BLANK);
      CommitTick(s, e);
      ok := error.None?;
    }

    method EngineIsReady(id: TaskId, count: nat) returns (ready: bool)
      requires Stands(Preflight, id, count)
      modifies this, chain
      ensures launches == old(launches)
      ensures Valid() && driver == old(driver).(pc := if ready then StartQueue else BlockAudit)
    {
      var e := Await();
      ready := e.ready;
      CommitTick(View(), e);
    }

    /** Up to the recorded start. */
    method PrepareAttempt(id: TaskId, count: nat) returns (result: Prepared)
      requires Stands(Enter, id, count) && !driver.failed
      modifies this, chain
      ensures launches == old(launches)
      ensures result.Launchable? ==> Stands(Launch, id, count) && !driver.recovering
      ensures result.NotReady? ==> Stands(Top, id, count) && !driver.failed && !driver.recovering
      ensures result.Refused? ==> Turned(id, count, old(driver).recovering)
      ensures result.Raised? ==> Died()
    {
      var ok := MayRun(id, count);
      if !ok {
        return Refused;
      }
      ok := QueueAttempt(id, count);
      if !ok {
        return Raised;
      }
      var ready := EngineIsReady(id, count);
      if ready {
        result := StartAttempt(id, count);
      } else {
        BlockAttempt(id, count);
        result := NotReady;
      }
    }

    method BlockAttempt(id: TaskId, count: nat)
      requires Stands(BlockAudit, id, count) && !driver.recovering
      modifies this, chain
      ensures Stands(Top, id, count) && !driver.failed && !driver.recovering && launches == old(launches)
    {
      var e := Await();
      ghost var s := View();
      chain.Decide(owner, id, Blocked, e.verdict, e.now);
      CommitTick(s, e);
      e := Await();
      s := View();
      EndTask(id, Broken);
      CommitTick(s, e);
    }

    /** `record_started`: the audit row, then the start. */
    method StartAttempt(id: TaskId, count: nat) returns (result: Prepared)
      requires Stands(StartQueue, id, count) && !driver.recovering
      modifies this, chain
      ensures launches == old(launches)
      ensures result.Launchable? ==> Stands(Launch, id, count) && !driver.recovering
      ensures !result.Launchable? ==> result.Raised? && Died()
    {
      var ok := QueueAttempt(id, count);
      if !ok {
        return Raised;
      }
      var e := Await();
      ghost var s := View();
      chain.MarkStart(owner, id, e.provider, e.now);
      CommitTick(s, e);
      return Launchable;
    }

    /** The Host, and the settlement of the audit row. Returns whether a failure was captured. */
    method HostAttempt(id: TaskId, count: nat) returns (failed: Option<bool>)
      requires Stands(Launch, id, count) && !driver.recovering
      modifies this, chain
      ensures |launches| == |old(launches)| + 1
      ensures failed.Some? ==> Stands(Top, id, count) && driver.failed == failed.value && !driver.recovering
      ensures failed.None? ==> Died()
    {
      var e := Await();
      ghost var s := View();
      Move(id, Active);
      launches := launches + [id];
      CommitTick(s, e);
      e := Await();
      s := View();
      Move(id, match e.outcome
        case HostSucceeded => Done
        case HostCanceled => Stopped
        case HostCaptured => Active
        case HostFailed => Broken);
      CommitTick(s, e);
      failed := SettleAttempt(id, count, e.outcome.HostCaptured?);
    }

    method SettleAttempt(id: TaskId, count: nat, captured: bool) returns (failed: Option<bool>)
      requires Stands(SettleAudit, id, count) && driver.failed == captured && !driver.recovering
      modifies this, chain
      ensures launches == old(launches)
      ensures failed.Some? ==> Stands(Top, id, count) && driver.failed == failed.value && !driver.recovering
      ensures failed.None? ==> Died()
    {
      var e := Await();
      ghost var s := View();
      if id !in tasks {
        CommitTick(s, e);
        return None;
      }
      match tasks[id].status {
        case Done => chain.Decide(owner, id, Succeeded, e.verdict, e.now);
        case Stopped => chain.Decide(owner, id, Canceled, e.verdict, e.now);
        case Broken =>
          if !captured {
            chain.Decide(owner, id, Failed, e.verdict, e.now);
          }
        case _ =>
      }
      CommitTick(s, e);
      return Some(captured);
    }

    method RunOneAttempt(id: TaskId, count: nat) returns (outcome: Attempted)
      requires Stands(Enter, id, count) && !driver.failed
      modifies this, chain
      ensures |launches| <= |old(launches)| + 1
      ensures outcome.Ran? ==> Stands(Top, id, count) && driver.failed == outcome.failed && !driver.recovering
      ensures outcome.NeverRan? ==> Turned(id, count, old(driver).recovering)
      ensures outcome.Aborted? ==> Died()
    {
      var result := PrepareAttempt(id, count);
      match result {
        case Refused => outcome := NeverRan;
        case Raised => outcome := Aborted;
        case NotReady => outcome := Ran(false);
        case Launchable =>
          var failed := HostAttempt(id, count);
          outcome := if failed.Some? then Ran(failed.value) else Aborted;
      }
    }

    // ----- _drive_chain -----

    /** Is the logical root settled, once and for all? */
    predicate RootSettled()
      reads this
    {
      root in tasks && tasks[root].status.Terminal()
    }

    /** `finalize_logical_root_failure`: the attempt, then the root. */
    method FinalizeFailure(id: TaskId, count: nat)
      requires Stands(EndCurrent, id, count)
      modifies this, chain
      ensures launches == old(launches) && RootSettled() && EndsFailed(id) && Closed(true, id)
    {
      EndAttempt(id, count);
      var e := Await();
      ghost var s := View();
      RootIsThere(owner, root, states, trace, s);
      EndTask(root, Broken);
      CommitTick(s, e);
    }

    /** Terminalise an attempt other than the root, which stays open until the chain has one outcome. */
    method EndAttempt(id: TaskId, count: nat)
      requires Stands(EndCurrent, id, count) || Stands(EndSource, id, count)
      modifies this, chain
      ensures Stands(if old(driver).pc.EndCurrent? then EndRoot else Discard, id, count) && launches == old(launches)
      ensures driver == old(driver).(pc := driver.pc)
    {
      var e := Await();
      ghost var s := View();
      if id != root {
        EndTask(id, Broken);
      }
      CommitTick(s, e);
    }

    /** Persist the decision and the plan before anything else is touched. */
    method WriteAhead(id: TaskId, count: nat, plan: Plan) returns (ok: bool)
      requires Stands(WritePlan, id, count) && driver.plan == plan
      modifies this, chain
      ensures launches == old(launches)
      ensures ok ==> Stands(EndSource, id, count) && driver.plan == plan && driver.recovering == old(driver).recovering
      ensures !ok ==> Died()
    {
      var e := Await();
      ghost var s := View();
      var error := chain.PlanRetry(owner, root, id, count, count + 1, e.verdict, plan, e.now);
      CommitTick(s, e);
      ok := error.None?;
    }

    /** Terminalise the source, discard its worktree, create the child. */
    method CreateRetry(id: TaskId, count: nat, plan: Plan) returns (child: Option<TaskId>)
      requires Stands(EndSource, id, count) && driver.plan == plan
      modifies this, chain
      ensures launches == old(launches)
      ensures child.Some? ==> Stands(AttachToPlan, id, count) && driver.plan == plan && driver.child == child.value
                              && driver.recovering == old(driver).recovering
      ensures child.None? ==> Died()
    {
      EndAttempt(id, count);
      var e := Await();
      CommitTick(View(), e);
      child := CreateChildRow(id, count);
    }

    method CreateChildRow(id: TaskId, count: nat) returns (child: Option<TaskId>)
      requires Stands(CreateChild, id, count)
      modifies this, chain
      ensures launches == old(launches)
      ensures child.Some? ==> Valid() && driver == old(driver).(pc := AttachToPlan, child := child.value)
      ensures child.None? ==> Died()
    {
      var e := Await();
      ghost var s := View();
      if !e.allowed || e.newId in tasks {
        child := None;
      } else {
        tasks := tasks[e.newId := Task(true, Some(id), count + 1, Waiting, false)];
        child := Some(e.newId);
      }
      CommitTick(s, e);
    }

    /** Name the child in the journal, and queue it with the plan. */
    method QueueRetry(id: TaskId, count: nat, plan: Plan, child: TaskId) returns (ok: bool)
      requires Stands(AttachToPlan, id, count) && driver.plan == plan && driver.child == child && !driver.recovering
      modifies this, chain
      ensures launches == old(launches)
      ensures ok ==> Stands(Backoff, id, count) && driver.plan == plan && driver.child == child
      ensures !ok ==> Died()
    {
      ok := AttachRetry(id, count, child);
      if ok {
        ok := QueueAttached(id, count, plan, child);
      }
    }

    method QueueAttached(id: TaskId, count: nat, plan: Plan, child: TaskId) returns (ok: bool)
      requires Stands(RetryChain.QueueChild, id, count) && driver.plan == plan && driver.child == child && !driver.recovering
      modifies this, chain
      ensures launches == old(launches)
      ensures ok ==> Stands(Backoff, id, count) && driver.plan == plan && driver.child == child
      ensures !ok ==> Died()
    {
      var e := Await();
      ghost var s := View();
      var error := chain.Queue(owner, root, child, Some(id), count + 1, plan);
      CommitTick(s, e);
      ok := error.None?;
    }

    method AttachRetry(id: TaskId, count: nat, child: TaskId) returns (ok: bool)
      requires Stands(AttachToPlan, id, count) && driver.child == child
      modifies this, chain
      ensures launches == old(launches)
      ensures ok ==> Stands(RetryChain.QueueChild, id, count) && driver == old(driver).(pc := driver.pc)
      ensures !ok ==> Died()
    {
      var e := Await();
      ghost var s := View();
      var error := chain.Attach(owner, id, child);
      CommitTick(s, e);
      ok := error.None?;
    }

    /** The root was canceled during the backoff. */
    method CancelRetry(id: TaskId, count: nat, child: TaskId)
      requires Stands(CancelChild, id, count) && driver.child == child
      modifies this, chain
      ensures launches == old(launches) && RootSettled() && EndsFailed(child) && Closed(true, child)
    {
      var e := Await();
      ghost var s := View();
      Move(child, Stopped);
      CommitTick(s, e);
      AuditCancel(id, count, child);
      FinalizeFailure(child, count + 1);
    }

    method AuditCancel(id: TaskId, count: nat, child: TaskId)
      requires Stands(CancelAudit, id, count) && driver.child == child
      modifies this, chain
      ensures Stands(EndCurrent, child, count + 1) && launches == old(launches)
    {
      var e := Await();
      ghost var s := View();
      chain.Decide(owner, child, Canceled, e.verdict, e.now);
      CommitTick(s, e);
      e := Await();
      s := View();
      chain.Mark(owner, id, TransitionCanceled);
      CommitTick(s, e);
    }

    /** The child's lock is held elsewhere, or the child can no longer run. */
    method BusyRetry(id: TaskId, count: nat)
      requires Stands(LostAudit, id, count)
               || (Valid() && On(View(), BusyAudit) && driver.child == id && driver.count + 1 == count)
      modifies this, chain
      ensures launches == old(launches) && RootSettled() && EndsFailed(id) && Closed(true, id)
    {
      var e := Await();
      ghost var s := View();
      chain.Decide(owner, id, Blocked, e.verdict, e.now);
      CommitTick(s, e);
      FinalizeFailure(id, count);
    }

    /** The backoff is over: was the root canceled? */
    method CancelRequested(id: TaskId, count: nat) returns (cancel: bool)
      requires Stands(Backoff, id, count)
      modifies this, chain
      ensures launches == old(launches)
      ensures Valid() && driver == old(driver).(pc := if cancel then CancelChild else RunChild)
    {
      var e := Await();
      cancel := root in tasks && tasks[root].cancel;
      CommitTick(View(), e);
    }

    /** `run_retry_child_locked`: can the child's own lock be taken? */
    method LockChild(id: TaskId, count: nat) returns (locked: bool)
      requires Stands(RunChild, id, count)
      modifies this, chain
      ensures launches == old(launches)
      ensures !locked ==> Valid() && driver == old(driver).(pc := BusyAudit)
      ensures locked ==> Stands(Enter, old(driver).child, count + 1) && !driver.failed && !driver.recovering
    {
      var e := Await();
      CommitTick(View(), e);
      locked := e.allowed;
    }

    /** Backoff, cancel check, and the child's own attempt. `settled` when the chain ended here. */
    method RunRetry(id: TaskId, count: nat, child: TaskId) returns (settled: bool, outcome: Attempted)
      requires Stands(Backoff, id, count) && driver.child == child
      modifies this, chain
      ensures |launches| <= |old(launches)| + 1
      ensures settled ==> Closed(true, child)
      ensures !settled && outcome.Ran? ==> Stands(Top, child, count + 1) && driver.failed == outcome.failed && !driver.recovering
      ensures !settled && !outcome.Ran? ==> Died()
    {
      settled, outcome := true, Aborted;
      var cancel := CancelRequested(id, count);
      if cancel {
        CancelRetry(id, count, child);
        return;
      }
      var locked := LockChild(id, count);
      if !locked {
        BusyRetry(child, count + 1);
        return;
      }
      outcome := RunOneAttempt(child, count + 1);
      if outcome.NeverRan? {
        BusyRetry(child, count + 1);
      } else {
        settled := false;
      }
    }

    /** Ask for a decision and, if it is to retry, write the plan, make the child and queue it. */
    method PlanRetry(id: TaskId, count: nat) returns (settled: bool, child: Option<TaskId>)
      requires Stands(Choose, id, count) && !driver.recovering
      modifies this, chain
      ensures launches == old(launches)
      ensures settled ==> Closed(true, id)
      ensures !settled && child.Some? ==> Stands(Backoff, id, count) && driver.child == child.value && count + 1 <= MAX_AUTO_RETRIES
      ensures !settled && child.None? ==> Died()
    {
      var e := Await();
      CommitTick(View(), e);
      if !(e.retry && count + 1 <= MAX_AUTO_RETRIES) {
        RefuseRetry(id, count);
        return true, None;
      }
      settled, child := false, None;
      var plan := Clean(e.plan);
      var ok := WriteAhead(id, count, plan);
      if !ok {
        return;
      }
      child := CreateRetry(id, count, plan);
      if child.None? {
        return;
      }
      ok := QueueRetry(id, count, plan, child.value);
      if !ok {
        child := None;
      }
    }

    method RefuseRetry(id: TaskId, count: nat)
      requires Stands(Refuse, id, count)
      modifies this, chain
      ensures launches == old(launches) && RootSettled() && EndsFailed(id) && Closed(true, id)
    {
      var e := Await();
      ghost var s := View();
      chain.Decide(owner, id, Failed, e.verdict, e.now);
      CommitTick(s, e);
      FinalizeFailure(id, count);
    }

    /**
     Drive the remainder of one bounded chain from an attempt that has ended. `ok` when the call returned, with the
     attempt it returned about. At most one launch for each retry that is left.
     */
    method DriveChain(task: TaskId, captured: bool, retries: nat) returns (ok: bool, last: TaskId)
      requires Stands(Top, task, retries) && driver.failed == captured && !driver.recovering && retries <= MAX_AUTO_RETRIES
      modifies this, chain
      ensures |launches| <= |old(launches)| + MAX_AUTO_RETRIES - retries
      ensures Closed(ok, last)
    {
      var current, failed, count := task, captured, retries;
      while true
        invariant Stands(Top, current, count) && driver.failed == failed && !driver.recovering
        invariant retries <= count <= MAX_AUTO_RETRIES && |launches| <= |old(launches)| + count - retries
        decreases MAX_AUTO_RETRIES - count
      {
        var over := ReturnOrFail(current, failed, count);
        if over.Some? {
          return over.value, current;
        }
        var settled, outcome;
        settled, last, outcome := RetryOnce(current, count);
        if settled || !outcome.Ran? {
          return settled, last;
        }
        current, failed, count := last, outcome.failed, count + 1;
      }
    }

    /** Is the chain over with this attempt? Then whether the call returns; otherwise the attempt may be retried. */
    method ReturnOrFail(id: TaskId, failed: bool, count: nat) returns (over: Option<bool>)
      requires Stands(Top, id, count) && driver.failed == failed && !driver.recovering
      modifies this, chain
      ensures launches == old(launches)
      ensures over.Some? ==> Closed(over.value, id)
      ensures over.None? ==> Stands(Choose, id, count) && !driver.recovering
    {
      var next := Outcome(id, failed, count);
      if next.Ended? {
        FinalizeFailure(id, count);
        return Some(true);
      }
      return if next.Retriable? then None else Some(next.Returned?);
    }

    /** Plan a retry and carry it out. `last` is the attempt that the call has come to. */
    method RetryOnce(id: TaskId, count: nat) returns (settled: bool, last: TaskId, outcome: Attempted)
      requires Stands(Choose, id, count) && !driver.recovering
      modifies this, chain
      ensures |launches| <= |old(launches)| + if count < MAX_AUTO_RETRIES then 1 else 0
      ensures settled || !outcome.Ran? ==> Closed(settled, last)
      ensures !settled && outcome.Ran? ==>
                && Stands(Top, last, count + 1) && driver.failed == outcome.failed && !driver.recovering
                && count < MAX_AUTO_RETRIES
    {
      outcome := Aborted;
      var child;
      settled, child := PlanRetry(id, count);
      if settled || child.None? {
        return settled, id, outcome;
      }
      last := child.value;
      settled, outcome := RunRetry(id, count, last);
    }

    /** What the rows at the head of the loop say about an attempt, and a capture. */
    static ghost predicate HeadSays(seen: map<TaskId, Task>, root: TaskId, id: TaskId, failed: bool, next: Next) {
      id in seen && root in seen ==>
        next == if seen[id].status.Done? then (if id != root && seen[root].cancel then Next.Gone else Returned)
                else if seen[id].status.Stopped? || (id != root && !failed) then Ended
                else if failed then Retriable else Returned
    }

    /** The head of the loop: what the status of the attempt, and the capture, say. */
    method Outcome(id: TaskId, failed: bool, count: nat) returns (next: Next)
      requires Stands(Top, id, count) && driver.failed == failed
      modifies this, chain
      ensures launches == old(launches)
      ensures |states| >= 2 && On(Before(), Top) && Before().driver.task == id
      ensures HeadSays(Before().tasks, root, id, failed, next)
      ensures next.Gone? || next.Returned? ==> Closed(next.Returned?, id)
      ensures next.Ended? ==> Stands(EndCurrent, id, count)
      ensures next.Retriable? ==> Stands(Choose, id, count) && driver.recovering == old(driver).recovering
    {
      var e := Await();
      ghost var s := View();
      RootIsThere(owner, root, states, trace, s);
      if id !in tasks {
        next := Next.Gone;
        CommitTick(s, e);
      } else if tasks[id].status.Done? {
        next := CompleteRoot(id, count, e);
      } else {
        next := if tasks[id].status.Stopped? then Ended
                else if failed then Retriable
                else if id == root then Returned else Ended;
        CommitTick(s, e);
      }
    }

    /** `complete_logical_root_from_retry`: it raises when the cancellation of the root was requested. */
    method CompleteRoot(id: TaskId, count: nat, e: Env) returns (next: Next)
      requires Stands(Top, id, count) && id in tasks && tasks[id].status.Done? && root in tasks
      modifies this`tasks, this`driver, this`trace, this`states
      ensures Valid() && driver.Idle? && launches == old(launches)
      ensures |states| >= 2 && Before() == old(View())
      ensures next == if id != root && old(tasks)[root].cancel then Next.Gone else Returned
      ensures next.Gone? <==> EndsRaised()
      ensures next.Returned? ==> EndsAbout(id) && (id != root ==> RootSettled())
    {
      ghost var s := View();
      next := Returned;
      if id != root {
        if tasks[root].cancel {
          next := Next.Gone;
        }
        EndTask(root, Done);
      }
      CommitTick(s, e);
    }

    /** `run`: the logical root, from the start. */
    method Run() returns (ok: bool, last: TaskId)
      requires Valid() && driver.Idle?
      modifies this, chain
      ensures Valid() && driver.Idle?
      ensures |launches| <= |old(launches)| + 1 + MAX_AUTO_RETRIES
      ensures if old(root in tasks && (tasks[root].status.Waiting? || tasks[root].status.Active?)) then Closed(ok, last)
              else !ok && View() == old(View())
    {
      last := root;
      if root !in tasks || !(tasks[root].status.Waiting? || tasks[root].status.Active?) {
        return false, last;
      }
      EnterBy(StartRun);
      var outcome := RunOneAttempt(root, 0);
      if !outcome.Ran? {
        return false, last;
      }
      ok, last := DriveChain(root, outcome.failed, 0);
    }

    /** `run_from_retry_child`: a queued child, after the lease of a dead worker was reclaimed. */
    method RunFromRetryChild(child: TaskId) returns (ok: bool, last: TaskId)
      requires Valid() && driver.Idle?
      modifies this, chain
      ensures Valid() && driver.Idle?
      ensures |launches| <= |old(launches)| + MAX_AUTO_RETRIES
      ensures if old(Recoverable(View(), child)) then Closed(ok, last) else !ok && View() == old(View())
    {
      last := child;
      if !IsRecoverable(child) {
        return false, last;
      }
      EnterBy(Recover(child, true));
      var count := tasks[child].index;
      var outcome := RunOneAttempt(child, count);
      if !outcome.Ran? {
        return false, last;
      }
      ok, last := DriveChain(child, outcome.failed, count);
    }

    predicate IsRecoverable(child: TaskId)
      reads this, chain
      ensures IsRecoverable(child) == Recoverable(View(), child)
    {
      && child in tasks && root in tasks
      && tasks[child].auto && tasks[child].status.Waiting?
      && 1 <= tasks[child].index <= MAX_AUTO_RETRIES
      && tasks[root].status.Active? && !tasks[root].cancel
      && child in chain.attempts
      && chain.attempts[child].owner == owner && chain.attempts[child].root == root
      && chain.attempts[child].parent == tasks[child].parent && chain.attempts[child].index == tasks[child].index
      && chain.attempts[child].state.Queued? && chain.attempts[child].startedAt.None? && chain.attempts[child].provider == 0
    }

    /** Take up the chain without touching a table. */
    ghost method EnterBy(c: Choice)
      requires Valid() && (c.StartRun? || c.Recover?)
      modifies this`driver, this`trace, this`states
      ensures Valid() && View() == Step(old(View()), c)
    {
      RunGrows(states, trace, View(), c);
      states, trace, driver := states + [Step(View(), c)], trace + [c], Step(View(), c).driver;
    }
  }
}
