/** Which outcome the logical root gets, stated on the task rows, for every run of the retry driver. */
module RetryOutcome {
  import opened Common
  import opened RetryLedger
  import opened RetryChain
  import opened RetryChainInvariant
  import opened RetryChainSteps

  /**
   From the rows `before` to the rows `after` this task was ended with this status: an open task whose cancellation was
   requested ends canceled, a terminal one stays as it was, and no other row is touched.
   */
  ghost predicate EndsAs(before: map<TaskId, Task>, after: map<TaskId, Task>, id: TaskId, status: Status) {
    && id in before && after.Keys == before.Keys
    && (forall i :: i in before && i != id ==> after[i] == before[i])
    && after[id] == before[id].(status := after[id].status)
    && after[id].status == if before[id].status.Done? then Done
                           else if before[id].status.Broken? then Broken
                           else if before[id].status.Stopped? || before[id].cancel then Stopped
                           else status
  }

  predicate RootOpen(s: State) {
    s.root in s.tasks && (s.tasks[s.root].status.Waiting? || s.tasks[s.root].status.Active?)
  }

  /** The head of the loop finds a succeeded retry child. */
  predicate ChildSucceeded(s: State) {
    On(s, Top) && s.driver.task != s.root && s.driver.task in s.tasks && s.tasks[s.driver.task].status.Done?
  }

  predicate HostEnds(s: State, c: Choice, outcome: HostOutcome) {
    On(s, Hosting) && s.driver.task == s.root && c.Tick? && c.env.outcome == outcome
  }

  /** `finalize_logical_root_failure` comes to the root, or the root was not ready to run. */
  predicate ComesToFailure(s: State, c: Choice) {
    c.Tick? && (On(s, EndRoot) || (On(s, BlockTask) && s.driver.task == s.root))
  }

  /** This step makes an open root succeed. */
  predicate RootSucceeds(s: State, c: Choice) {
    RootOpen(s) && ((c.Tick? && ChildSucceeded(s) && !s.tasks[s.root].cancel) || HostEnds(s, c, HostSucceeded))
  }

  predicate RootFails(s: State, c: Choice) {
    RootOpen(s) && ((ComesToFailure(s, c) && !s.tasks[s.root].cancel) || HostEnds(s, c, HostFailed))
  }

  predicate RootStops(s: State, c: Choice) {
    RootOpen(s) && (((ComesToFailure(s, c) || (c.Tick? && ChildSucceeded(s))) && s.tasks[s.root].cancel) || HostEnds(s, c, HostCanceled))
  }

  /** Nobody but the driver changes the status of the root. */
  predicate LeavesRoot(s: State, c: Choice) {
    c.Interfere? && c.id == s.root && s.root in s.tasks ==> c.status == s.tasks[s.root].status
  }

  ghost predicate RootIsLeft(s: State, cs: seq<Choice>) {
    forall k {:trigger cs[k]} :: 0 <= k < |cs| ==> LeavesRoot(Exec(s, cs[..k]), cs[k])
  }

  // ----- one step -----

  /** What one step does to the status of the root. */
  predicate RootStep(s: State, c: Choice, t: State)
    requires s.root in s.tasks && s.root in t.tasks
  {
    t.tasks[s.root].status ==
    if RootSucceeds(s, c) then Done
    else if RootFails(s, c) then Broken
    else if RootStops(s, c) then Stopped
    else if RootOpen(s) then t.tasks[s.root].status
    else s.tasks[s.root].status
  }

  predicate StaysOpen(s: State, c: Choice, t: State) {
    RootOpen(s) && !RootSucceeds(s, c) && !RootFails(s, c) && !RootStops(s, c) ==> RootOpen(t)
  }

  /** The counters at which a tick may write the status of the root. */
  predicate WritesRoot(pc: Pc) {
    pc.BlockTask? || pc.Launch? || pc.Hosting? || pc.Top? || pc.EndRoot?
  }

  /** Elsewhere the row of the root stays as it is. */
  lemma AttemptLeavesRoot(s: State, e: Env)
    requires s.driver.Working? && InAttempt(s.driver.pc) && !WritesRoot(s.driver.pc)
    ensures StepTick(s, e).tasks == s.tasks
  {}

  lemma LoopLeavesRoot(s: State, e: Env)
    requires Inv(s) && s.driver.Working? && (InPlan(s.driver.pc) || InBirth(s.driver.pc)) && !WritesRoot(s.driver.pc)
    ensures s.root in StepTick(s, e).tasks && StepTick(s, e).tasks[s.root] == s.tasks[s.root]
  {
    if s.driver.pc.EndSource? {
      SourceLeavesRoot(s);
    } else {
      PlanLeavesRows(s, e);
    }
  }

  lemma SourceLeavesRoot(s: State)
    requires s.root in s.tasks && On(s, EndSource)
    ensures s.root in StepEndSource(s).tasks && StepEndSource(s).tasks[s.root] == s.tasks[s.root]
  {}

  /** Rows are added only. */
  lemma PlanLeavesRows(s: State, e: Env)
    requires s.driver.Working? && (InPlan(s.driver.pc) || InBirth(s.driver.pc))
    requires !WritesRoot(s.driver.pc) && !s.driver.pc.EndSource?
    ensures forall i :: i in s.tasks ==> i in StepTick(s, e).tasks && StepTick(s, e).tasks[i] == s.tasks[i]
  {}

  lemma LateLeavesRoot(s: State, e: Env)
    requires Inv(s) && s.driver.Working? && !InAttempt(s.driver.pc) && !InPlan(s.driver.pc) && !InBirth(s.driver.pc)
    requires !WritesRoot(s.driver.pc)
    ensures s.root in StepTick(s, e).tasks && StepTick(s, e).tasks[s.root] == s.tasks[s.root]
  {
    assert HoldsChild(s.driver.pc) ==> ChildOk(s, s.driver.child);
  }

  ghost predicate StepTold(s: State, c: Choice, t: State) {
    s.root in s.tasks && s.root in t.tasks && RootStep(s, c, t) && StaysOpen(s, c, t)
  }

  lemma LaunchWritesRoot(s: State, e: Env)
    requires s.root in s.tasks && On(s, Launch)
    ensures StepTold(s, Tick(e), StepLaunch(s))
  {}

  lemma HostWritesRoot(s: State, e: Env)
    requires s.root in s.tasks && On(s, Hosting)
    ensures StepTold(s, Tick(e), StepHosting(s, e))
  {}

  lemma EndWritesRoot(s: State, e: Env)
    requires s.root in s.tasks && (On(s, BlockTask) || On(s, EndRoot))
    ensures StepTold(s, Tick(e), StepTick(s, e))
  {}

  lemma TopWritesRoot(s: State, e: Env)
    requires Inv(s) && On(s, Top)
    ensures StepTold(s, Tick(e), StepTick(s, e))
  {
    if s.tasks[s.driver.task].status.Done? {
      SuccessIsCompleted(s, e);
    } else {
      HeadLeavesRows(s, e);
    }
  }

  lemma HeadLeavesRows(s: State, e: Env)
    requires Inv(s) && On(s, Top) && !s.tasks[s.driver.task].status.Done?
    ensures StepTick(s, e).tasks == s.tasks
  {}

  lemma AnyStep(s: State, c: Choice)
    requires Inv(s) && LeavesRoot(s, c)
    ensures StepTold(s, c, Step(s, c))
  {
    if c.Tick? && s.driver.Working? {
      var pc := s.driver.pc;
      if pc.Launch? {
        LaunchWritesRoot(s, c.env);
      } else if pc.Hosting? {
        HostWritesRoot(s, c.env);
      } else if pc.BlockTask? || pc.EndRoot? {
        EndWritesRoot(s, c.env);
      } else if pc.Top? {
        TopWritesRoot(s, c.env);
      } else {
        TickLeavesRoot(s, c.env);
      }
    } else {
      OtherStep(s, c);
    }
  }

  lemma OtherStep(s: State, c: Choice)
    requires s.root in s.tasks && LeavesRoot(s, c) && (c.Tick? ==> s.driver.Idle?)
    ensures StepTold(s, c, Step(s, c))
  {}

  lemma TickLeavesRoot(s: State, e: Env)
    requires Inv(s) && s.driver.Working? && !WritesRoot(s.driver.pc)
    ensures s.root in StepTick(s, e).tasks && StepTick(s, e).tasks[s.root] == s.tasks[s.root]
  {
    if InAttempt(s.driver.pc) {
      AttemptLeavesRoot(s, e);
    } else if InPlan(s.driver.pc) || InBirth(s.driver.pc) {
      LoopLeavesRoot(s, e);
    } else {
      LateLeavesRoot(s, e);
    }
  }

  // ----- every run -----

  /** At some step of the run this happened. */
  ghost predicate Happened(s: State, cs: seq<Choice>, what: (State, Choice) -> bool) {
    cs != []
    && (Happened(s, cs[..|cs| - 1], what) || what(Exec(s, cs[..|cs| - 1]), cs[|cs| - 1]))
  }

  /** The status of the root tells which of the three happened. */
  ghost predicate Told(s: State, cs: seq<Choice>, t: State) {
    && t.root in t.tasks
    && (t.tasks[t.root].status.Done? <==> Happened(s, cs, RootSucceeds))
    && (t.tasks[t.root].status.Broken? <==> Happened(s, cs, RootFails))
    && (t.tasks[t.root].status.Stopped? <==> Happened(s, cs, RootStops))
  }

  lemma ToldMore(s: State, cs: seq<Choice>)
    requires cs != [] && Told(s, cs[..|cs| - 1], Exec(s, cs[..|cs| - 1])) && Inv(Exec(s, cs[..|cs| - 1]))
    requires LeavesRoot(Exec(s, cs[..|cs| - 1]), cs[|cs| - 1])
    ensures Told(s, cs, Exec(s, cs))
  {
    var m, c := Exec(s, cs[..|cs| - 1]), cs[|cs| - 1];
    AnyStep(m, c);
  }

  /**
   In every run of driving, crashing and recovering in which nobody else ends the root: it has succeeded if and only if,
   while it was open and not canceled, the loop found a succeeded retry child or its own Host call succeeded; it has
   failed if and only if, in the same way, a failure came to it; and it was canceled if and only if its cancellation was
   requested when either happened, or its Host call ended canceled.
   */
  lemma {:induction false} RootOutcomeExactly(owner: string, root: TaskId, cs: seq<Choice>)
    requires RootIsLeft(Init(owner, root), cs)
    ensures Told(Init(owner, root), cs, Exec(Init(owner, root), cs))
  {
    var s := Init(owner, root);
    if cs != [] {
      var n := |cs| - 1;
      assert LeavesRoot(Exec(s, cs[..n]), cs[n]);
      forall k | 0 <= k < n ensures LeavesRoot(Exec(s, cs[..n][..k]), cs[..n][k]) {
        assert cs[..n][..k] == cs[..k] && cs[..n][k] == cs[k];
      }
      RootOutcomeExactly(owner, root, cs[..n]);
      InvAlways(owner, root, cs[..n]);
      ToldMore(s, cs);
    }
  }

  // ----- what the end of an attempt leads to -----

  /** An open root has failed, or was canceled if that was asked for. */
  predicate RootHasFailed(s: State, t: State) {
    RootOpen(s) ==> s.root in t.tasks && t.tasks[s.root].status == if s.tasks[s.root].cancel then Stopped else Broken
  }

  predicate IsEnded(s: State, id: TaskId) {
    id in s.tasks && s.tasks[id].status.Terminal()
  }

  lemma AttemptIsEnded(s: State, e: Env)
    requires Inv(s) && On(s, EndCurrent)
    ensures var t := StepTick(s, e);
            && t.driver == s.driver.(pc := EndRoot) && t.ledger == s.ledger && t.launches == s.launches && t.root == s.root
            && s.root in t.tasks && t.tasks[s.root] == s.tasks[s.root]
            && (if s.driver.task == s.root then t.tasks == s.tasks
                else EndsAs(s.tasks, t.tasks, s.driver.task, Broken) && IsEnded(t, s.driver.task))
  {}

  /** A retried attempt has failed, unless it is the root; then its child is born, waiting, with the next index. */
  lemma SourceIsEnded(s: State, e: Env)
    requires Inv(s) && On(s, EndSource)
    ensures var t := StepTick(s, e);
            && t == s.(tasks := t.tasks, driver := s.driver.(pc := Discard))
            && if s.driver.task == s.root then t.tasks == s.tasks else EndsAs(s.tasks, t.tasks, s.driver.task, Broken)
  {}

  lemma ChildIsBorn(s: State, e: Env)
    requires Inv(s) && On(s, CreateChild)
    ensures var t := StepTick(s, e);
            if e.allowed && e.newId !in s.tasks then
              && t == s.(tasks := t.tasks, driver := s.driver.(pc := AttachToPlan, child := e.newId))
              && t.tasks == s.tasks[e.newId := t.tasks[e.newId]]
              && t.tasks[e.newId] == Task(true, Some(s.driver.task), s.driver.count + 1, Waiting, false)
            else t == s.(driver := Idle)
  {}

  lemma RootIsEnded(s: State, e: Env)
    requires s.root in s.tasks && On(s, EndRoot)
    ensures var t := StepTick(s, e);
            && t.driver.Idle? && t.ledger == s.ledger && t.launches == s.launches && t.root == s.root
            && EndsAs(s.tasks, t.tasks, s.root, Broken) && RootHasFailed(s, t)
            && IsEnded(t, s.root) && (IsEnded(s, s.driver.task) ==> IsEnded(t, s.driver.task))
  {}

  /** Two steps end the attempt and the root. */
  lemma ChainFails(s: State, e: Env, f: Env)
    requires Inv(s) && On(s, EndCurrent)
    ensures var u := StepTick(StepTick(s, e), f);
            u.driver.Idle? && u.ledger == s.ledger && u.launches == s.launches && RootHasFailed(s, u) && IsEnded(u, s.driver.task)
  {
    AttemptIsEnded(s, e);
    RootIsEnded(StepTick(s, e), f);
  }

  /** The head of the loop finds a succeeded attempt: it is the root, or it completes the root. */
  lemma SuccessIsCompleted(s: State, e: Env)
    requires Inv(s) && On(s, Top) && s.tasks[s.driver.task].status.Done?
    ensures var t := StepTick(s, e);
            && t.driver.Idle? && t.ledger == s.ledger && t.launches == s.launches
            && (if s.driver.task == s.root then t.tasks == s.tasks else EndsAs(s.tasks, t.tasks, s.root, Done))
  {}

  /** A canceled attempt, and a child whose failure was not captured, fail the root in three steps. */
  lemma UncapturedFailureEndsChain(s: State, e: Env, f: Env, g: Env)
    requires Inv(s) && On(s, Top) && !s.tasks[s.driver.task].status.Done?
    requires s.tasks[s.driver.task].status.Stopped? || (!s.driver.failed && s.driver.task != s.root)
    ensures var u := StepTick(StepTick(StepTick(s, e), f), g);
            u.driver.Idle? && u.ledger == s.ledger && u.launches == s.launches && RootHasFailed(s, u) && IsEnded(u, s.driver.task)
  {
    var t := StepTick(s, e);
    assert t == At(s, EndCurrent);
    AtKeeps(s, EndCurrent);
    ChainFails(t, f, g);
  }

  /** A captured failure is put up for retry, and a root without one is left as it ended. */
  lemma CapturedFailureIsJudged(s: State, e: Env)
    requires Inv(s) && On(s, Top) && !s.tasks[s.driver.task].status.Done? && !s.tasks[s.driver.task].status.Stopped?
    ensures s.driver.failed ==> StepTick(s, e) == s.(driver := s.driver.(pc := Choose))
    ensures !s.driver.failed && s.driver.task == s.root ==> StepTick(s, e) == s.(driver := Idle)
  {}

  /** A refused retry fails the root in four steps, with its verdict on record and no plan. */
  lemma RefusalEndsChain(s: State, e: Env, f: Env, g: Env, h: Env)
    requires Inv(s) && On(s, Choose) && !(e.retry && s.driver.count + 1 <= MAX_AUTO_RETRIES)
    ensures var id, u := s.driver.task, StepTick(StepTick(StepTick(StepTick(s, e), f), g), h);
            && u.driver.Idle? && u.launches == s.launches && u.ledger.transitions == s.ledger.transitions
            && RootHasFailed(s, u) && IsEnded(u, id)
            && id in u.ledger.attempts && u.ledger.attempts[id].state.Failed?
  {
    var t := StepTick(s, e);
    assert t == At(s, Refuse);
    AtKeeps(s, Refuse);
    RefusalIsRecorded(t, f);
    TickKeeps(t, f);
    ChainFails(StepTick(t, f), g, h);
  }

  lemma RefusalIsRecorded(s: State, e: Env)
    requires Inv(s) && On(s, Refuse)
    ensures var id, t := s.driver.task, StepTick(s, e);
            && On(t, EndCurrent) && t.driver.task == id && t.tasks == s.tasks && t.root == s.root && t.launches == s.launches
            && t.ledger.transitions == s.ledger.transitions
            && id in t.ledger.attempts && t.ledger.attempts[id].state.Failed?
  {
    assert AttemptOk(s, s.driver.task);
  }

  // ----- what a Host call leads to -----

  /** The status an open attempt gets from its Host. */
  function HostStatus(outcome: HostOutcome): Status {
    match outcome
    case HostSucceeded => Done
    case HostCanceled => Stopped
    case HostCaptured => Active
    case HostFailed => Broken
  }

  predicate AttemptOpen(s: State, id: TaskId) {
    id in s.tasks && (s.tasks[id].status.Waiting? || s.tasks[id].status.Active?)
  }

  lemma HostIsShown(s: State, e: Env)
    requires Inv(s) && On(s, Hosting) && AttemptOpen(s, s.driver.task)
    ensures var id, t := s.driver.task, StepTick(s, e);
            && t.ledger == s.ledger && t.root == s.root && t.owner == s.owner
            && t.driver == s.driver.(pc := SettleAudit, failed := e.outcome.HostCaptured?)
            && t.tasks == s.tasks[id := s.tasks[id].(status := HostStatus(e.outcome))]
  {}

  /** The verdict on record follows the status; only a failure that was captured waits for its decision. */
  lemma AuditIsSettled(s: State, e: Env)
    requires Inv(s) && On(s, SettleAudit)
    ensures var id, t := s.driver.task, StepTick(s, e);
            && t.tasks == s.tasks && t.root == s.root && t.driver == s.driver.(pc := Top) && id in t.ledger.attempts
            && t.ledger.attempts[id].state ==
               (match s.tasks[id].status
                case Done => Succeeded
                case Stopped => Canceled
                case Broken => if s.driver.failed then s.ledger.attempts[id].state else Failed
                case _ => s.ledger.attempts[id].state)
  {
    assert AttemptOk(s, s.driver.task);
  }

  /** From the Host to the logical root: a retry child that succeeds completes an open root in three steps. */
  lemma ChildSuccessCompletesRoot(s: State, e: Env, f: Env, g: Env)
    requires Inv(s) && On(s, Hosting) && AttemptOpen(s, s.driver.task) && e.outcome.HostSucceeded? && s.driver.task != s.root
    ensures var id, u := s.driver.task, StepTick(StepTick(StepTick(s, e), f), g);
            && u.driver.Idle? && id in u.tasks && u.tasks[id].status.Done?
            && id in u.ledger.attempts && u.ledger.attempts[id].state.Succeeded?
            && (RootOpen(s) ==> u.tasks[s.root].status == if s.tasks[s.root].cancel then Stopped else Done)
  {
    var t := StepTick(s, e);
    HostIsShown(s, e);
    TickKeeps(s, e);
    AuditIsSettled(t, f);
    TickKeeps(t, f);
    SuccessIsCompleted(StepTick(t, f), g);
  }

  /** A captured failure comes to its decision with nothing ended, and a failure that was not captured ends the chain. */
  lemma CapturedFailureIsRetriable(s: State, e: Env, f: Env, g: Env)
    requires Inv(s) && On(s, Hosting) && AttemptOpen(s, s.driver.task) && e.outcome.HostCaptured?
    ensures var id, u := s.driver.task, StepTick(StepTick(StepTick(s, e), f), g);
            On(u, Choose) && u.driver.task == id && AttemptOpen(u, id) && (RootOpen(s) ==> RootOpen(u))
  {
    var t := StepTick(s, e);
    HostIsShown(s, e);
    TickKeeps(s, e);
    AuditIsSettled(t, f);
    TickKeeps(t, f);
    CapturedFailureIsJudged(StepTick(t, f), g);
  }

  /** The start is on record, with its provider, before the Host is called, and the call is counted. */
  lemma StartThenLaunch(s: State, e: Env, f: Env)
    requires Inv(s) && On(s, RetryChain.Mark)
    ensures var id, t, u := s.driver.task, StepTick(s, e), StepTick(StepTick(s, e), f);
            && t.launches == s.launches && id in t.ledger.attempts
            && t.ledger.attempts[id].state.Running? && t.ledger.attempts[id].provider == e.provider
            && t.ledger.attempts[id].startedAt.Some?
            && u.launches == s.launches + [id] && On(u, Hosting) && u.ledger == t.ledger
            && (AttemptOpen(s, id) ==> id in u.tasks && u.tasks[id].status.Active?)
  {
    assert AttemptOk(s, s.driver.task);
    StartedContents(s.ledger, s.owner, s.driver.task, e.provider, e.now);
    assert StepTick(s, e) == StepMark(s, e);
    assert StepTick(StepTick(s, e), f) == StepLaunch(StepMark(s, e));
  }

  /** An attempt that cannot run is blocked on record: not ready, lost, or its lock held elsewhere. */
  lemma BlockedIsRecorded(s: State, e: Env)
    requires Inv(s) && (On(s, BlockAudit) || On(s, LostAudit) || On(s, BusyAudit))
    ensures var id, t := if On(s, BusyAudit) then s.driver.child else s.driver.task, StepTick(s, e);
            id in s.ledger.attempts ==> id in t.ledger.attempts && t.ledger.attempts[id].state.Blocked?
  {
    var id := if On(s, BusyAudit) then s.driver.child else s.driver.task;
    assert id in s.ledger.attempts ==> AttemptOk(s, id);
  }

  /** Both ends leave a terminal row as it is. */
  lemma EndsLeaveChild(s: State, e: Env, f: Env)
    requires Inv(s) && On(s, EndCurrent) && IsEnded(s, s.driver.task) && s.driver.task != s.root
    ensures var u := StepTick(StepTick(s, e), f); s.driver.task in u.tasks && u.tasks[s.driver.task] == s.tasks[s.driver.task]
  {
    var t := StepTick(s, e);
    assert t.tasks == s.tasks;
    AttemptIsEnded(s, e);
    RootIsEnded(t, f);
  }

  /** The root was canceled during the backoff: the child is stopped, and its verdict recorded. */
  lemma BackoffCancelStopsChild(s: State, e: Env, f: Env, g: Env)
    requires Inv(s) && On(s, Backoff) && s.root in s.tasks && s.tasks[s.root].cancel
    ensures var child, t := s.driver.child, StepTick(StepTick(StepTick(s, e), f), g);
            && On(t, CancelMark) && t.driver == s.driver.(pc := CancelMark) && t.root == s.root && t.owner == s.owner
            && t.launches == s.launches && t.ledger.transitions == s.ledger.transitions
            && s.root in t.tasks && t.tasks[s.root] == s.tasks[s.root]
            && IsEnded(t, child) && (AttemptOpen(s, child) ==> t.tasks[child].status.Stopped?)
            && child in t.ledger.attempts && t.ledger.attempts[child].state.Canceled?
  {
    var s1 := StepTick(s, e);
    assert s1 == At(s, CancelChild);
    AtKeeps(s, CancelChild);
    StopsChild(s1, f, g);
  }

  lemma StopsChild(s: State, f: Env, g: Env)
    requires Inv(s) && On(s, CancelChild) && s.root in s.tasks && s.driver.child in s.ledger.attempts
    ensures var child, t := s.driver.child, StepTick(StepTick(s, f), g);
            && On(t, CancelMark) && t.driver == s.driver.(pc := CancelMark) && t.root == s.root && t.owner == s.owner
            && t.launches == s.launches && t.ledger.transitions == s.ledger.transitions
            && s.root in t.tasks && t.tasks[s.root] == s.tasks[s.root]
            && IsEnded(t, child) && (AttemptOpen(s, child) ==> t.tasks[child].status.Stopped?)
            && child in t.ledger.attempts && t.ledger.attempts[child].state.Canceled?
  {
    var child := s.driver.child;
    assert ChildOk(s, child) && AttemptOk(s, child);
    assert StepTick(s, f) == At(Moved(s, child, Stopped), CancelAudit);
  }

  /** Then its step is closed as canceled, and the root ends. */
  lemma CanceledChildEndsChain(s: State, e: Env, f: Env, g: Env)
    requires Inv(s) && On(s, CancelMark) && IsEnded(s, s.driver.child)
    ensures var child, p, u := s.driver.child, s.driver.task, StepTick(StepTick(StepTick(s, e), f), g);
            && u.driver.Idle? && u.launches == s.launches && RootHasFailed(s, u)
            && child in u.tasks && u.tasks[child] == s.tasks[child] && u.ledger.attempts == s.ledger.attempts
            && p in u.ledger.transitions && u.ledger.transitions[p].state.TransitionCanceled?
  {
    var t := StepTick(s, e);
    ClosesStep(s, e);
    TickKeeps(s, e);
    ChainFails(t, f, g);
    EndsLeaveChild(t, f, g);
  }

  lemma ClosesStep(s: State, e: Env)
    requires Inv(s) && On(s, CancelMark)
    ensures var child, p, t := s.driver.child, s.driver.task, StepTick(s, e);
            && On(t, EndCurrent) && t.driver.task == child && child != s.root && t.tasks == s.tasks && t.root == s.root
            && t.launches == s.launches && t.ledger.attempts == s.ledger.attempts
            && p in t.ledger.transitions && t.ledger.transitions[p].state.TransitionCanceled?
  {
    assert TransitionOk(s, s.driver.task) && ChildOk(s, s.driver.child);
  }
}
