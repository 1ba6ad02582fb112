/** What the retry chain guarantees in every reachable state: write-ahead, one launch, one chain, faithful recovery. */
module RetryRecovery {
  import opened Common
  import opened RetryLedger
  import opened RetryChain
  import opened RetryChainInvariant
  import opened RetryChainSteps

  // ----- safety -----

  /** A retry child exists only after the journal names its index as the step after its parent. */
  lemma WriteAhead(owner: string, root: TaskId, cs: seq<Choice>, child: TaskId)
    requires child in Exec(Init(owner, root), cs).tasks && child != root
    ensures var s := Exec(Init(owner, root), cs);
            var row := s.tasks[child];
            && row.parent.Some? && row.parent.value in s.tasks && row.parent.value in s.ledger.transitions
            && row.index == s.ledger.transitions[row.parent.value].next == s.tasks[row.parent.value].index + 1
            && row.index <= MAX_AUTO_RETRIES
  {
    var s := Exec(Init(owner, root), cs);
    InvAlways(owner, root, cs);
    RootNeverMoves(Init(owner, root), cs);
    assert ChildOk(s, child);
  }

  lemma {:induction false} RootNeverMoves(s: State, cs: seq<Choice>)
    ensures Exec(s, cs).root == s.root && Exec(s, cs).owner == s.owner
  {
    if cs != [] {
      RootNeverMoves(s, cs[..|cs| - 1]);
    }
  }

  /** However often workers crash and recover, a retry child reaches the Host once, after its start was recorded. */
  lemma LaunchedAtMostOnce(owner: string, root: TaskId, cs: seq<Choice>, child: TaskId)
    requires child != root
    ensures var s := Exec(Init(owner, root), cs);
            && Launches(s.launches, child) <= 1
            && (Launches(s.launches, child) == 1 ==> child in s.ledger.attempts && s.ledger.attempts[child].startedAt.Some?)
  {
    var s := Exec(Init(owner, root), cs);
    InvAlways(owner, root, cs);
    RootNeverMoves(Init(owner, root), cs);
    assert Launches(s.launches, child) > 0 ==> child in s.tasks;
  }

  function Ancestor(s: State, id: TaskId, steps: nat): TaskId {
    if steps == 0 then id
    else
      var up := Ancestor(s, id, steps - 1);
      if up in s.tasks && s.tasks[up].parent.Some? then s.tasks[up].parent.value else up
  }

  /** The parents of an attempt are attempts, one per smaller index. */
  lemma {:induction false} AncestorsAreAttempts(s: State, id: TaskId, steps: nat)
    requires DurableOk(s) && id in s.ledger.attempts && steps <= s.ledger.attempts[id].index
    ensures var up := Ancestor(s, id, steps);
            && up in s.ledger.attempts
            && s.ledger.attempts[up].index == s.ledger.attempts[id].index - steps
  {
    assert AttemptOk(s, id);
    if steps > 0 {
      AncestorsAreAttempts(s, id, steps - 1);
      var down := Ancestor(s, id, steps - 1);
      assert AttemptOk(s, down);
      assert s.tasks[down].index > 0;
      assert ChildOk(s, down);
      assert TransitionOk(s, s.tasks[down].parent.value);
      assert AttemptOk(s, s.tasks[down].parent.value);
    }
  }

  lemma SlotDecidesAttempt(s: State, a: TaskId, b: TaskId)
    requires DurableOk(s) && a in s.ledger.attempts && b in s.ledger.attempts
    requires s.ledger.attempts[a].index == s.ledger.attempts[b].index
    ensures a == b
  {
    assert AttemptOk(s, a) && AttemptOk(s, b);
    assert SameSlot(s.ledger.attempts[a], s.ledger.attempts[b]);
  }

  lemma IndexZeroIsRoot(s: State, a: TaskId)
    requires DurableOk(s) && a in s.ledger.attempts
    ensures s.ledger.attempts[a].index <= MAX_AUTO_RETRIES
    ensures s.ledger.attempts[a].index == 0 ==> a == s.root
  {
    assert AttemptOk(s, a);
    assert s.tasks[a].auto ==> ChildOk(s, a);
  }

  /** Going up from any attempt meets every attempt of lower index, and ends at the root. */
  ghost predicate InOneChain(s: State, a: TaskId, b: TaskId)
    requires a in s.ledger.attempts && b in s.ledger.attempts
  {
    var i, j := s.ledger.attempts[a].index, s.ledger.attempts[b].index;
    && i <= MAX_AUTO_RETRIES
    && Ancestor(s, a, i) == s.root
    && (j <= i ==> Ancestor(s, a, i - j) == b)
    && (j == i ==> a == b)
  }

  lemma ChainIsLinear(s: State, a: TaskId, b: TaskId)
    requires DurableOk(s) && a in s.ledger.attempts && b in s.ledger.attempts
    ensures InOneChain(s, a, b)
  {
    var i, j := s.ledger.attempts[a].index, s.ledger.attempts[b].index;
    IndexZeroIsRoot(s, a);
    AncestorsAreAttempts(s, a, i);
    IndexZeroIsRoot(s, Ancestor(s, a, i));
    if j <= i {
      AncestorsAreAttempts(s, a, i - j);
      SlotDecidesAttempt(s, Ancestor(s, a, i - j), b);
      assert Ancestor(s, a, 0) == a;
    }
  }

  /** The attempts of a logical root form one linear chain in every reachable state. */
  lemma OneChain(owner: string, root: TaskId, cs: seq<Choice>, s: State, a: TaskId, b: TaskId)
    requires s == Exec(Init(owner, root), cs)
    requires a in s.ledger.attempts && b in s.ledger.attempts
    ensures s.root == root && InOneChain(s, a, b)
  {
    InvAlways(owner, root, cs);
    RootNeverMoves(Init(owner, root), cs);
    ChainIsLinear(s, a, b);
  }

  // ----- recovery -----

  /** Entering an attempt: which child, with which retry count and exclusions. */
  datatype Entry = Entry(child: TaskId, count: nat, excluded: set<int>)

  /** The first attempt that the driver enters, whatever else is done meanwhile; none if it gives up or dies before. */
  ghost function NextEntry(s: State, cs: seq<Choice>): Option<Entry>
    decreases |cs|
  {
    if s.driver.Idle? then None
    else if s.driver.pc.Enter? then Some(Entry(s.driver.task, s.driver.count, s.driver.excluded))
    else if cs == [] then None
    else NextEntry(Step(s, cs[0]), cs[1..])
  }

  predicate Finishing(pc: Pc) {
    HoldsChildOnly(pc) || pc.EndCurrent? || pc.EndRoot?
  }

  /** A driver at work is moved by its own steps and by its death, and by nothing else. */
  lemma OthersLeaveDriver(s: State, c: Choice)
    requires s.driver.Working? && !c.Tick? && !c.Crash?
    ensures Step(s, c).driver == s.driver
  {}

  lemma FinishingGoesOn(s: State, e: Env)
    requires s.driver.Working? && Finishing(s.driver.pc)
    ensures StepTick(s, e).driver.Idle? || Finishing(StepTick(s, e).driver.pc)
  {}

  lemma {:induction false} FinishingEntersNothing(s: State, cs: seq<Choice>)
    requires s.driver.Working? && Finishing(s.driver.pc)
    ensures NextEntry(s, cs).None?
    decreases |cs|
  {
    if cs != [] {
      var c := cs[0];
      if c.Tick? {
        FinishingGoesOn(s, c.env);
      } else if !c.Crash? {
        OthersLeaveDriver(s, c);
      }
      if Step(s, c).driver.Working? {
        FinishingEntersNothing(Step(s, c), cs[1..]);
      }
    }
  }

  /** What a driver that holds a plan will enter: the next index, with the exclusions of the plan, on the child it holds. */
  predicate Aims(d: Driver, x: Entry)
    requires d.Working?
  {
    x.count == d.count + 1 && x.excluded == d.plan.excluded && (HoldsChild(d.pc) ==> x.child == d.child)
  }

  /** One step of a driver that holds a plan: it enters what it aims at, keeps its aim, or gives up. */
  predicate KeepsAim(d: Driver, t: Driver)
    requires d.Working?
  {
    || t.Idle? || Finishing(t.pc)
    || (t.pc.Enter? && Aims(d, Entry(t.task, t.count, t.excluded)))
    || (&& AfterPlan(t.pc) && !t.pc.Enter? && t.task == d.task && t.count == d.count && t.plan == d.plan
        && (HoldsChild(d.pc) ==> HoldsChild(t.pc) && t.child == d.child))
  }

  lemma BirthStepKeepsAim(s: State, e: Env)
    requires s.driver.Working? && InBirth(s.driver.pc)
    ensures KeepsAim(s.driver, StepTick(s, e).driver)
  {}

  /** An agreeing audit is resumed with what it says, and it says what the plan says. */
  lemma CheckStepKeepsAim(s: State, e: Env)
    requires Inv(s) && s.driver.Working? && s.driver.pc.CheckAudit?
    ensures KeepsAim(s.driver, StepCheckAudit(s, e).driver)
  {
    var d := s.driver;
    assert ChildHeld(s);
  }

  lemma BackoffStepKeepsAim(s: State, e: Env)
    requires s.driver.Working? && (s.driver.pc.Backoff? || s.driver.pc.RunChild? || s.driver.pc.EndSource?)
    ensures KeepsAim(s.driver, StepTick(s, e).driver)
  {}

  lemma LateStepKeepsAim(s: State, e: Env)
    requires Inv(s) && s.driver.Working? && AfterPlan(s.driver.pc)
    requires !InBirth(s.driver.pc)
    ensures KeepsAim(s.driver, StepTick(s, e).driver)
  {
    if s.driver.pc.CheckAudit? {
      CheckStepKeepsAim(s, e);
    } else if HoldsChildOnly(s.driver.pc) {
      FinishingGoesOn(s, e);
    } else {
      BackoffStepKeepsAim(s, e);
    }
  }

  lemma PlanStepKeepsAim(s: State, e: Env)
    requires Inv(s) && s.driver.Working? && AfterPlan(s.driver.pc)
    ensures KeepsAim(s.driver, StepTick(s, e).driver)
  {
    if InBirth(s.driver.pc) {
      BirthStepKeepsAim(s, e);
    } else {
      LateStepKeepsAim(s, e);
    }
  }

  /** The same for any step at all. */
  lemma AnyStepKeepsAim(s: State, c: Choice)
    requires Inv(s) && s.driver.Working? && AfterPlan(s.driver.pc)
    ensures KeepsAim(s.driver, Step(s, c).driver)
  {
    if c.Tick? {
      PlanStepKeepsAim(s, c.env);
    } else if !c.Crash? {
      OthersLeaveDriver(s, c);
    }
  }

  lemma {:induction false} PlanDecidesEntry(s: State, cs: seq<Choice>)
    requires Inv(s) && s.driver.Working? && AfterPlan(s.driver.pc)
    ensures NextEntry(s, cs).Some? ==> Aims(s.driver, NextEntry(s, cs).value)
    decreases |cs|
  {
    if cs != [] {
      var t := Step(s, cs[0]);
      AnyStepKeepsAim(s, cs[0]);
      StepKeeps(s, cs[0]);
      if t.driver.Working? {
        if Finishing(t.driver.pc) {
          FinishingEntersNothing(t, cs[1..]);
        } else if AfterPlan(t.driver.pc) {
          PlanDecidesEntry(t, cs[1..]);
        }
      }
    }
  }

  /**
   From the decision on: whatever else is done, the attempt entered next has the next index, and excludes exactly the
   providers that the decision excludes.
   */
  lemma {:induction false} DecisionDecidesEntry(s: State, e: Env, cs: seq<Choice>)
    requires Inv(s) && On(s, Choose) && On(StepTick(s, e), WritePlan)
    ensures var x := NextEntry(StepTick(s, e), cs);
            x.Some? ==> x.value.count == s.driver.count + 1
                        && forall p :: p in x.value.excluded <==> p in e.plan.excluded && p > 0
  {
    TickKeeps(s, e);
    PlanIsOfDecision(s, e);
    WritingDecidesEntry(StepTick(s, e), cs);
  }

  /** What is written down is what was decided: the texts cut to their limits, and the positive provider ids. */
  lemma PlanIsOfDecision(s: State, e: Env)
    requires On(s, Choose) && On(StepTick(s, e), WritePlan)
    ensures var d, plan := StepTick(s, e).driver, StepTick(s, e).driver.plan;
            && d.task == s.driver.task && d.count == s.driver.count && e.retry && d.count < MAX_AUTO_RETRIES
            && plan.backoff == e.plan.backoff
            && (forall p :: p in plan.excluded <==> p in e.plan.excluded && p > 0)
            && IsCut(plan.code, e.plan.code, 100) && IsCut(plan.reason, e.plan.reason, 2000)
  {}

  lemma {:induction false} WritingDecidesEntry(s: State, cs: seq<Choice>)
    requires Inv(s) && On(s, WritePlan)
    ensures var x := NextEntry(s, cs);
            x.Some? ==> x.value.count == s.driver.count + 1 && x.value.excluded == s.driver.plan.excluded
    decreases |cs|
  {
    if cs != [] {
      var c, t := cs[0], Step(s, cs[0]);
      StepKeeps(s, c);
      if c.Tick? {
        PlanIsWritten(s, c.env);
        if t.driver.Working? {
          PlanDecidesEntry(t, cs[1..]);
        }
      } else if !c.Crash? {
        OthersLeaveDriver(s, c);
        WritingDecidesEntry(t, cs[1..]);
      }
    }
  }

  lemma PlanIsWritten(s: State, e: Env)
    requires On(s, WritePlan)
    ensures var t := StepTick(s, e); t.driver.Idle? || t.driver == s.driver.(pc := EndSource)
  {}

  predicate HasPlan(s: State) {
    s.driver.Working? && AfterPlan(s.driver.pc)
  }

  lemma OnlyOne(xs: set<TaskId>, a: TaskId, b: TaskId)
    requires |xs| == 1 && a in xs && b in xs
    ensures a == b
  {
    assert |xs - {a}| == 0;
  }

  /** Others who only change statuses, and further crashes. */
  predicate Quiet(cs: seq<Choice>) {
    forall c :: c in cs ==> c.Crash? || c.Interfere?
  }

  lemma {:induction false} QuietKeepsLedger(s: State, cs: seq<Choice>)
    requires Quiet(cs)
    ensures var t := Exec(s, cs);
            && t.ledger == s.ledger && t.root == s.root && t.owner == s.owner && t.tasks.Keys == s.tasks.Keys
            && (forall i :: i in s.tasks ==> SameLineage(s.tasks[i], t.tasks[i]))
            && (s.driver.Idle? ==> t.driver.Idle?)
  {
    if cs != [] {
      assert forall c :: c in cs[..|cs| - 1] ==> c in cs;
      QuietKeepsLedger(s, cs[..|cs| - 1]);
      assert cs[|cs| - 1] in cs;
    }
  }

  /** The same chain with no driver: rows may have other statuses. */
  ghost predicate Orphaned(s: State, u: State) {
    && u.driver.Idle? && u.ledger == s.ledger && u.root == s.root && u.owner == s.owner && u.tasks.Keys == s.tasks.Keys
    && forall i :: i in s.tasks ==> SameLineage(s.tasks[i], u.tasks[i])
  }

  lemma QuietOrphans(s: State, quiet: seq<Choice>)
    requires Quiet(quiet)
    ensures Orphaned(s, Exec(Step(s, Crash), quiet))
  {
    QuietKeepsLedger(Step(s, Crash), quiet);
  }

  /** An accepted adoption reloads from the journal the source, the count, the plan and the child. */
  lemma AdoptionReloadsPlan(s: State, u: State, allowed: bool)
    requires Inv(s) && HasPlan(s) && Orphaned(s, u)
    ensures var t := StepAdopt(u, s.driver.task, allowed);
            t.driver.Working? ==>
              && t == u.(driver := t.driver) && AfterPlan(t.driver.pc)
              && t.driver.task == s.driver.task && t.driver.count == s.driver.count && t.driver.plan == s.driver.plan
              && (HoldsChild(s.driver.pc) ==> HoldsChild(t.driver.pc) && t.driver.child == s.driver.child)
  {
    assert TransitionOk(s, s.driver.task);
    var claiming := Claiming(u, s.driver.count + 1);
    assert HoldsChild(s.driver.pc) ==> s.driver.child in claiming;
    if |claiming| == 1 && HoldsChild(s.driver.pc) {
      forall c | c in claiming ensures c == s.driver.child {
        OnlyOne(claiming, c, s.driver.child);
      }
    }
  }

  /**
   Crash-recovery refinement. Wherever the worker dies while it holds a plan, and whatever statuses change and workers
   crash before the journal is adopted: the attempt that the recovering driver enters has the count and exclusions of
   the attempt that the uninterrupted driver would have entered, and is the same child once there is one. On both sides
   anything may be done to the chain while the driver is under way.
   */
  lemma AdoptionRefinesUninterruptedDriver(
    owner: string, root: TaskId, cs: seq<Choice>, s: State, quiet: seq<Choice>, allowed: bool, es: seq<Choice>, fs: seq<Choice>)
    requires s == Exec(Init(owner, root), cs) && HasPlan(s) && Quiet(quiet)
    ensures var t := Step(Exec(Step(s, Crash), quiet), Adopt(s.driver.task, allowed));
            NextEntry(s, es).Some? && NextEntry(t, fs).Some? ==>
              var x, y := NextEntry(s, es).value, NextEntry(t, fs).value;
              && x.count == y.count && x.excluded == y.excluded
              && (HoldsChild(s.driver.pc) ==> x.child == y.child)
  {
    var u := Exec(Step(s, Crash), quiet);
    InvAlways(owner, root, cs);
    StepKeeps(s, Crash);
    RunKeeps(Step(s, Crash), quiet);
    QuietOrphans(s, quiet);
    AdoptedAgrees(s, u, allowed, es, fs);
  }

  lemma AdoptedAgrees(s: State, u: State, allowed: bool, es: seq<Choice>, fs: seq<Choice>)
    requires Inv(s) && HasPlan(s) && Orphaned(s, u) && Inv(u)
    ensures var t := StepAdopt(u, s.driver.task, allowed);
            NextEntry(s, es).Some? && NextEntry(t, fs).Some? ==>
              var x, y := NextEntry(s, es).value, NextEntry(t, fs).value;
              && x.count == y.count && x.excluded == y.excluded
              && (HoldsChild(s.driver.pc) ==> x.child == y.child)
  {
    var t := StepAdopt(u, s.driver.task, allowed);
    PlanDecidesEntry(s, es);
    AdoptKeeps(u, s.driver.task, allowed);
    if t.driver.Working? {
      AdoptionReloadsPlan(s, u, allowed);
      PlanDecidesEntry(t, fs);
    }
  }

  lemma {:induction false} RunKeeps(s: State, cs: seq<Choice>)
    requires Inv(s)
    ensures Inv(Exec(s, cs))
  {
    if cs != [] {
      RunKeeps(s, cs[..|cs| - 1]);
      StepKeeps(Exec(s, cs[..|cs| - 1]), cs[|cs| - 1]);
    }
  }

  lemma EntryAfter(s: State, c: Choice, cs: seq<Choice>)
    requires s.driver.Working? && !s.driver.pc.Enter?
    ensures NextEntry(s, [c] + cs) == NextEntry(Step(s, c), cs)
  {
    assert ([c] + cs)[1..] == cs;
  }

  /** Whose start the audit awaits: the attempt that is about to start, or the child during its backoff. */
  function Awaited(d: Driver): Option<Entry> {
    if d.Idle? then None
    else if BeforeStart(d.pc) then Some(Entry(d.task, d.count, d.excluded))
    else if d.pc.Backoff? || d.pc.RunChild? then Some(Entry(d.child, d.count + 1, d.plan.excluded))
    else None
  }

  /**
   The worker dies after the child was queued and before its start was recorded. After any further crashes and status
   changes, `run_from_retry_child` accepts the child exactly when the child still waits and the root still runs, and
   then the driver stands where the dead one was about to enter.
   */
  lemma RecoveryRefinesUninterruptedDriver(owner: string, root: TaskId, cs: seq<Choice>, quiet: seq<Choice>)
    requires Quiet(quiet) && Awaited(Exec(Init(owner, root), cs).driver).Some?
    requires Awaited(Exec(Init(owner, root), cs).driver).value.child != root
    ensures var s := Exec(Init(owner, root), cs);
            var x := Awaited(s.driver).value;
            var u := Exec(Step(s, Crash), quiet);
            var t := Step(u, Recover(x.child, true));
            && x.child in u.tasks && root in u.tasks
            && (t.driver.Working? <==>
                  u.tasks[x.child].status.Waiting? && u.tasks[root].status.Active? && !u.tasks[root].cancel)
            && (t.driver.Working? ==> NextEntry(t, []) == Some(x))
  {
    var s := Exec(Init(owner, root), cs);
    var x := Awaited(s.driver).value;
    InvAlways(owner, root, cs);
    RootNeverMoves(Init(owner, root), cs);
    QuietKeepsLedger(Step(s, Crash), quiet);
    AwaitedIsOnRecord(s);
  }

  /** The awaited child is a retry child whose audit row says queued and unstarted, with the exclusions it will be run with. */
  lemma AwaitedIsOnRecord(s: State)
    requires Inv(s) && Awaited(s.driver).Some? && Awaited(s.driver).value.child != s.root
    ensures var x := Awaited(s.driver).value;
            && x.child in s.tasks && s.tasks[x.child].auto && s.tasks[x.child].index == x.count
            && 1 <= x.count <= MAX_AUTO_RETRIES
            && AwaitsStart(s, x.child, x.excluded) && AttemptOk(s, x.child)
  {
    var x := Awaited(s.driver).value;
    assert ChildOk(s, x.child);
  }

  /** The other direction: what `run_from_retry_child` accepts is never a child that was already launched. */
  lemma RecoveredChildWasNeverLaunched(owner: string, root: TaskId, cs: seq<Choice>, child: TaskId)
    ensures var s := Exec(Init(owner, root), cs);
            s.driver.Idle? && Step(s, Recover(child, true)).driver.Working? ==>
              Launches(s.launches, child) == 0 && child in s.ledger.attempts && s.ledger.attempts[child].startedAt.None?
  {
    InvAlways(owner, root, cs);
  }
}
