/** The invariant of the retry chain, kept by every step of driving, crashing, interfering and recovering. */
module RetryChainInvariant {
  import opened Common
  import opened RetryLedger
  import opened RetryChain

  // ----- durable part -----

  /** Write-ahead: every retry child has a durable transition of its parent that names its index. */
  ghost predicate TasksOk(s: State) {
    && s.root in s.tasks
    && (forall t :: t in s.tasks && !s.tasks[t].auto ==> t == s.root && s.tasks[t].index == 0)
    && (forall t {:trigger ChildOk(s, t)} :: t in s.tasks && s.tasks[t].auto ==> ChildOk(s, t))
  }

  ghost predicate ChildOk(s: State, t: TaskId)
    requires t in s.tasks
  {
    var row := s.tasks[t];
    && row.auto && t != s.root
    && row.parent.Some? && row.parent.value in s.tasks
    && row.index == s.tasks[row.parent.value].index + 1 && row.index <= MAX_AUTO_RETRIES
    && row.parent.value in s.ledger.transitions
    && s.ledger.transitions[row.parent.value].next == row.index
  }

  ghost predicate JournalOk(s: State) {
    forall p {:trigger TransitionOk(s, p)} :: p in s.ledger.transitions ==> TransitionOk(s, p)
  }

  ghost predicate TransitionOk(s: State, p: TaskId)
    requires p in s.ledger.transitions
  {
    var t := s.ledger.transitions[p];
    && p in s.tasks && p in s.ledger.attempts
    && t.owner == s.owner && t.root == s.root
    && t.source == s.tasks[p].index && t.next == t.source + 1 && t.next <= MAX_AUTO_RETRIES
    && (t.child.Some? ==>
          t.child.value in s.tasks && s.tasks[t.child.value].auto && s.tasks[t.child.value].parent == Some(p))
  }

  ghost predicate AttemptsOk(s: State) {
    forall a {:trigger AttemptOk(s, a)} :: a in s.ledger.attempts ==> AttemptOk(s, a)
  }

  ghost predicate AttemptOk(s: State, a: TaskId)
    requires a in s.ledger.attempts
  {
    && a in s.tasks
    && s.ledger.attempts[a].owner == s.owner && s.ledger.attempts[a].root == s.root
    && s.ledger.attempts[a].index == s.tasks[a].index && s.ledger.attempts[a].parent == s.tasks[a].parent
  }

  function Launches(log: seq<TaskId>, id: TaskId): nat {
    if log == [] then 0 else Launches(log[..|log| - 1], id) + (if log[|log| - 1] == id then 1 else 0)
  }

  /** A launched retry child has its start recorded, and was launched once. */
  ghost predicate LaunchesOk(s: State) {
    && (forall c {:trigger Launches(s.launches, c)} :: Launches(s.launches, c) > 0 ==> c in s.tasks)
    && (forall c {:trigger Launches(s.launches, c)} :: c in s.tasks && s.tasks[c].auto ==>
          && Launches(s.launches, c) <= 1
          && (Launches(s.launches, c) > 0 ==> c in s.ledger.attempts && s.ledger.attempts[c].startedAt.Some?))
  }

  ghost predicate IsClean(p: Plan) {
    Clean(p) == p
  }

  /** Plans in the journal are clean. */
  ghost predicate PlansClean(s: State) {
    forall p {:trigger IsClean(s.ledger.transitions[p].plan)} :: p in s.ledger.transitions ==> IsClean(s.ledger.transitions[p].plan)
  }

  ghost predicate DurableOk(s: State) {
    TasksOk(s) && JournalOk(s) && AttemptsOk(s) && Linear(s.ledger) && LaunchesOk(s) && PlansClean(s)
  }

  // ----- volatile part -----

  /** Counters of `_run_one_attempt` before the start is recorded. */
  predicate BeforeStart(pc: Pc) {
    pc.Enter? || pc.QueueAudit? || pc.Preflight? || pc.StartQueue? || pc.Mark?
  }

  /** The audit row says: this child waits, unstarted, with exactly these exclusions. */
  ghost predicate AwaitsStart(s: State, id: TaskId, excluded: set<int>) {
    && id in s.ledger.attempts
    && s.ledger.attempts[id].state.Queued? && s.ledger.attempts[id].startedAt.None? && s.ledger.attempts[id].provider == 0
    && s.ledger.attempts[id].trigger.excluded == excluded
    && Launches(s.launches, id) == 0
  }

  predicate AfterPlan(pc: Pc) {
    || pc.EndSource? || pc.Discard? || pc.CreateChild? || pc.AttachToPlan? || pc.QueueChild? || pc.CheckAudit?
    || pc.Backoff? || pc.RunChild? || HoldsChildOnly(pc)
  }

  predicate HoldsChildOnly(pc: Pc) {
    pc.CancelChild? || pc.CancelAudit? || pc.CancelMark? || pc.BusyAudit?
  }

  predicate HoldsChild(pc: Pc) {
    pc.AttachToPlan? || pc.QueueChild? || pc.CheckAudit? || pc.Backoff? || pc.RunChild? || HoldsChildOnly(pc)
  }

  predicate KnowsAudit(pc: Pc) {
    pc.SettleAudit? || pc.Top? || pc.Choose? || pc.Refuse? || pc.WritePlan? || pc.Hosting? || AfterPlan(pc)
    || pc.LostAudit? || pc.Preflight? || pc.BlockAudit? || pc.BlockTask? || pc.StartQueue? || pc.Mark? || pc.Launch?
  }

  ghost predicate DriverOk(s: State) {
    s.driver.Working? ==>
      var d := s.driver;
      && d.task in s.tasks && s.tasks[d.task].index == d.count && d.count <= MAX_AUTO_RETRIES
      && (KnowsAudit(d.pc) ==> d.task in s.ledger.attempts)
      && (d.pc.Enter? && !d.recovering ==> d.task in s.ledger.attempts)
      && (BeforeStart(d.pc) && s.tasks[d.task].auto ==> AwaitsStart(s, d.task, d.excluded))
      && (d.pc.Launch? && s.tasks[d.task].auto ==>
            Launches(s.launches, d.task) == 0 && s.ledger.attempts[d.task].startedAt.Some?)
      && (d.pc.WritePlan? ==> d.count + 1 <= MAX_AUTO_RETRIES && IsClean(d.plan))
      && (AfterPlan(d.pc) ==> PlanHeld(s))
      && (HoldsChild(d.pc) ==> ChildHeld(s))
      && ((d.pc.AttachToPlan? || d.pc.QueueChild?) && !d.recovering ==>
            d.child !in s.ledger.attempts && Launches(s.launches, d.child) == 0)
      && (d.pc.Backoff? || d.pc.RunChild? ==> AwaitsStart(s, d.child, d.plan.excluded))
  }

  /** The plan the driver holds is the one in the journal. */
  ghost predicate PlanHeld(s: State)
    requires s.driver.Working?
  {
    var d := s.driver;
    && d.task in s.ledger.transitions
    && s.ledger.transitions[d.task].plan == d.plan && IsClean(d.plan)
    && s.ledger.transitions[d.task].next == d.count + 1
  }

  ghost predicate ChildHeld(s: State)
    requires s.driver.Working?
  {
    var d := s.driver;
    d.child in s.tasks && s.tasks[d.child].auto && s.tasks[d.child].parent == Some(d.task) && s.tasks[d.child].index == d.count + 1
  }

  ghost predicate Inv(s: State) {
    DurableOk(s) && DriverOk(s)
  }

  // ----- growth -----

  predicate SameAttempt(a: Attempt, b: Attempt) {
    SameSlot(a, b) && a.parent == b.parent && (a.startedAt.Some? ==> b.startedAt == a.startedAt)
  }

  predicate SameLineage(a: Task, b: Task) {
    a.auto == b.auto && a.parent == b.parent && a.index == b.index
  }

  predicate SameJourney(a: Transition, b: Transition) {
    SameStep(a, b) && a.source == b.source
  }

  /** Nothing that exists changes its lineage; rows may be added. */
  ghost predicate Grows(s: State, t: State) {
    && t.owner == s.owner && t.root == s.root && t.launches == s.launches
    && (forall i :: i in s.tasks ==> i in t.tasks && SameLineage(s.tasks[i], t.tasks[i]))
    && (forall a :: a in s.ledger.attempts ==>
          a in t.ledger.attempts && SameAttempt(s.ledger.attempts[a], t.ledger.attempts[a]))
    && (forall p :: p in s.ledger.transitions ==>
          p in t.ledger.transitions && SameJourney(s.ledger.transitions[p], t.ledger.transitions[p]))
  }

  /** The journal rows that are new, or whose child or plan changed, are in order. */
  ghost predicate ChangedJournalOk(s: State, t: State) {
    forall p :: p in t.ledger.transitions ==>
      || (&& p in s.ledger.transitions
          && s.ledger.transitions[p].child == t.ledger.transitions[p].child
          && s.ledger.transitions[p].plan == t.ledger.transitions[p].plan)
      || (TransitionOk(t, p) && IsClean(t.ledger.transitions[p].plan))
  }

  lemma GrowthKeepsDurable(s: State, t: State)
    requires DurableOk(s) && Grows(s, t) && Linear(t.ledger) && ChangedJournalOk(s, t)
    requires forall i :: i in t.tasks && i !in s.tasks ==> ChildOk(t, i)
    requires forall a :: a in t.ledger.attempts && a !in s.ledger.attempts ==> AttemptOk(t, a)
    ensures DurableOk(t)
  {
    forall i | i in t.tasks && t.tasks[i].auto ensures ChildOk(t, i) {
      if i in s.tasks {
        assert ChildOk(s, i);
      }
    }
    forall p | p in t.ledger.transitions ensures TransitionOk(t, p) {
      if p in s.ledger.transitions {
        assert TransitionOk(s, p);
      }
    }
    forall a | a in t.ledger.attempts ensures AttemptOk(t, a) {
      if a in s.ledger.attempts {
        assert AttemptOk(s, a);
      }
    }
  }

  /** The same rows as before, with other statuses, states, verdicts and times. */
  ghost predicate SameRows(s: State, t: State) {
    && Grows(s, t)
    && t.tasks.Keys == s.tasks.Keys
    && t.ledger.attempts.Keys == s.ledger.attempts.Keys
    && t.ledger.transitions.Keys == s.ledger.transitions.Keys
    && (forall p :: p in s.ledger.transitions ==>
          && s.ledger.transitions[p].child == t.ledger.transitions[p].child
          && s.ledger.transitions[p].plan == t.ledger.transitions[p].plan)
  }

  lemma SameRowsKeepsDurable(s: State, t: State)
    requires DurableOk(s) && SameRows(s, t)
    ensures DurableOk(t)
  {
    SameSlotsKeepLinear(s.ledger, t.ledger);
    GrowthKeepsDurable(s, t);
  }

  // ----- effects of the ledger operations -----

  lemma DecisionEffect(s: State, id: TaskId, state: AttemptState, v: Verdict, now: int)
    ensures SameRows(s, s.(ledger := RecordDecision(s.ledger, s.owner, id, state, v, now)))
  {}

  lemma MarkTransitionEffect(s: State, p: TaskId, state: TransitionState)
    ensures SameRows(s, s.(ledger := MarkTransition(s.ledger, s.owner, p, state)))
  {}

  lemma MarkStartedEffect(s: State, id: TaskId, provider: nat, now: int)
    ensures SameRows(s, s.(ledger := MarkStarted(s.ledger, s.owner, id, provider, now)))
    ensures id in s.ledger.attempts && s.ledger.attempts[id].owner == s.owner ==>
              MarkStarted(s.ledger, s.owner, id, provider, now).attempts[id].startedAt.Some?
  {}

  lemma StatusEffect(s: State, id: TaskId, status: Status)
    ensures SameRows(s, Moved(s, id, status))
  {
    var t := Moved(s, id, status);
    assert t.ledger == s.ledger;
    assert forall i :: i in s.tasks ==> i in t.tasks && SameLineage(s.tasks[i], t.tasks[i]);
  }

  lemma BlankQueueIsNoChange(s: State)
    requires s.driver.Working? && AttemptsOk(s)
    requires s.driver.task in s.ledger.attempts && s.ledger.attempts[s.driver.task].index == s.driver.count
    ensures QueueBlank(s).Ok? ==> QueueBlank(s).value == s.ledger
  {
    if QueueBlank(s).Ok? {
      var id := s.driver.task;
      assert AttemptOk(s, id);
      BlankQueueErasesNothing(s.ledger, s.owner, s.root, id, ParentOf(s, id), s.driver.count);
      assert QueueBlank(s).value.attempts[id] == s.ledger.attempts[id];
      assert QueueBlank(s).value.attempts == s.ledger.attempts;
    }
  }

  /** Write one attempt row of a task of the lineage. */
  lemma PutAttempt(s: State, id: TaskId, row: Attempt)
    requires DurableOk(s) && id in s.tasks
    requires row.owner == s.owner && row.root == s.root
    requires row.index == s.tasks[id].index && row.parent == s.tasks[id].parent
    requires id in s.ledger.attempts && s.ledger.attempts[id].startedAt.Some? ==>
               row.startedAt == s.ledger.attempts[id].startedAt
    requires Linear(s.ledger.(attempts := s.ledger.attempts[id := row]))
    ensures DurableOk(s.(ledger := s.ledger.(attempts := s.ledger.attempts[id := row])))
  {
    var t := s.(ledger := s.ledger.(attempts := s.ledger.attempts[id := row]));
    assert id in s.ledger.attempts ==> AttemptOk(s, id);
    GrowthKeepsDurable(s, t);
  }

  /** Write one journal row that keeps the lineage of the row it replaces. */
  lemma PutTransition(s: State, p: TaskId, row: Transition)
    requires DurableOk(s) && p in s.tasks && p in s.ledger.attempts
    requires p in s.ledger.transitions ==> SameJourney(s.ledger.transitions[p], row)
    requires TransitionOk(s.(ledger := s.ledger.(transitions := s.ledger.transitions[p := row])), p)
    requires IsClean(row.plan)
    requires Linear(s.ledger.(transitions := s.ledger.transitions[p := row]))
    ensures DurableOk(s.(ledger := s.ledger.(transitions := s.ledger.transitions[p := row])))
  {
    GrowthKeepsDurable(s, s.(ledger := s.ledger.(transitions := s.ledger.transitions[p := row])));
  }

  lemma PutChild(s: State, id: TaskId, row: Task)
    requires DurableOk(s) && id !in s.tasks
    requires ChildOk(s.(tasks := s.tasks[id := row]), id)
    ensures DurableOk(s.(tasks := s.tasks[id := row]))
  {
    GrowthKeepsDurable(s, s.(tasks := s.tasks[id := row]));
  }

  lemma PutLaunch(s: State, id: TaskId)
    requires DurableOk(s) && id in s.tasks
    requires s.tasks[id].auto ==>
               Launches(s.launches, id) == 0 && id in s.ledger.attempts && s.ledger.attempts[id].startedAt.Some?
    ensures DurableOk(s.(launches := s.launches + [id]))
  {
    var t := s.(launches := s.launches + [id]);
    assert t.launches[..|t.launches| - 1] == s.launches;
    assert forall c :: Launches(t.launches, c) == Launches(s.launches, c) + (if c == id then 1 else 0);
    assert TasksOk(t) by {
      forall i | i in t.tasks && t.tasks[i].auto ensures ChildOk(t, i) {
        assert ChildOk(s, i);
      }
    }
    assert JournalOk(t) by {
      forall p | p in t.ledger.transitions ensures TransitionOk(t, p) {
        assert TransitionOk(s, p);
      }
    }
    assert AttemptsOk(t) by {
      forall a | a in t.ledger.attempts ensures AttemptOk(t, a) {
        assert AttemptOk(s, a);
      }
    }
  }

  /** What `record_queued` does to the table when it succeeds. */
  lemma QueueShape(l: Ledger, owner: string, root: TaskId, id: TaskId, parent: Option<TaskId>, index: nat, trigger: Plan)
    requires RecordQueued(l, owner, root, id, parent, index, trigger).Ok?
    ensures var m := RecordQueued(l, owner, root, id, parent, index, trigger).value;
            && id in m.attempts
            && m == l.(attempts := l.attempts[id := m.attempts[id]])
            && (var row := m.attempts[id];
                && row.owner == owner && row.root == root && row.index == index && row.parent == parent
                && (id in l.attempts ==> row.startedAt == l.attempts[id].startedAt)
                && (id !in l.attempts ==>
                      row.state.Queued? && row.startedAt.None? && row.provider == 0 && row.trigger == Clean(trigger)))
            && (Linear(l) ==> Linear(m))
  {
    if Linear(l) {
      CallKeepsLinear(l, QueuedCall(owner, root, id, parent, index, trigger));
    }
  }

  /** Queueing a task of the lineage, whether or not it has an audit row. */
  lemma QueueEffect(s: State, id: TaskId, trigger: Plan)
    requires DurableOk(s) && id in s.tasks
    requires RecordQueued(s.ledger, s.owner, s.root, id, s.tasks[id].parent, s.tasks[id].index, trigger).Ok?
    ensures DurableOk(s.(ledger := RecordQueued(s.ledger, s.owner, s.root, id, s.tasks[id].parent, s.tasks[id].index, trigger).value))
  {
    QueueShape(s.ledger, s.owner, s.root, id, s.tasks[id].parent, s.tasks[id].index, trigger);
    var l := RecordQueued(s.ledger, s.owner, s.root, id, s.tasks[id].parent, s.tasks[id].index, trigger).value;
    PutAttempt(s, id, l.attempts[id]);
  }

  /** What `record_retry_plan` does to the tables when it succeeds. */
  lemma PlanShape(l: Ledger, owner: string, root: TaskId, source: TaskId, m: nat, v: Verdict, plan: Plan, now: int)
    requires RecordRetryPlan(l, owner, root, source, m, m + 1, v, plan, now).Ok?
    ensures var k := RecordRetryPlan(l, owner, root, source, m, m + 1, v, plan, now).value;
            && source in l.attempts && source in k.attempts && source in k.transitions
            && k == Ledger(l.attempts[source := k.attempts[source]], l.transitions[source := k.transitions[source]])
            && SameAttempt(l.attempts[source], k.attempts[source])
            && k.attempts[source].trigger == l.attempts[source].trigger
            && (var t := k.transitions[source];
                && t.owner == owner && t.root == root && t.source == m && t.next == m + 1 && t.plan == Clean(plan)
                && (source in l.transitions ==>
                      SameJourney(l.transitions[source], t) && t.child == l.transitions[source].child)
                && (source !in l.transitions ==> t.child.None?))
            && (Linear(l) ==> Linear(k))
  {
    if Linear(l) {
      CallKeepsLinear(l, PlanCall(owner, root, source, m, m + 1, v, plan, now));
    }
  }

  lemma PlanEffect(s: State, e: Env)
    requires DurableOk(s) && DriverOk(s) && s.driver.Working? && s.driver.pc.WritePlan?
    ensures DurableOk(StepWritePlan(s, e))
  {
    var d := s.driver;
    var r := RecordRetryPlan(s.ledger, s.owner, s.root, d.task, d.count, d.count + 1, e.verdict, d.plan, e.now);
    if r.Ok? {
      PlanShape(s.ledger, s.owner, s.root, d.task, d.count, e.verdict, d.plan, e.now);
      PlannedRows(s, r.value, d.task);
      DriverIsNotDurable(s.(ledger := r.value), StepWritePlan(s, e));
    } else {
      DriverIsNotDurable(s, StepWritePlan(s, e));
    }
  }

  /** An updated source attempt together with its planned transition. */
  lemma PlannedRows(s: State, k: Ledger, p: TaskId)
    requires DurableOk(s) && p in s.tasks && p in s.ledger.attempts && p in k.attempts && p in k.transitions
    requires k == Ledger(s.ledger.attempts[p := k.attempts[p]], s.ledger.transitions[p := k.transitions[p]])
    requires SameAttempt(s.ledger.attempts[p], k.attempts[p]) && Linear(k)
    requires var t := k.transitions[p];
             && t.owner == s.owner && t.root == s.root && t.source == s.tasks[p].index && t.next == t.source + 1
             && t.next <= MAX_AUTO_RETRIES && IsClean(t.plan)
             && (p in s.ledger.transitions ==>
                   SameJourney(s.ledger.transitions[p], t) && t.child == s.ledger.transitions[p].child)
             && (p !in s.ledger.transitions ==> t.child.None?)
    ensures DurableOk(s.(ledger := k))
  {
    var l1 := s.ledger.(attempts := s.ledger.attempts[p := k.attempts[p]]);
    assert AttemptOk(s, p);
    SameSlotsKeepLinear(s.ledger, l1);
    PutAttempt(s, p, k.attempts[p]);
    var s1 := s.(ledger := l1);
    assert p in s.ledger.transitions ==> TransitionOk(s, p);
    PutTransition(s1, p, k.transitions[p]);
    assert k == l1.(transitions := l1.transitions[p := k.transitions[p]]);
  }

  /** The durable part does not depend on the driver. */
  lemma DriverIsNotDurable(s: State, t: State)
    requires DurableOk(s) && t == s.(driver := t.driver)
    ensures DurableOk(t)
  {
    GrowthKeepsDurable(s, t);
  }

  lemma CreateEffect(s: State, e: Env)
    requires DurableOk(s) && DriverOk(s) && s.driver.Working? && s.driver.pc.CreateChild?
    ensures DurableOk(StepCreateChild(s, e))
  {
    var t := StepCreateChild(s, e);
    if t.driver.Working? {
      assert TransitionOk(s, s.driver.task);
      PutChild(s, e.newId, t.tasks[e.newId]);
      DriverIsNotDurable(s.(tasks := t.tasks), t);
    } else {
      DriverIsNotDurable(s, t);
    }
  }

  lemma AttachEffect(s: State)
    requires DurableOk(s) && DriverOk(s) && s.driver.Working? && s.driver.pc.AttachToPlan?
    ensures DurableOk(StepAttach(s))
  {
    var d, t := s.driver, StepAttach(s);
    if t.driver.Working? {
      CallKeepsLinear(s.ledger, AttachCall(s.owner, d.task, d.child));
      assert TransitionOk(s, d.task);
      PutTransition(s, d.task, t.ledger.transitions[d.task]);
      DriverIsNotDurable(s.(ledger := t.ledger), t);
    } else {
      DriverIsNotDurable(s, t);
    }
  }

  lemma LaunchEffect(s: State)
    requires DurableOk(s) && DriverOk(s) && s.driver.Working? && s.driver.pc.Launch?
    ensures DurableOk(StepLaunch(s))
  {
    var id := s.driver.task;
    var s1 := Moved(s, id, Active);
    StatusEffect(s, id, Active);
    SameRowsKeepsDurable(s, s1);
    PutLaunch(s1, id);
    DriverIsNotDurable(s1.(launches := s1.launches + [id]), StepLaunch(s));
  }
}
