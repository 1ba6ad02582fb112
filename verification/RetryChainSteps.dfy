/** Every step keeps the invariant of the retry chain. */
module RetryChainSteps {
  import opened Common
  import opened RetryLedger
  import opened RetryChain
  import opened RetryChainInvariant

  predicate On(s: State, pc: Pc) {
    s.driver.Working? && s.driver.pc == pc
  }

  lemma EnterKeeps(s: State)
    requires Inv(s) && On(s, Enter)
    ensures Inv(StepEnter(s))
  {
    DriverIsNotDurable(s, StepEnter(s));
  }

  lemma QueueBlankKeeps(s: State, next: Pc)
    requires Inv(s) && (On(s, QueueAudit) || On(s, StartQueue))
    requires next == if s.driver.pc.QueueAudit? then Preflight else Mark
    ensures Inv(StepQueueBlank(s, next))
  {
    var d, t := s.driver, StepQueueBlank(s, next);
    if d.task in s.ledger.attempts {
      assert AttemptOk(s, d.task);
      BlankQueueIsNoChange(s);
      DriverIsNotDurable(s, t);
    } else if t.driver.Working? {
      QueueShape(s.ledger, s.owner, s.root, d.task, s.tasks[d.task].parent, d.count, BLANK);
      QueueEffect(s, d.task, BLANK);
      DriverIsNotDurable(s.(ledger := t.ledger), t);
    } else {
      DriverIsNotDurable(s, t);
    }
  }

  lemma PreflightKeeps(s: State, e: Env)
    requires Inv(s) && On(s, Preflight)
    ensures Inv(StepTick(s, e))
  {
    DriverIsNotDurable(s, StepTick(s, e));
  }

  /** A verdict for some attempt changes no row that the invariant speaks of, but for the start of that attempt. */
  lemma DecisionKeepsDurable(s: State, id: TaskId, state: AttemptState, e: Env, next: Pc)
    requires DurableOk(s) && s.driver.Working?
    ensures DurableOk(StepDecision(s, id, state, e, next))
    ensures SameRows(s, StepDecision(s, id, state, e, next))
  {
    var t := StepDecision(s, id, state, e, next);
    DecisionEffect(s, id, state, e.verdict, e.now);
    SameRowsKeepsDurable(s, s.(ledger := t.ledger));
    DriverIsNotDurable(s.(ledger := t.ledger), t);
  }

  /** A verdict for some attempt, followed by a counter that knows no more than the audit row. */
  lemma DecisionKeeps(s: State, id: TaskId, state: AttemptState, e: Env, next: Pc)
    requires Inv(s) && s.driver.Working? && s.driver.task in s.ledger.attempts
    requires next.BlockTask? || next.Top? || next.EndCurrent? || next.CancelMark? || next.BusyAudit?
    requires HoldsChildOnly(next) ==> HoldsChildOnly(s.driver.pc)
    ensures Inv(StepDecision(s, id, state, e, next))
  {
    DecisionKeepsDurable(s, id, state, e, next);
    DecisionDriver(s, id, state, e, next);
  }

  lemma DecisionDriver(s: State, id: TaskId, state: AttemptState, e: Env, next: Pc)
    requires DriverOk(s) && s.driver.Working? && s.driver.task in s.ledger.attempts
    requires next.BlockTask? || next.Top? || next.EndCurrent? || next.CancelMark? || next.BusyAudit?
    requires HoldsChildOnly(next) ==> HoldsChildOnly(s.driver.pc)
    ensures DriverOk(StepDecision(s, id, state, e, next))
  {
    var t := StepDecision(s, id, state, e, next);
    assert t.tasks == s.tasks && t.ledger.transitions == s.ledger.transitions && t.driver == s.driver.(pc := next);
    assert t.ledger.attempts.Keys == s.ledger.attempts.Keys;
  }

  lemma MarkKeeps(s: State, e: Env)
    requires Inv(s) && On(s, Mark)
    ensures Inv(StepMark(s, e))
  {
    var t := StepMark(s, e);
    MarkStartedEffect(s, s.driver.task, e.provider, e.now);
    SameRowsKeepsDurable(s, s.(ledger := t.ledger));
    DriverIsNotDurable(s.(ledger := t.ledger), t);
    assert AttemptOk(s, s.driver.task);
  }

  lemma LaunchKeeps(s: State)
    requires Inv(s) && On(s, Launch)
    ensures Inv(StepLaunch(s))
  {
    LaunchEffect(s);
  }

  /** A change of one task's status, followed by a counter that knows no more than the audit row. */
  lemma StatusKeeps(s: State, id: TaskId, status: Status, t: State)
    requires Inv(s) && s.driver.Working?
    requires t == Moved(s, id, status).(driver := t.driver)
    requires DriverOk(Moved(s, id, status)) ==> DriverOk(t)
    ensures Inv(t)
  {
    var m := Moved(s, id, status);
    StatusEffect(s, id, status);
    SameRowsKeepsDurable(s, m);
    DriverIsNotDurable(m, t);
  }

  lemma HostingKeeps(s: State, e: Env)
    requires Inv(s) && On(s, Hosting)
    ensures Inv(StepHosting(s, e))
  {
    var status := match e.outcome
      case HostSucceeded => Done
      case HostCanceled => Stopped
      case HostCaptured => Active
      case HostFailed => Broken;
    StatusKeeps(s, s.driver.task, status, StepHosting(s, e));
  }

  lemma SettleAuditKeeps(s: State, e: Env)
    requires Inv(s) && On(s, SettleAudit)
    ensures Inv(StepSettleAudit(s, e))
  {
    var id := s.driver.task;
    match s.tasks[id].status
    case Done => DecisionKeeps(s, id, Succeeded, e, Top);
    case Stopped => DecisionKeeps(s, id, Canceled, e, Top);
    case Broken =>
      if s.driver.failed {
        DriverIsNotDurable(s, At(s, Top));
      } else {
        DecisionKeeps(s, id, Failed, e, Top);
      }
    case Waiting => DriverIsNotDurable(s, At(s, Top));
    case Active => DriverIsNotDurable(s, At(s, Top));
  }

  /** The lease is given up, perhaps after one last status. */
  lemma GoneKeeps(s: State)
    requires DurableOk(s)
    ensures Inv(Gone(s))
  {
    DriverIsNotDurable(s, Gone(s));
  }

  lemma MovedGoneKeeps(s: State, id: TaskId, status: Status)
    requires DurableOk(s)
    ensures Inv(Gone(Moved(s, id, status)))
  {
    StatusEffect(s, id, status);
    SameRowsKeepsDurable(s, Moved(s, id, status));
    GoneKeeps(Moved(s, id, status));
  }

  lemma AtKeeps(s: State, pc: Pc)
    requires Inv(s) && s.driver.Working? && DriverOk(At(s, pc))
    ensures Inv(At(s, pc))
  {
    DriverIsNotDurable(s, At(s, pc));
  }

  lemma TopKeeps(s: State)
    requires Inv(s) && On(s, Top)
    ensures Inv(StepTop(s))
  {
    var id := s.driver.task;
    GoneKeeps(s);
    AtKeeps(s, EndCurrent);
    AtKeeps(s, Choose);
    if s.tasks[id].status.Done? && id != s.root {
      MovedGoneKeeps(s, s.root, EndStatus(s.tasks, s.root, Done));
    }
  }

  lemma CleanTwice(p: Plan)
    ensures Clean(Clean(p)) == Clean(p)
  {
    assert Clean(Clean(p)).excluded == Clean(p).excluded;
  }

  lemma ChooseKeeps(s: State, e: Env)
    requires Inv(s) && On(s, Choose)
    ensures Inv(StepChoose(s, e))
  {
    CleanTwice(e.plan);
    DriverIsNotDurable(s, StepChoose(s, e));
  }

  lemma WritePlanKeeps(s: State, e: Env)
    requires Inv(s) && On(s, WritePlan)
    ensures Inv(StepWritePlan(s, e))
  {
    var d, t := s.driver, StepWritePlan(s, e);
    PlanEffect(s, e);
    if t.driver.Working? {
      PlanShape(s.ledger, s.owner, s.root, d.task, d.count, e.verdict, d.plan, e.now);
    }
  }

  lemma EndSourceKeeps(s: State)
    requires Inv(s) && On(s, EndSource)
    ensures Inv(StepEndSource(s))
  {
    if s.driver.task == s.root {
      DriverIsNotDurable(s, StepEndSource(s));
    } else {
      StatusKeeps(s, s.driver.task, EndStatus(s.tasks, s.driver.task, Broken), StepEndSource(s));
    }
  }

  lemma CreateChildKeeps(s: State, e: Env)
    requires Inv(s) && On(s, CreateChild)
    ensures Inv(StepCreateChild(s, e))
  {
    CreateEffect(s, e);
    var t := StepCreateChild(s, e);
    assert e.newId in s.ledger.attempts ==> AttemptOk(s, e.newId);
  }

  lemma AttachKeeps(s: State)
    requires Inv(s) && On(s, AttachToPlan)
    ensures Inv(StepAttach(s))
  {
    AttachEffect(s);
  }

  lemma QueueChildKeeps(s: State)
    requires Inv(s) && On(s, QueueChild)
    ensures Inv(StepQueueChild(s))
  {
    var d, t := s.driver, StepQueueChild(s);
    if t.driver.Working? {
      QueueShape(s.ledger, s.owner, s.root, d.child, Some(d.task), d.count + 1, d.plan);
      QueueEffect(s, d.child, d.plan);
      DriverIsNotDurable(s.(ledger := t.ledger), t);
    } else {
      DriverIsNotDurable(s, t);
    }
  }

  /** Coming back through `run_from_retry_child` gives a driver that awaits the start of that child. */
  lemma ResumedKeeps(s: State, child: TaskId, allowed: bool)
    requires Inv(s)
    ensures Inv(Resumed(s, child, allowed))
  {
    DriverIsNotDurable(s, Resumed(s, child, allowed));
  }

  lemma CheckAuditKeeps(s: State, e: Env)
    requires Inv(s) && On(s, CheckAudit)
    ensures Inv(StepCheckAudit(s, e))
  {
    ResumedKeeps(s, s.driver.child, e.allowed);
    DriverIsNotDurable(s, At(s, EndCurrent));
  }

  lemma BackoffKeeps(s: State)
    requires Inv(s) && On(s, Backoff)
    ensures Inv(StepBackoff(s))
  {
    DriverIsNotDurable(s, StepBackoff(s));
  }

  lemma RunChildKeeps(s: State, e: Env)
    requires Inv(s) && On(s, RunChild)
    ensures Inv(StepRunChild(s, e))
  {
    assert ChildOk(s, s.driver.child);
    DriverIsNotDurable(s, StepRunChild(s, e));
  }

  /** Finalising on the child needs only that it is a task of the lineage. */
  lemma OnChildKeeps(s: State)
    requires Inv(s) && s.driver.Working? && HoldsChildOnly(s.driver.pc)
    ensures Inv(OnChild(s))
  {
    assert ChildOk(s, s.driver.child);
    DriverIsNotDurable(s, OnChild(s));
  }

  lemma CancelMarkKeeps(s: State)
    requires Inv(s) && On(s, CancelMark)
    ensures Inv(OnChild(s.(ledger := MarkTransition(s.ledger, s.owner, s.driver.task, TransitionCanceled))))
  {
    var m := s.(ledger := MarkTransition(s.ledger, s.owner, s.driver.task, TransitionCanceled));
    MarkTransitionEffect(s, s.driver.task, TransitionCanceled);
    SameRowsKeepsDurable(s, m);
    OnChildKeeps(m);
  }

  predicate InAttempt(pc: Pc) {
    pc.Enter? || pc.LostAudit? || pc.QueueAudit? || pc.Preflight? || pc.BlockAudit? || pc.BlockTask? || pc.StartQueue? || pc.Mark?
    || pc.Launch? || pc.Hosting? || pc.SettleAudit?
  }

  predicate InPlan(pc: Pc) {
    pc.Top? || pc.Choose? || pc.Refuse? || pc.WritePlan? || pc.EndSource?
  }

  predicate InBirth(pc: Pc) {
    pc.Discard? || pc.CreateChild? || pc.AttachToPlan? || pc.QueueChild?
  }

  lemma AttemptTickKeeps(s: State, e: Env)
    requires Inv(s) && s.driver.Working? && InAttempt(s.driver.pc)
    ensures Inv(StepTick(s, e))
  {
    var d := s.driver;
    match d.pc
    case Enter => EnterKeeps(s);
    case LostAudit => DecisionKeeps(s, d.task, Blocked, e, EndCurrent);
    case QueueAudit => QueueBlankKeeps(s, Preflight);
    case Preflight => PreflightKeeps(s, e);
    case BlockAudit => DecisionKeeps(s, d.task, Blocked, e, BlockTask);
    case BlockTask => StatusKeeps(s, d.task, EndStatus(s.tasks, d.task, Broken), StepTick(s, e));
    case StartQueue => QueueBlankKeeps(s, Mark);
    case Mark => MarkKeeps(s, e);
    case Launch => LaunchKeeps(s);
    case Hosting => HostingKeeps(s, e);
    case SettleAudit => SettleAuditKeeps(s, e);
  }

  lemma RefuseTickKeeps(s: State, e: Env)
    requires Inv(s) && On(s, Refuse)
    ensures Inv(StepTick(s, e))
  {
    DecisionKeeps(s, s.driver.task, Failed, e, EndCurrent);
  }

  lemma WritePlanTickKeeps(s: State, e: Env)
    requires Inv(s) && On(s, WritePlan)
    ensures Inv(StepTick(s, e))
  {
    WritePlanKeeps(s, e);
  }

  lemma TopTickKeeps(s: State, e: Env)
    requires Inv(s) && On(s, Top)
    ensures Inv(StepTick(s, e))
  {
    TopKeeps(s);
  }

  lemma PlanTickKeeps(s: State, e: Env)
    requires Inv(s) && s.driver.Working? && InPlan(s.driver.pc)
    ensures Inv(StepTick(s, e))
  {
    match s.driver.pc
    case Top => TopTickKeeps(s, e);
    case Choose => ChooseKeeps(s, e);
    case Refuse => RefuseTickKeeps(s, e);
    case WritePlan => WritePlanTickKeeps(s, e);
    case EndSource => EndSourceKeeps(s);
  }

  lemma DiscardTickKeeps(s: State, e: Env)
    requires Inv(s) && On(s, Discard)
    ensures Inv(StepTick(s, e))
  {
    AtKeeps(s, CreateChild);
  }

  lemma CreateTickKeeps(s: State, e: Env)
    requires Inv(s) && On(s, CreateChild)
    ensures Inv(StepTick(s, e))
  {
    CreateChildKeeps(s, e);
  }

  lemma AttachTickKeeps(s: State, e: Env)
    requires Inv(s) && On(s, AttachToPlan)
    ensures Inv(StepTick(s, e))
  {
    AttachKeeps(s);
  }

  lemma QueueTickKeeps(s: State, e: Env)
    requires Inv(s) && On(s, QueueChild)
    ensures Inv(StepTick(s, e))
  {
    QueueChildKeeps(s);
  }

  lemma BirthTickKeeps(s: State, e: Env)
    requires Inv(s) && s.driver.Working? && InBirth(s.driver.pc)
    ensures Inv(StepTick(s, e))
  {
    match s.driver.pc
    case Discard => DiscardTickKeeps(s, e);
    case CreateChild => CreateTickKeeps(s, e);
    case AttachToPlan => AttachTickKeeps(s, e);
    case QueueChild => QueueTickKeeps(s, e);
  }

  lemma ChildTickKeeps(s: State, e: Env)
    requires Inv(s) && s.driver.Working? && !InAttempt(s.driver.pc) && !InPlan(s.driver.pc) && !InBirth(s.driver.pc)
    ensures Inv(StepTick(s, e))
  {
    var d := s.driver;
    match d.pc
    case CheckAudit => CheckAuditKeeps(s, e);
    case Backoff => BackoffKeeps(s);
    case CancelChild => StatusKeeps(s, d.child, Stopped, StepTick(s, e));
    case CancelAudit => DecisionKeeps(s, d.child, Canceled, e, CancelMark);
    case CancelMark => CancelMarkKeeps(s);
    case RunChild => RunChildKeeps(s, e);
    case BusyAudit => BusyAuditKeeps(s, e);
    case EndCurrent => EndCurrentKeeps(s, e);
    case EndRoot => MovedGoneKeeps(s, s.root, EndStatus(s.tasks, s.root, Broken));
  }

  /** Any step the driver takes by itself. */
  lemma TickKeeps(s: State, e: Env)
    requires Inv(s)
    ensures Inv(StepTick(s, e))
  {
    if s.driver.Working? {
      if InAttempt(s.driver.pc) {
        AttemptTickKeeps(s, e);
      } else if InPlan(s.driver.pc) {
        PlanTickKeeps(s, e);
      } else if InBirth(s.driver.pc) {
        BirthTickKeeps(s, e);
      } else {
        ChildTickKeeps(s, e);
      }
    }
  }

  lemma BusyAuditKeeps(s: State, e: Env)
    requires Inv(s) && On(s, BusyAudit)
    ensures Inv(OnChild(StepDecision(s, s.driver.child, Blocked, e, BusyAudit)))
  {
    DecisionKeeps(s, s.driver.child, Blocked, e, BusyAudit);
    OnChildKeeps(StepDecision(s, s.driver.child, Blocked, e, BusyAudit));
  }

  lemma EndCurrentKeeps(s: State, e: Env)
    requires Inv(s) && On(s, EndCurrent)
    ensures Inv(At(if s.driver.task == s.root then s else Ended(s, s.driver.task, Broken), EndRoot))
  {
    if s.driver.task == s.root {
      AtKeeps(s, EndRoot);
    } else {
      var status := EndStatus(s.tasks, s.driver.task, Broken);
      StatusKeeps(s, s.driver.task, status, At(Moved(s, s.driver.task, status), EndRoot));
    }
  }

  lemma AdoptKeeps(s: State, source: TaskId, allowed: bool)
    requires Inv(s)
    ensures Inv(StepAdopt(s, source, allowed))
  {
    var t := StepAdopt(s, source, allowed);
    DriverIsNotDurable(s, t);
    if t.driver.Working? && s.driver.Idle? {
      assert TransitionOk(s, source);
      if t.driver.pc.AttachToPlan? || t.driver.pc.QueueChild? {
        assert t.driver.child in Claiming(s, s.ledger.transitions[source].next);
      }
    }
  }

  lemma InterfereKeeps(s: State, id: TaskId, status: Status, cancel: bool)
    requires Inv(s)
    ensures Inv(Step(s, Interfere(id, status, cancel)))
  {
    var t := Step(s, Interfere(id, status, cancel));
    assert SameRows(s, t);
    SameRowsKeepsDurable(s, t);
  }

  lemma StartRunKeeps(s: State)
    requires Inv(s)
    ensures Inv(StepStartRun(s))
  {
    assert s.tasks[s.root].auto ==> ChildOk(s, s.root);
    DriverIsNotDurable(s, StepStartRun(s));
  }

  lemma StepKeeps(s: State, c: Choice)
    requires Inv(s)
    ensures Inv(Step(s, c))
  {
    match c
    case Tick(e) => TickKeeps(s, e);
    case Crash => DriverIsNotDurable(s, Gone(s));
    case Interfere(id, status, cancel) => InterfereKeeps(s, id, status, cancel);
    case StartRun => StartRunKeeps(s);
    case Recover(child, allowed) =>
      if s.driver.Idle? {
        ResumedKeeps(s, child, allowed);
      }
    case Adopt(source, allowed) => AdoptKeeps(s, source, allowed);
  }

  lemma InitHolds(owner: string, root: TaskId)
    ensures Inv(Init(owner, root))
  {}

  /** In every state reachable by driving, crashing, interfering and recovering, in any order. */
  lemma {:induction false} InvAlways(owner: string, root: TaskId, cs: seq<Choice>)
    ensures Inv(Exec(Init(owner, root), cs))
  {
    if cs == [] {
      InitHolds(owner, root);
    } else {
      InvAlways(owner, root, cs[..|cs| - 1]);
      StepKeeps(Exec(Init(owner, root), cs[..|cs| - 1]), cs[|cs| - 1]);
    }
  }
}
