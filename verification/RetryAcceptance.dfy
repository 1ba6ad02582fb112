/** When a journal is adopted at all, and that a child waiting for its start can always be re-entered through its plan. */
module RetryAcceptance {
  import opened Common
  import opened RetryLedger
  import opened RetryChain
  import opened RetryChainInvariant
  import opened RetryChainSteps
  import opened RetryRecovery
  import opened RetryAdoption

  // ----- acceptance in any state -----

  predicate OpenPlan(s: State, p: TaskId) {
    p in s.ledger.transitions && s.ledger.transitions[p].state.Open()
  }

  /** The attempt that this plan led to has an open plan of its own. */
  predicate Continued(s: State, p: TaskId)
    requires p in s.ledger.transitions
  {
    s.ledger.transitions[p].child.Some? && OpenPlan(s, s.ledger.transitions[p].child.value)
  }

  /** An open plan of a later attempt is that of the child. */
  lemma LaterPlanIsOfChild(s: State, p: TaskId, q: TaskId)
    requires Inv(s) && Linked(s) && p in s.ledger.transitions && q in s.ledger.transitions
    requires s.ledger.transitions[q].next > s.ledger.transitions[p].next
    ensures s.ledger.transitions[p].child == Some(q)
  {
    assert TransitionOk(s, p) && TransitionOk(s, q);
    assert AttemptOk(s, p) && AttemptOk(s, q) && LinkOk(s, q);
    assert s.tasks[q].auto && ChildOk(s, q);
    var up := s.tasks[q].parent.value;
    assert TransitionOk(s, up) && AttemptOk(s, up);
    SlotDecidesAttempt(s, up, p);
  }

  lemma LatestOpenExactly(s: State, p: TaskId)
    requires Inv(s) && Linked(s)
    ensures LatestOpen(s, p) <==> OpenPlan(s, p) && !Continued(s, p)
  {
    if OpenPlan(s, p) {
      if Continued(s, p) {
        var c := s.ledger.transitions[p].child.value;
        assert TransitionOk(s, p) && TransitionOk(s, c) && ChildOk(s, c);
        assert s.ledger.transitions[c].next > s.ledger.transitions[p].next;
      } else {
        forall q | q in s.ledger.transitions && s.ledger.transitions[q].state.Open()
          ensures s.ledger.transitions[q].next <= s.ledger.transitions[p].next
        {
          if s.ledger.transitions[q].next > s.ledger.transitions[p].next {
            LaterPlanIsOfChild(s, p, q);
          }
        }
      }
    }
  }

  /** The plan may be resumed now. */
  ghost predicate MayResume(s: State, p: TaskId) {
    && OpenPlan(s, p) && !Continued(s, p)
    && RootRuns(s) && SourceMayRetry(s, p) && OneClaim(s, p, s.ledger.transitions[p].next)
  }

  lemma ResumedExactly(s: State, p: TaskId, allowed: bool)
    requires Inv(s) && Linked(s) && s.driver.Idle?
    ensures StepAdopt(s, p, allowed).driver.Working? <==> allowed && MayResume(s, p)
  {
    LatestOpenExactly(s, p);
    if OpenPlan(s, p) {
      assert TransitionOk(s, p);
      var t := s.ledger.transitions[p];
      var claiming := Claiming(s, t.next);
      if t.child.Some? {
        assert ChildOk(s, t.child.value) && t.child.value in claiming;
        ClaimsOfAttached(claiming, t.child.value);
      } else if |claiming| == 1 {
        var c :| c in claiming;
        forall b | b in claiming ensures b == c {
          OnlyOne(claiming, b, c);
        }
      }
    }
  }

  /**
   In every reachable state without a driver, and for every source, the adoption of its journal row is accepted if and
   only if the checks on side effects and time pass, the row is open and no later one is, the root runs, the source may
   be retried and no second child claims the index.
   */
  lemma AnyAdoptionExactly(owner: string, root: TaskId, cs: seq<Choice>, s: State, p: TaskId, allowed: bool)
    requires s == Exec(Init(owner, root), cs) && s.driver.Idle?
    ensures Step(s, Adopt(p, allowed)).driver.Working? <==> allowed && MayResume(s, p)
  {
    InvAlways(owner, root, cs);
    LinksAlways(owner, root, cs);
    ResumedExactly(s, p, allowed);
  }

  // ----- the plan of a child that waits -----

  predicate HasStarted(l: Ledger, a: TaskId) {
    a in l.attempts && l.attempts[a].startedAt.Some?
  }

  predicate IsQueued(l: Ledger, a: TaskId) {
    a in l.attempts && l.attempts[a].state.Queued?
  }

  /** Only an attempt that has started is ever given a plan. */
  predicate StartedIfPlanned(s: State, p: TaskId) {
    p in s.ledger.transitions && p in s.tasks && s.tasks[p].auto ==> HasStarted(s.ledger, p)
  }

  /** The plan of a queued child is open. */
  predicate OpenIfQueued(s: State, c: TaskId) {
    IsQueued(s.ledger, c) && c in s.tasks && s.tasks[c].auto && s.tasks[c].parent.Some?
    && s.tasks[c].parent.value in s.ledger.transitions ==>
      s.ledger.transitions[s.tasks[c].parent.value].state.Open()
  }

  /** From here on the attempt has started, up to its plan. */
  predicate AfterStart(d: Driver)
    requires d.Working?
  {
    d.pc.Launch? || d.pc.Hosting? || d.pc.SettleAudit? || (d.pc.Top? && d.failed) || d.pc.Choose? || d.pc.WritePlan?
  }

  predicate DriverNotes(s: State) {
    s.driver.Working? ==>
      var d := s.driver;
      && (AfterStart(d) && d.task in s.tasks && s.tasks[d.task].auto ==> HasStarted(s.ledger, d.task))
      && (d.pc.CancelMark? ==> !IsQueued(s.ledger, d.child))
  }

  ghost predicate JournalNotes(s: State) {
    && (forall p {:trigger StartedIfPlanned(s, p)} :: p in s.ledger.transitions ==> StartedIfPlanned(s, p))
    && (forall c {:trigger OpenIfQueued(s, c)} :: c in s.ledger.attempts ==> OpenIfQueued(s, c))
  }

  ghost predicate Noted(s: State) {
    JournalNotes(s) && DriverNotes(s)
  }

  /** No plan is added or closed, no attempt is queued, no start is forgotten. */
  ghost predicate Steady(l: Ledger, m: Ledger) {
    && (forall p {:trigger m.transitions[p]} :: p in m.transitions ==>
          p in l.transitions && (l.transitions[p].state.Open() ==> m.transitions[p].state.Open()))
    && (forall a {:trigger IsQueued(m, a)} :: IsQueued(m, a) ==> IsQueued(l, a))
    && (forall a {:trigger HasStarted(m, a)} :: HasStarted(l, a) ==> HasStarted(m, a))
  }

  ghost predicate OldLineage(s: State, t: State) {
    forall i :: i in s.tasks ==> i in t.tasks && SameLineage(s.tasks[i], t.tasks[i])
  }

  lemma SteadyKeeps(s: State, t: State)
    requires Inv(s) && JournalNotes(s) && Steady(s.ledger, t.ledger) && OldLineage(s, t)
    ensures JournalNotes(t)
  {
    forall p | p in t.ledger.transitions ensures StartedIfPlanned(t, p) {
      assert TransitionOk(s, p) && StartedIfPlanned(s, p);
      assert HasStarted(s.ledger, p) ==> HasStarted(t.ledger, p);
    }
    forall c | c in t.ledger.attempts ensures OpenIfQueued(t, c) {
      if IsQueued(t.ledger, c) {
        assert IsQueued(s.ledger, c);
        assert AttemptOk(s, c) && OpenIfQueued(s, c);
      }
    }
  }

  lemma DecisionIsSteady(l: Ledger, owner: string, id: TaskId, state: AttemptState, v: Verdict, now: int)
    requires !state.Queued?
    ensures Steady(l, RecordDecision(l, owner, id, state, v, now))
  {}

  lemma MarkStartedIsSteady(l: Ledger, owner: string, id: TaskId, provider: nat, now: int)
    ensures Steady(l, MarkStarted(l, owner, id, provider, now))
  {}

  lemma AttachIsSteady(l: Ledger, owner: string, source: TaskId, child: TaskId)
    requires AttachChild(l, owner, source, child).Ok?
    ensures Steady(l, AttachChild(l, owner, source, child).value)
  {}

  lemma SameIsSteady(l: Ledger)
    ensures Steady(l, l)
  {}

  // ----- every step keeps the notes -----

  /** A step that leaves the ledger and the lineage alone. */
  lemma QuietStepNotes(s: State, t: State)
    requires Inv(s) && Noted(s) && t.ledger == s.ledger && DriverNotes(t) && OldLineage(s, t)
    ensures Noted(t)
  {
    SameIsSteady(s.ledger);
    SteadyKeeps(s, t);
  }

  lemma DecisionNotes(s: State, id: TaskId, state: AttemptState, e: Env, next: Pc)
    requires Inv(s) && Noted(s) && s.driver.Working? && !state.Queued?
    requires AfterStart(s.driver.(pc := next)) ==> AfterStart(s.driver)
    requires next.CancelMark? ==> id == s.driver.child && state.Canceled?
    ensures Noted(StepDecision(s, id, state, e, next))
  {
    var t := StepDecision(s, id, state, e, next);
    DecisionIsSteady(s.ledger, s.owner, id, state, e.verdict, e.now);
    SteadyKeeps(s, t);
    assert id in s.ledger.attempts ==> AttemptOk(s, id);
    assert HasStarted(s.ledger, s.driver.task) ==> HasStarted(t.ledger, s.driver.task);
  }

  lemma QueueBlankNotes(s: State, next: Pc)
    requires Inv(s) && Noted(s) && (On(s, QueueAudit) || On(s, StartQueue)) && (next.Preflight? || next.Mark?)
    ensures Noted(StepQueueBlank(s, next))
  {
    var id, t := s.driver.task, StepQueueBlank(s, next);
    if QueueBlank(s).Err? {
      QuietStepNotes(s, t);
    } else if id in s.ledger.attempts {
      assert AttemptOk(s, id);
      BlankQueueIsNoChange(s);
      QuietStepNotes(s, t);
    } else {
      QueueShape(s.ledger, s.owner, s.root, id, s.tasks[id].parent, s.driver.count, BLANK);
      QueuedNotes(s, t, id);
    }
  }

  /** One audit row, of the root or of a child whose plan is open. */
  lemma QueuedNotes(s: State, t: State, id: TaskId)
    requires Inv(s) && Noted(s) && t.tasks == s.tasks && t.ledger.transitions == s.ledger.transitions && DriverNotes(t)
    requires id in t.ledger.attempts && t.ledger.attempts == s.ledger.attempts[id := t.ledger.attempts[id]]
    requires id in s.ledger.attempts ==>
               t.ledger.attempts[id].startedAt == s.ledger.attempts[id].startedAt
               && t.ledger.attempts[id].state == s.ledger.attempts[id].state
    requires id in s.tasks && (s.tasks[id].auto ==> s.tasks[id].parent.Some? && OpenPlan(s, s.tasks[id].parent.value))
    ensures Noted(t)
  {
    forall p | p in t.ledger.transitions ensures StartedIfPlanned(t, p) {
      assert TransitionOk(s, p) && StartedIfPlanned(s, p);
    }
    forall c | c in t.ledger.attempts ensures OpenIfQueued(t, c) {
      assert c != id ==> OpenIfQueued(s, c);
    }
  }

  lemma MarkNotes(s: State, e: Env)
    requires Inv(s) && Noted(s) && On(s, RetryChain.Mark)
    ensures Noted(StepMark(s, e))
  {
    MarkStartedIsSteady(s.ledger, s.owner, s.driver.task, e.provider, e.now);
    SteadyKeeps(s, StepMark(s, e));
    assert AttemptOk(s, s.driver.task);
  }

  lemma PlainAttemptNotes(s: State, e: Env)
    requires Inv(s) && Noted(s) && s.driver.Working? && PlainAttempt(s.driver.pc)
    ensures Noted(StepTick(s, e))
  {
    PlainAttemptTick(s, e);
    PlainAttemptDriver(s, e);
    QuietStepNotes(s, StepTick(s, e));
  }

  lemma PlainAttemptDriver(s: State, e: Env)
    requires DriverNotes(s) && s.driver.Working? && PlainAttempt(s.driver.pc)
    ensures DriverNotes(StepTick(s, e))
  {}

  lemma SettleNotes(s: State, e: Env)
    requires Inv(s) && Noted(s) && On(s, SettleAudit)
    ensures Noted(StepSettleAudit(s, e))
  {
    var id := s.driver.task;
    DecisionNotes(s, id, Succeeded, e, Top);
    DecisionNotes(s, id, Canceled, e, Top);
    DecisionNotes(s, id, Failed, e, Top);
    QuietStepNotes(s, At(s, Top));
  }

  lemma AttemptTickNotes(s: State, e: Env)
    requires Inv(s) && Noted(s) && s.driver.Working? && InAttempt(s.driver.pc)
    ensures Noted(StepTick(s, e))
  {
    var d := s.driver;
    match d.pc
    case QueueAudit => QueueBlankNotes(s, Preflight);
    case StartQueue => QueueBlankNotes(s, RetryChain.Mark);
    case LostAudit => DecisionNotes(s, d.task, Blocked, e, EndCurrent);
    case BlockAudit => DecisionNotes(s, d.task, Blocked, e, BlockTask);
    case SettleAudit => SettleNotes(s, e);
    case Mark => MarkNotes(s, e);
    case _ => PlainAttemptNotes(s, e);
  }

  lemma WritePlanNotes(s: State, e: Env)
    requires Inv(s) && Noted(s) && On(s, WritePlan)
    ensures Noted(StepWritePlan(s, e))
  {
    var d, t := s.driver, StepWritePlan(s, e);
    if t.driver.Idle? {
      QuietStepNotes(s, t);
    } else {
      PlannedNotes(s, t, d.task);
    }
  }

  /** A plan for an attempt that has started. */
  lemma PlannedNotes(s: State, t: State, p: TaskId)
    requires Inv(s) && Noted(s) && t.tasks == s.tasks && DriverNotes(t)
    requires p in s.tasks && (s.tasks[p].auto ==> HasStarted(s.ledger, p))
    requires p in t.ledger.transitions && t.ledger.transitions == s.ledger.transitions[p := t.ledger.transitions[p]]
    requires t.ledger.transitions[p].state.Open() || (p in s.ledger.transitions && !s.ledger.transitions[p].state.Open())
    requires forall a {:trigger IsQueued(t.ledger, a)} :: IsQueued(t.ledger, a) ==> IsQueued(s.ledger, a)
    requires forall a {:trigger HasStarted(t.ledger, a)} :: HasStarted(s.ledger, a) ==> HasStarted(t.ledger, a)
    ensures Noted(t)
  {
    forall q | q in t.ledger.transitions ensures StartedIfPlanned(t, q) {
      assert q != p ==> StartedIfPlanned(s, q);
      assert HasStarted(s.ledger, q) ==> HasStarted(t.ledger, q);
    }
    forall c | c in t.ledger.attempts ensures OpenIfQueued(t, c) {
      if IsQueued(t.ledger, c) {
        assert IsQueued(s.ledger, c) && OpenIfQueued(s, c);
      }
    }
  }

  lemma PlanTickNotes(s: State, e: Env)
    requires Inv(s) && Noted(s) && s.driver.Working? && InPlan(s.driver.pc)
    ensures Noted(StepTick(s, e))
  {
    var d := s.driver;
    if d.pc.Refuse? {
      DecisionNotes(s, d.task, Failed, e, EndCurrent);
    } else if d.pc.WritePlan? {
      WritePlanNotes(s, e);
    } else {
      PlainPlanTick(s, e);
      PlainPlanDriver(s, e);
      QuietStepNotes(s, StepTick(s, e));
    }
  }

  /** The step to the decision is made for a captured failure only. */
  lemma PlainPlanDriver(s: State, e: Env)
    requires DriverNotes(s) && s.driver.Working? && (s.driver.pc.Top? || s.driver.pc.Choose? || s.driver.pc.EndSource?)
    ensures DriverNotes(StepTick(s, e))
  {
    if s.driver.pc.Top? {
      TopDriver(s);
    }
  }

  lemma TopDriver(s: State)
    requires DriverNotes(s) && s.driver.Working? && s.driver.pc.Top?
    ensures DriverNotes(StepTop(s))
  {}

  lemma AttachNotes(s: State)
    requires Inv(s) && Noted(s) && On(s, AttachToPlan)
    ensures Noted(StepAttach(s))
  {
    var d, t := s.driver, StepAttach(s);
    if t.driver.Idle? {
      QuietStepNotes(s, t);
    } else {
      AttachIsSteady(s.ledger, s.owner, d.task, d.child);
      SteadyKeeps(s, t);
    }
  }

  lemma QueueChildNotes(s: State)
    requires Inv(s) && Linked(s) && Noted(s) && On(s, QueueChild)
    ensures Noted(StepQueueChild(s))
  {
    var d, t := s.driver, StepQueueChild(s);
    if t.driver.Idle? {
      QuietStepNotes(s, t);
    } else {
      QueueShape(s.ledger, s.owner, s.root, d.child, Some(d.task), d.count + 1, d.plan);
      QueuedNotes(s, t, d.child);
    }
  }

  lemma BirthTickNotes(s: State, e: Env)
    requires Inv(s) && Linked(s) && Noted(s) && s.driver.Working? && InBirth(s.driver.pc)
    ensures Noted(StepTick(s, e))
  {
    match s.driver.pc
    case AttachToPlan => AttachNotes(s);
    case QueueChild => QueueChildNotes(s);
    case _ => CreateNotes(s, e);
  }

  lemma CreateNotes(s: State, e: Env)
    requires Inv(s) && Noted(s) && (On(s, Discard) || On(s, CreateChild))
    ensures Noted(StepTick(s, e))
  {
    if On(s, Discard) {
      QuietStepNotes(s, At(s, CreateChild));
    } else {
      CreateChildNotes(s, e);
    }
  }

  lemma CreateChildNotes(s: State, e: Env)
    requires Inv(s) && Noted(s) && On(s, CreateChild)
    ensures Noted(StepCreateChild(s, e))
  {
    QuietStepNotes(s, StepCreateChild(s, e));
  }

  /** The plan of a child that was canceled in its backoff is closed after the child's verdict. */
  lemma CancelMarkNotes(s: State)
    requires Inv(s) && Linked(s) && Noted(s) && On(s, CancelMark)
    ensures Noted(OnChild(s.(ledger := MarkTransition(s.ledger, s.owner, s.driver.task, TransitionCanceled))))
  {
    var d, t := s.driver, OnChild(s.(ledger := MarkTransition(s.ledger, s.owner, s.driver.task, TransitionCanceled)));
    forall q | q in t.ledger.transitions ensures StartedIfPlanned(t, q) {
      assert StartedIfPlanned(s, q);
    }
    forall c | c in t.ledger.attempts ensures OpenIfQueued(t, c) {
      assert AttemptOk(s, c) && LinkOk(s, c) && OpenIfQueued(s, c);
    }
  }

  lemma BusyNotes(s: State, e: Env)
    requires Inv(s) && Noted(s) && On(s, BusyAudit)
    ensures Noted(OnChild(StepDecision(s, s.driver.child, Blocked, e, BusyAudit)))
  {
    var m := StepDecision(s, s.driver.child, Blocked, e, BusyAudit);
    DecisionIsSteady(s.ledger, s.owner, s.driver.child, Blocked, e.verdict, e.now);
    SteadyKeeps(s, OnChild(m));
  }

  lemma PlainLateDriver(s: State, e: Env)
    requires s.driver.Working?
    requires s.driver.pc.CheckAudit? || s.driver.pc.Backoff? || s.driver.pc.RunChild? || s.driver.pc.CancelChild?
             || s.driver.pc.EndCurrent? || s.driver.pc.EndRoot?
    ensures var t := StepTick(s, e); t.driver.Working? ==> !AfterStart(t.driver) && !t.driver.pc.CancelMark?
  {}

  /** Late ticks that write nothing. */
  lemma PlainLateNotes(s: State, e: Env)
    requires Inv(s) && Linked(s) && Noted(s) && s.driver.Working?
    requires s.driver.pc.CheckAudit? || s.driver.pc.Backoff? || s.driver.pc.RunChild? || s.driver.pc.CancelChild?
             || s.driver.pc.EndCurrent? || s.driver.pc.EndRoot?
    ensures Noted(StepTick(s, e))
  {
    var t := StepTick(s, e);
    PlainLateTick(s, e);
    PlainLateDriver(s, e);
    QuietStepNotes(s, t);
  }

  lemma LateTickNotes(s: State, e: Env)
    requires Inv(s) && Linked(s) && Noted(s) && s.driver.Working?
    requires !InAttempt(s.driver.pc) && !InPlan(s.driver.pc) && !InBirth(s.driver.pc)
    ensures Noted(StepTick(s, e))
  {
    var d := s.driver;
    match d.pc
    case CancelAudit => DecisionNotes(s, d.child, Canceled, e, CancelMark);
    case CancelMark => CancelMarkNotes(s);
    case BusyAudit => BusyNotes(s, e);
    case _ => PlainLateNotes(s, e);
  }

  lemma OutsideNotes(s: State, c: Choice)
    requires Inv(s) && Noted(s) && Attached(s) && !c.Tick?
    ensures Noted(Step(s, c))
  {
    OutsideStep(s, c);
    if s.driver.Working? && !c.Crash? {
      OthersLeaveDriver(s, c);
    }
    QuietStepNotes(s, Step(s, c));
  }

  lemma StepKeepsNotes(s: State, c: Choice)
    requires Inv(s) && Linked(s) && Noted(s)
    ensures Noted(Step(s, c))
  {
    if !c.Tick? {
      OutsideNotes(s, c);
    } else if s.driver.Working? {
      if InAttempt(s.driver.pc) {
        AttemptTickNotes(s, c.env);
      } else if InPlan(s.driver.pc) {
        PlanTickNotes(s, c.env);
      } else if InBirth(s.driver.pc) {
        BirthTickNotes(s, c.env);
      } else {
        LateTickNotes(s, c.env);
      }
    }
  }

  /** In every reachable state only started attempts have plans, and the plan of a queued child is open. */
  lemma {:induction false} NotesAlways(owner: string, root: TaskId, cs: seq<Choice>)
    ensures Noted(Exec(Init(owner, root), cs))
  {
    if cs != [] {
      NotesAlways(owner, root, cs[..|cs| - 1]);
      InvAlways(owner, root, cs[..|cs| - 1]);
      LinksAlways(owner, root, cs[..|cs| - 1]);
      StepKeepsNotes(Exec(Init(owner, root), cs[..|cs| - 1]), cs[|cs| - 1]);
    }
  }

  // ----- a child that waits for its start -----

  /** A retry child whose audit row says queued and unstarted. */
  predicate WaitsForStart(s: State, c: TaskId) {
    && c in s.tasks && s.tasks[c].auto && s.tasks[c].parent.Some?
    && IsQueued(s.ledger, c) && s.ledger.attempts[c].startedAt.None?
  }

  /**
   Whatever happened before, and whoever died: the plan that led to a queued, unstarted child can be adopted again if
   and only if the checks on side effects and time pass, the root runs, the source may be retried and no second child
   claims the index.
   */
  lemma QueuedChildIsAdoptedExactly(owner: string, root: TaskId, cs: seq<Choice>, s: State, c: TaskId, allowed: bool)
    requires s == Exec(Init(owner, root), cs) && s.driver.Idle? && WaitsForStart(s, c)
    ensures var p := s.tasks[c].parent.value;
            Step(s, Adopt(p, allowed)).driver.Working? <==>
              allowed && RootRuns(s) && SourceMayRetry(s, p) && OneClaim(s, p, s.tasks[c].index)
  {
    InvAlways(owner, root, cs);
    LinksAlways(owner, root, cs);
    NotesAlways(owner, root, cs);
    var p := s.tasks[c].parent.value;
    assert AttemptOk(s, c) && LinkOk(s, c) && ChildOk(s, c) && OpenIfQueued(s, c);
    assert c in s.ledger.transitions ==> StartedIfPlanned(s, c);
    ResumedExactly(s, p, allowed);
  }

  /**
   In particular this is so after a crash between the queueing of a child and the record of its start, and any further
   crashes and status changes.
   */
  lemma CrashedBeforeStartIsAdoptedExactly(owner: string, root: TaskId, cs: seq<Choice>, s: State, quiet: seq<Choice>, allowed: bool)
    requires s == Exec(Init(owner, root), cs) && Quiet(quiet)
    requires Awaited(s.driver).Some? && Awaited(s.driver).value.child != root
    ensures var u := Exec(Step(s, Crash), quiet);
            var x := Awaited(s.driver).value;
            && WaitsForStart(u, x.child)
            && var p := u.tasks[x.child].parent.value;
               Step(u, Adopt(p, allowed)).driver.Working? <==>
                 allowed && RootRuns(u) && SourceMayRetry(u, p) && OneClaim(u, p, x.count)
  {
    var u := Exec(Step(s, Crash), quiet);
    var x := Awaited(s.driver).value;
    InvAlways(owner, root, cs);
    RootNeverMoves(Init(owner, root), cs);
    QuietOrphans(s, quiet);
    AwaitedIsOnRecord(s);
    assert ChildOk(s, x.child);
    RunAfterCrash(Init(owner, root), cs, quiet);
    QueuedChildIsAdoptedExactly(owner, root, (cs + [Crash]) + quiet, u, x.child, allowed);
  }

  lemma {:induction false} RunAfterCrash(s: State, cs: seq<Choice>, quiet: seq<Choice>)
    ensures Exec(s, (cs + [Crash]) + quiet) == Exec(Step(Exec(s, cs), Crash), quiet)
  {
    if quiet == [] {
      assert (cs + [Crash]) + quiet == cs + [Crash];
      assert (cs + [Crash])[..|cs|] == cs;
    } else {
      var n := |quiet| - 1;
      RunAfterCrash(s, cs, quiet[..n]);
      var whole := (cs + [Crash]) + quiet;
      assert whole[..|whole| - 1] == (cs + [Crash]) + quiet[..n] && whole[|whole| - 1] == quiet[n];
    }
  }

  // ----- recovery in any state -----

  /** A queued attempt has no start and no provider. */
  predicate Untouched(l: Ledger, a: TaskId) {
    IsQueued(l, a) ==> l.attempts[a].startedAt.None? && l.attempts[a].provider == 0
  }

  ghost predicate QueuedUntouched(l: Ledger) {
    forall a {:trigger Untouched(l, a)} :: a in l.attempts ==> Untouched(l, a)
  }

  /** No attempt becomes queued, and queued ones are left as they are. */
  ghost predicate QueueUnchanged(l: Ledger, m: Ledger) {
    forall a {:trigger IsQueued(m, a)} :: IsQueued(m, a) ==> a in l.attempts && m.attempts[a] == l.attempts[a]
  }

  lemma UnchangedKeeps(l: Ledger, m: Ledger)
    requires QueuedUntouched(l) && QueueUnchanged(l, m)
    ensures QueuedUntouched(m)
  {
    forall a | a in m.attempts ensures Untouched(m, a) {
      if IsQueued(m, a) {
        assert Untouched(l, a);
      }
    }
  }

  lemma QueueKeeps(l: Ledger, owner: string, root: TaskId, id: TaskId, parent: Option<TaskId>, index: nat, trigger: Plan)
    requires QueuedUntouched(l) && RecordQueued(l, owner, root, id, parent, index, trigger).Ok?
    ensures QueuedUntouched(RecordQueued(l, owner, root, id, parent, index, trigger).value)
  {
    var m := RecordQueued(l, owner, root, id, parent, index, trigger).value;
    forall a | a in m.attempts ensures Untouched(m, a) {
      assert a in l.attempts ==> Untouched(l, a);
    }
  }

  lemma AttemptKeepsQueue(s: State, e: Env)
    requires QueuedUntouched(s.ledger) && s.driver.Working? && InAttempt(s.driver.pc)
    ensures QueuedUntouched(StepTick(s, e).ledger)
  {
    if s.driver.pc.QueueAudit? || s.driver.pc.StartQueue? {
      if QueueBlank(s).Ok? {
        QueueKeeps(s.ledger, s.owner, s.root, s.driver.task, ParentOf(s, s.driver.task), s.driver.count, BLANK);
      }
    } else {
      AttemptLeavesQueue(s, e);
      UnchangedKeeps(s.ledger, StepTick(s, e).ledger);
    }
  }

  lemma AttemptLeavesQueue(s: State, e: Env)
    requires s.driver.Working? && InAttempt(s.driver.pc) && !s.driver.pc.QueueAudit? && !s.driver.pc.StartQueue?
    ensures QueueUnchanged(s.ledger, StepTick(s, e).ledger)
  {}

  lemma LoopLeavesQueue(s: State, e: Env)
    requires s.driver.Working? && (InPlan(s.driver.pc) || InBirth(s.driver.pc)) && !s.driver.pc.QueueChild?
    ensures QueueUnchanged(s.ledger, StepTick(s, e).ledger)
  {}

  lemma LateLeavesQueue(s: State, e: Env)
    requires s.driver.Working? && !InAttempt(s.driver.pc) && !InPlan(s.driver.pc) && !InBirth(s.driver.pc)
    ensures QueueUnchanged(s.ledger, StepTick(s, e).ledger)
  {}

  lemma StepKeepsQueue(s: State, c: Choice)
    requires QueuedUntouched(s.ledger)
    ensures QueuedUntouched(Step(s, c).ledger)
  {
    if c.Tick? && s.driver.Working? {
      var d := s.driver;
      if InAttempt(d.pc) {
        AttemptKeepsQueue(s, c.env);
      } else if d.pc.QueueChild? {
        if RecordQueued(s.ledger, s.owner, s.root, d.child, Some(d.task), d.count + 1, d.plan).Ok? {
          QueueKeeps(s.ledger, s.owner, s.root, d.child, Some(d.task), d.count + 1, d.plan);
        }
      } else {
        if InPlan(d.pc) || InBirth(d.pc) {
          LoopLeavesQueue(s, c.env);
        } else {
          LateLeavesQueue(s, c.env);
        }
        UnchangedKeeps(s.ledger, StepTick(s, c.env).ledger);
      }
    }
  }

  lemma {:induction false} QueueAlways(owner: string, root: TaskId, cs: seq<Choice>)
    ensures QueuedUntouched(Exec(Init(owner, root), cs).ledger)
  {
    if cs != [] {
      QueueAlways(owner, root, cs[..|cs| - 1]);
      StepKeepsQueue(Exec(Init(owner, root), cs[..|cs| - 1]), cs[|cs| - 1]);
    }
  }

  /**
   In every reachable state without a driver, so wherever workers died and whatever statuses changed since, and for every
   task: `run_from_retry_child` accepts it if and only if it is a retry child that waits, its audit row says queued and
   the root runs. It then enters that child, with its index and the exclusions it was queued with.
   */
  lemma AnyRecoveryExactly(owner: string, root: TaskId, cs: seq<Choice>, s: State, c: TaskId)
    requires s == Exec(Init(owner, root), cs) && s.driver.Idle?
    ensures var t := Step(s, Recover(c, true));
            && (t.driver.Working? <==>
                  c in s.tasks && s.tasks[c].auto && s.tasks[c].status.Waiting? && IsQueued(s.ledger, c) && RootRuns(s))
            && (t.driver.Working? ==>
                  NextEntry(t, []) == Some(Entry(c, s.tasks[c].index, s.ledger.attempts[c].trigger.excluded)))
  {
    InvAlways(owner, root, cs);
    QueueAlways(owner, root, cs);
    if c in s.tasks && s.tasks[c].auto && IsQueued(s.ledger, c) {
      assert ChildOk(s, c) && AttemptOk(s, c) && Untouched(s.ledger, c);
    }
  }
}
