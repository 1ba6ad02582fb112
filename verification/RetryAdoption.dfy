/** When the journal of a dead worker is adopted, and that the adopted plan is carried out. */
module RetryAdoption {
  import opened Common
  import opened RetryLedger
  import opened RetryChain
  import opened RetryChainInvariant
  import opened RetryChainSteps
  import opened RetryRecovery

  // ----- attempts are attached children -----

  /** A retry child has an audit row only after the transition of its parent names it. */
  ghost predicate LinkOk(s: State, a: TaskId) {
    a in s.tasks && s.tasks[a].auto ==>
      && s.tasks[a].parent.Some? && s.tasks[a].parent.value in s.ledger.transitions
      && s.ledger.transitions[s.tasks[a].parent.value].child == Some(a)
  }

  predicate PlanOpen(t: Transition) {
    t.child.None? ==> t.state.Open()
  }

  ghost predicate JournalLinked(s: State) {
    && (forall a {:trigger LinkOk(s, a)} :: a in s.ledger.attempts ==> LinkOk(s, a))
    && (forall p {:trigger PlanOpen(s.ledger.transitions[p])} :: p in s.ledger.transitions ==> PlanOpen(s.ledger.transitions[p]))
  }

  predicate HoldsAttached(pc: Pc) {
    pc.QueueChild? || pc.CheckAudit? || pc.Backoff? || pc.RunChild? || HoldsChildOnly(pc)
  }

  /** From its attachment on, the child the driver holds is the one in the journal. */
  predicate Attached(s: State) {
    s.driver.Working? && HoldsAttached(s.driver.pc) ==>
      && s.driver.task in s.ledger.transitions
      && s.ledger.transitions[s.driver.task].child == Some(s.driver.child)
      && (s.driver.pc.QueueChild? ==> s.ledger.transitions[s.driver.task].state.Open())
  }

  ghost predicate Linked(s: State) {
    JournalLinked(s) && Attached(s)
  }

  /** No attempt is added, no child is forgotten, and a plan without a child stays open. */
  ghost predicate LinksKept(l: Ledger, m: Ledger) {
    && m.attempts.Keys == l.attempts.Keys
    && (forall p :: p in l.transitions ==>
          p in m.transitions && (l.transitions[p].child.Some? ==> m.transitions[p].child == l.transitions[p].child))
    && (forall p {:trigger PlanOpen(m.transitions[p])} :: p in m.transitions ==>
          (p in l.transitions && PlanOpen(l.transitions[p])) || p !in l.transitions ==> PlanOpen(m.transitions[p]))
  }

  lemma KeptLinks(s: State, t: State)
    requires Inv(s) && JournalLinked(s) && LinksKept(s.ledger, t.ledger)
    requires forall i :: i in s.tasks ==> i in t.tasks && SameLineage(s.tasks[i], t.tasks[i])
    ensures JournalLinked(t)
  {
    forall a | a in t.ledger.attempts ensures LinkOk(t, a) {
      assert LinkOk(s, a) && AttemptOk(s, a);
    }
    forall p | p in t.ledger.transitions ensures PlanOpen(t.ledger.transitions[p]) {
      assert p in s.ledger.transitions ==> PlanOpen(s.ledger.transitions[p]);
    }
  }

  /** One audit row of a task that may have one. */
  lemma QueuedLinks(s: State, t: State, id: TaskId)
    requires Inv(s) && JournalLinked(s) && t.ledger.transitions == s.ledger.transitions && t.tasks == s.tasks
    requires t.ledger.attempts.Keys == s.ledger.attempts.Keys + {id} && LinkOk(s, id)
    ensures JournalLinked(t)
  {
    forall a | a in t.ledger.attempts ensures LinkOk(t, a) {
      assert a != id ==> LinkOk(s, a);
    }
    forall p | p in t.ledger.transitions ensures PlanOpen(t.ledger.transitions[p]) {
      assert PlanOpen(s.ledger.transitions[p]);
    }
  }

  lemma DecisionKeepsLinks(l: Ledger, owner: string, id: TaskId, state: AttemptState, v: Verdict, now: int)
    ensures LinksKept(l, RecordDecision(l, owner, id, state, v, now))
  {}

  lemma MarkStartedKeepsLinks(l: Ledger, owner: string, id: TaskId, provider: nat, now: int)
    ensures LinksKept(l, MarkStarted(l, owner, id, provider, now))
  {}

  lemma MarkKeepsLinks(l: Ledger, owner: string, p: TaskId, state: TransitionState)
    requires p in l.transitions ==> l.transitions[p].child.Some?
    ensures LinksKept(l, MarkTransition(l, owner, p, state))
  {}

  lemma PlanKeepsLinks(l: Ledger, owner: string, root: TaskId, source: TaskId, m: nat, v: Verdict, plan: Plan, now: int)
    requires RecordRetryPlan(l, owner, root, source, m, m + 1, v, plan, now).Ok?
    ensures LinksKept(l, RecordRetryPlan(l, owner, root, source, m, m + 1, v, plan, now).value)
  {}

  lemma AttachKeepsLinks(l: Ledger, owner: string, source: TaskId, child: TaskId)
    requires AttachChild(l, owner, source, child).Ok?
    ensures LinksKept(l, AttachChild(l, owner, source, child).value)
  {}

  lemma SameLedgerLinks(l: Ledger)
    ensures LinksKept(l, l)
  {}

  // ----- every step keeps the links -----

  lemma QueueBlankLinks(s: State, next: Pc)
    requires Inv(s) && Linked(s) && (On(s, QueueAudit) || On(s, StartQueue)) && !HoldsAttached(next)
    ensures Linked(StepQueueBlank(s, next))
  {
    if QueueBlank(s).Ok? {
      QueuedBlankLinks(s, next);
    } else {
      QuietStepLinks(s, Gone(s));
    }
  }

  lemma QueuedBlankLinks(s: State, next: Pc)
    requires Inv(s) && Linked(s) && (On(s, QueueAudit) || On(s, StartQueue)) && !HoldsAttached(next) && QueueBlank(s).Ok?
    ensures Linked(At(s.(ledger := QueueBlank(s).value), next))
  {
    var id := s.driver.task;
    assert id in s.ledger.attempts ==> AttemptOk(s, id) && LinkOk(s, id);
    QueueShape(s.ledger, s.owner, s.root, id, s.tasks[id].parent, s.driver.count, BLANK);
    QueuedLinks(s, At(s.(ledger := QueueBlank(s).value), next), id);
  }

  lemma DecisionLinks(s: State, id: TaskId, state: AttemptState, e: Env, next: Pc)
    requires Inv(s) && Linked(s) && s.driver.Working?
    requires HoldsAttached(next) ==> HoldsAttached(s.driver.pc) && !next.QueueChild?
    ensures Linked(StepDecision(s, id, state, e, next))
  {
    DecisionKeepsLinks(s.ledger, s.owner, id, state, e.verdict, e.now);
    KeptLinks(s, StepDecision(s, id, state, e, next));
  }

  /** A step that leaves the ledger and the lineage alone. */
  lemma QuietStepLinks(s: State, t: State)
    requires Inv(s) && Linked(s) && t.ledger == s.ledger && Attached(t)
    requires forall i :: i in s.tasks ==> i in t.tasks && SameLineage(s.tasks[i], t.tasks[i])
    ensures Linked(t)
  {
    SameLedgerLinks(s.ledger);
    KeptLinks(s, t);
  }

  predicate PlainAttempt(pc: Pc) {
    pc.Enter? || pc.Preflight? || pc.BlockTask? || pc.Launch? || pc.Hosting?
  }

  lemma AuditTickLinks(s: State, e: Env)
    requires Inv(s) && Linked(s) && s.driver.Working? && InAttempt(s.driver.pc) && !PlainAttempt(s.driver.pc)
    ensures Linked(StepTick(s, e))
  {
    var d := s.driver;
    match d.pc
    case QueueAudit => QueueBlankLinks(s, Preflight);
    case StartQueue => QueueBlankLinks(s, RetryChain.Mark);
    case LostAudit => DecisionLinks(s, d.task, Blocked, e, EndCurrent);
    case BlockAudit => DecisionLinks(s, d.task, Blocked, e, BlockTask);
    case SettleAudit => SettleLinks(s, e);
    case Mark => MarkLinks(s, e);
  }

  lemma MarkLinks(s: State, e: Env)
    requires Inv(s) && Linked(s) && On(s, RetryChain.Mark)
    ensures Linked(StepMark(s, e))
  {
    MarkStartedKeepsLinks(s.ledger, s.owner, s.driver.task, e.provider, e.now);
    KeptLinks(s, StepMark(s, e));
  }

  lemma AttemptTickLinks(s: State, e: Env)
    requires Inv(s) && Linked(s) && s.driver.Working? && InAttempt(s.driver.pc)
    ensures Linked(StepTick(s, e))
  {
    if PlainAttempt(s.driver.pc) {
      PlainAttemptTick(s, e);
      QuietStepLinks(s, StepTick(s, e));
    } else {
      AuditTickLinks(s, e);
    }
  }

  /** Ticks of an attempt that write no audit row. */
  lemma PlainAttemptTick(s: State, e: Env)
    requires s.driver.Working? && PlainAttempt(s.driver.pc)
    ensures var t := StepTick(s, e);
            && t.ledger == s.ledger && (t.driver.Working? ==> !HoldsAttached(t.driver.pc))
            && forall i :: i in s.tasks ==> i in t.tasks && SameLineage(s.tasks[i], t.tasks[i])
  {}

  lemma SettleLinks(s: State, e: Env)
    requires Inv(s) && Linked(s) && On(s, SettleAudit)
    ensures Linked(StepSettleAudit(s, e))
  {
    var id := s.driver.task;
    DecisionLinks(s, id, Succeeded, e, Top);
    DecisionLinks(s, id, Canceled, e, Top);
    DecisionLinks(s, id, Failed, e, Top);
    QuietStepLinks(s, At(s, Top));
  }

  lemma PlanTickLinks(s: State, e: Env)
    requires Inv(s) && Linked(s) && s.driver.Working? && InPlan(s.driver.pc)
    ensures Linked(StepTick(s, e))
  {
    var d := s.driver;
    if d.pc.Refuse? {
      DecisionLinks(s, d.task, Failed, e, EndCurrent);
    } else if d.pc.WritePlan? {
      WritePlanLinks(s, e);
    } else {
      PlainPlanTick(s, e);
      QuietStepLinks(s, StepTick(s, e));
    }
  }

  lemma PlainPlanTick(s: State, e: Env)
    requires s.driver.Working? && (s.driver.pc.Top? || s.driver.pc.Choose? || s.driver.pc.EndSource?)
    ensures var t := StepTick(s, e);
            && t.ledger == s.ledger && (t.driver.Working? ==> !HoldsAttached(t.driver.pc))
            && forall i :: i in s.tasks ==> i in t.tasks && SameLineage(s.tasks[i], t.tasks[i])
  {}

  lemma WritePlanLinks(s: State, e: Env)
    requires Inv(s) && Linked(s) && On(s, WritePlan)
    ensures Linked(StepWritePlan(s, e))
  {
    var d, t := s.driver, StepWritePlan(s, e);
    if t.driver.Working? {
      PlanKeepsLinks(s.ledger, s.owner, s.root, d.task, d.count, e.verdict, d.plan, e.now);
    } else {
      SameLedgerLinks(s.ledger);
    }
    KeptLinks(s, t);
  }

  lemma CreateLinks(s: State, e: Env)
    requires Inv(s) && Linked(s) && On(s, CreateChild)
    ensures Linked(StepCreateChild(s, e))
  {
    QuietStepLinks(s, StepCreateChild(s, e));
  }

  lemma AttachLinks(s: State)
    requires Inv(s) && Linked(s) && On(s, AttachToPlan)
    ensures Linked(StepAttach(s))
  {
    var d, t := s.driver, StepAttach(s);
    if t.driver.Working? {
      AttachKeepsLinks(s.ledger, s.owner, d.task, d.child);
    } else {
      SameLedgerLinks(s.ledger);
    }
    KeptLinks(s, t);
  }

  lemma QueueChildLinks(s: State)
    requires Inv(s) && Linked(s) && On(s, QueueChild)
    ensures Linked(StepQueueChild(s))
  {
    var d, t := s.driver, StepQueueChild(s);
    if t.driver.Working? {
      QueueShape(s.ledger, s.owner, s.root, d.child, Some(d.task), d.count + 1, d.plan);
      QueuedLinks(s, t, d.child);
    } else {
      QuietStepLinks(s, t);
    }
  }

  lemma AttachTickLinks(s: State, e: Env)
    requires Inv(s) && Linked(s) && On(s, AttachToPlan)
    ensures Linked(StepTick(s, e))
  {
    AttachLinks(s);
  }

  lemma QueueTickLinks(s: State, e: Env)
    requires Inv(s) && Linked(s) && On(s, QueueChild)
    ensures Linked(StepTick(s, e))
  {
    QueueChildLinks(s);
  }

  lemma DiscardTickLinks(s: State, e: Env)
    requires Inv(s) && Linked(s) && On(s, Discard)
    ensures Linked(StepTick(s, e))
  {
    QuietStepLinks(s, At(s, CreateChild));
  }

  lemma CreateTickLinks(s: State, e: Env)
    requires Inv(s) && Linked(s) && On(s, CreateChild)
    ensures Linked(StepTick(s, e))
  {
    CreateLinks(s, e);
  }

  lemma BirthTickLinks(s: State, e: Env)
    requires Inv(s) && Linked(s) && s.driver.Working? && InBirth(s.driver.pc)
    ensures Linked(StepTick(s, e))
  {
    match s.driver.pc
    case Discard => DiscardTickLinks(s, e);
    case CreateChild => CreateTickLinks(s, e);
    case AttachToPlan => AttachTickLinks(s, e);
    case QueueChild => QueueTickLinks(s, e);
  }

  /** Late ticks that write no audit row and no journal row. */
  lemma PlainLateTick(s: State, e: Env)
    requires s.driver.Working? && Attached(s)
    requires s.driver.pc.CheckAudit? || s.driver.pc.Backoff? || s.driver.pc.RunChild? || s.driver.pc.CancelChild?
             || s.driver.pc.EndCurrent? || s.driver.pc.EndRoot?
    ensures var t := StepTick(s, e);
            && t.ledger == s.ledger && Attached(t)
            && forall i :: i in s.tasks ==> i in t.tasks && SameLineage(s.tasks[i], t.tasks[i])
  {}

  lemma LateTickLinks(s: State, e: Env)
    requires Inv(s) && Linked(s) && s.driver.Working?
    requires !InAttempt(s.driver.pc) && !InPlan(s.driver.pc) && !InBirth(s.driver.pc)
    ensures Linked(StepTick(s, e))
  {
    var d, t := s.driver, StepTick(s, e);
    if d.pc.CancelAudit? {
      DecisionLinks(s, d.child, Canceled, e, CancelMark);
    } else if d.pc.CancelMark? {
      MarkKeepsLinks(s.ledger, s.owner, d.task, TransitionCanceled);
      KeptLinks(s, t);
    } else if d.pc.BusyAudit? {
      BusyLinks(s, e);
    } else {
      PlainLateTick(s, e);
      QuietStepLinks(s, t);
    }
  }

  lemma BusyLinks(s: State, e: Env)
    requires Inv(s) && Linked(s) && On(s, BusyAudit)
    ensures Linked(OnChild(StepDecision(s, s.driver.child, Blocked, e, BusyAudit)))
  {
    DecisionKeepsLinks(s.ledger, s.owner, s.driver.child, Blocked, e.verdict, e.now);
    KeptLinks(s, OnChild(StepDecision(s, s.driver.child, Blocked, e, BusyAudit)));
  }

  lemma StepKeepsLinks(s: State, c: Choice)
    requires Inv(s) && Linked(s)
    ensures Linked(Step(s, c))
  {
    if c.Tick? {
      if s.driver.Working? {
        if InAttempt(s.driver.pc) {
          AttemptTickLinks(s, c.env);
        } else if InPlan(s.driver.pc) {
          PlanTickLinks(s, c.env);
        } else if InBirth(s.driver.pc) {
          BirthTickLinks(s, c.env);
        } else {
          LateTickLinks(s, c.env);
        }
      }
    } else {
      OutsideStep(s, c);
      QuietStepLinks(s, Step(s, c));
    }
  }

  lemma OutsideStep(s: State, c: Choice)
    requires !c.Tick? && Attached(s)
    ensures var t := Step(s, c);
            && t.ledger == s.ledger && Attached(t)
            && forall i :: i in s.tasks ==> i in t.tasks && SameLineage(s.tasks[i], t.tasks[i])
  {}

  lemma {:induction false} LinksAlways(owner: string, root: TaskId, cs: seq<Choice>)
    ensures Linked(Exec(Init(owner, root), cs))
  {
    if cs != [] {
      LinksAlways(owner, root, cs[..|cs| - 1]);
      InvAlways(owner, root, cs[..|cs| - 1]);
      StepKeepsLinks(Exec(Init(owner, root), cs[..|cs| - 1]), cs[|cs| - 1]);
    }
  }

  // ----- acceptance -----

  predicate Resumable(pc: Pc) {
    pc.EndSource? || pc.Discard? || pc.CreateChild? || pc.AttachToPlan? || pc.QueueChild?
  }

  /** A plan that has no child in the journal yet, or whose child was just attached and not queued. */
  ghost predicate FreshPlan(s: State) {
    && s.driver.Working? && Resumable(s.driver.pc) && s.driver.task in s.ledger.transitions
    && (s.ledger.transitions[s.driver.task].child.None?
        || (s.driver.pc.QueueChild? && s.driver.child !in s.ledger.attempts))
  }

  predicate NoneBeyond(s: State, index: nat) {
    forall a :: a in s.ledger.attempts ==> s.ledger.attempts[a].index <= index
  }

  /** No attempt has a higher index than the source of such a plan. */
  lemma FreshPlanIsLast(s: State)
    requires Inv(s) && Linked(s) && FreshPlan(s)
    ensures NoneBeyond(s, s.driver.count)
  {
    var p := s.driver.task;
    assert AttemptOk(s, p);
    forall a | a in s.ledger.attempts ensures s.ledger.attempts[a].index <= s.driver.count {
      var i := s.ledger.attempts[a].index;
      if i > s.driver.count {
        BeyondIsAttached(s, a);
      }
    }
  }

  /** An attempt beyond the source would be, or descend from, the attached and queued child of the source. */
  lemma BeyondIsAttached(s: State, a: TaskId)
    requires Inv(s) && Linked(s) && s.driver.Working? && s.driver.task in s.ledger.attempts
    requires a in s.ledger.attempts && s.ledger.attempts[a].index > s.driver.count
    ensures s.driver.task in s.ledger.transitions && s.ledger.transitions[s.driver.task].child.Some?
    ensures s.ledger.transitions[s.driver.task].child.value in s.ledger.attempts
  {
    var p, k := s.driver.task, s.ledger.attempts[a].index - s.driver.count;
    AncestorsAreAttempts(s, a, k);
    AncestorsAreAttempts(s, a, k - 1);
    var b := Ancestor(s, a, k - 1);
    assert AttemptOk(s, p) && AttemptOk(s, b) && LinkOk(s, b);
    SlotDecidesAttempt(s, Ancestor(s, a, k), p);
    assert s.tasks[b].auto;
    assert ChildOk(s, b);
    assert Ancestor(s, a, k) == s.tasks[b].parent.value;
  }

  /** So its transition is the latest open one. */
  lemma FreshPlanIsLatestOpen(s: State, u: State)
    requires Inv(s) && Linked(s) && FreshPlan(s) && Orphaned(s, u)
    ensures LatestOpen(u, s.driver.task)
  {
    FreshPlanIsLast(s);
    var p := s.driver.task;
    assert PlanOpen(s.ledger.transitions[p]);
    assert s.ledger.transitions[p].next == s.driver.count + 1;
    forall q | q in u.ledger.transitions && u.ledger.transitions[q].state.Open()
      ensures u.ledger.transitions[q].next <= u.ledger.transitions[p].next
    {
      assert TransitionOk(s, q) && AttemptOk(s, q);
    }
  }

  predicate RootRuns(u: State) {
    u.root in u.tasks && u.tasks[u.root].status.Active? && !u.tasks[u.root].cancel
  }

  /** The source is the root, or still counts as a running or failed attempt. */
  predicate SourceMayRetry(u: State, source: TaskId) {
    source in u.tasks && (source == u.root || u.tasks[source].status.Active? || u.tasks[source].status.Broken?)
  }

  /** At most one retry child claims the index, and it is a child of the source. */
  predicate OneClaim(u: State, source: TaskId, index: nat) {
    |Claiming(u, index)| <= 1 && forall c :: c in Claiming(u, index) ==> u.tasks[c].parent == Some(source)
  }

  lemma ClaimsOfAttached(xs: set<TaskId>, child: TaskId)
    requires child in xs
    ensures xs == {child} <==> |xs| <= 1
  {
    if |xs| <= 1 {
      forall c | c in xs ensures c == child {
        assert |xs| == 1;
        OnlyOne(xs, c, child);
      }
    }
  }

  /**
   After a crash with such a plan, and any further crashes and status changes, the adoption of the journal is accepted
   if and only if the checks on side effects and time pass, the root runs, the source may be retried and no second
   child claims the index.
   */
  lemma AdoptionAcceptedExactly(owner: string, root: TaskId, cs: seq<Choice>, s: State, quiet: seq<Choice>, allowed: bool)
    requires s == Exec(Init(owner, root), cs) && FreshPlan(s) && Quiet(quiet)
    ensures var u := Exec(Step(s, Crash), quiet);
            Step(u, Adopt(s.driver.task, allowed)).driver.Working? <==>
            allowed && RootRuns(u) && SourceMayRetry(u, s.driver.task) && OneClaim(u, s.driver.task, s.driver.count + 1)
  {
    var u := Exec(Step(s, Crash), quiet);
    InvAlways(owner, root, cs);
    LinksAlways(owner, root, cs);
    QuietOrphans(s, quiet);
    AcceptedExactly(s, u, allowed);
  }

  lemma AcceptedExactly(s: State, u: State, allowed: bool)
    requires Inv(s) && Linked(s) && FreshPlan(s) && Orphaned(s, u)
    ensures StepAdopt(u, s.driver.task, allowed).driver.Working? <==>
            allowed && RootRuns(u) && SourceMayRetry(u, s.driver.task) && OneClaim(u, s.driver.task, s.driver.count + 1)
  {
    var p := s.driver.task;
    var t := s.ledger.transitions[p];
    FreshPlanIsLatestOpen(s, u);
    assert TransitionOk(s, p) && t.next == s.driver.count + 1;
    var claiming := Claiming(u, t.next);
    if t.child.Some? {
      assert t.child.value == s.driver.child && s.driver.child in claiming;
      ClaimsOfAttached(claiming, s.driver.child);
    } else if |claiming| == 1 {
      var c :| c in claiming;
      forall b | b in claiming ensures b == c {
        OnlyOne(claiming, b, c);
      }
    }
  }

  // ----- an adopted plan is carried out -----

  function Ticks(e: Env, n: nat): seq<Choice> {
    if n == 0 then [] else [Tick(e)] + Ticks(e, n - 1)
  }

  /** A driver that restores a plan for which nothing stands in the way. */
  ghost predicate Resuming(t: State) {
    && t.driver.Working? && t.driver.recovering && Resumable(t.driver.pc) && RootRuns(t)
    && NoneBeyond(t, t.driver.count) && t.driver.task in t.ledger.transitions
    && (t.ledger.transitions[t.driver.task].child.None?
        || (HoldsChild(t.driver.pc) && t.ledger.transitions[t.driver.task].child == Some(t.driver.child)))
    && (HoldsChild(t.driver.pc) ==> t.driver.child in t.tasks && t.tasks[t.driver.child].status.Waiting?)
  }

  function Remaining(pc: Pc): nat {
    if pc.EndSource? then 6 else if pc.Discard? then 5 else if pc.CreateChild? then 4 else if pc.AttachToPlan? then 3 else 2
  }

  lemma EndsSource(t: State, e: Env)
    requires Inv(t) && Resuming(t) && On(t, EndSource)
    ensures var u := StepTick(t, e); Resuming(u) && On(u, Discard) && u.tasks.Keys == t.tasks.Keys
  {}

  lemma Discards(t: State, e: Env)
    requires Inv(t) && Resuming(t) && On(t, Discard)
    ensures var u := StepTick(t, e); Resuming(u) && On(u, CreateChild) && u.tasks == t.tasks
  {}

  lemma RestoresChild(t: State, e: Env)
    requires Inv(t) && Resuming(t) && On(t, CreateChild) && e.allowed && e.newId !in t.tasks
    ensures Resuming(StepTick(t, e)) && On(StepTick(t, e), AttachToPlan)
  {}

  lemma RestoresJournal(t: State, e: Env)
    requires Inv(t) && Resuming(t) && On(t, AttachToPlan)
    ensures Resuming(StepTick(t, e)) && On(StepTick(t, e), QueueChild)
  {
    assert TransitionOk(t, t.driver.task);
    var u := StepTick(t, e);
    assert u == StepAttach(t) && u.ledger.attempts == t.ledger.attempts;
  }

  /** The audit row is written with the plan. */
  lemma RestoresAudit(t: State, e: Env)
    requires Inv(t) && Resuming(t) && On(t, QueueChild)
    ensures var u, child := StepTick(t, e), t.driver.child;
            && On(u, CheckAudit) && u.tasks == t.tasks && u.root == t.root && u.driver == t.driver.(pc := CheckAudit)
            && child in u.ledger.attempts
            && var a := u.ledger.attempts[child];
               && a.owner == t.owner && a.root == t.root && a.parent == Some(t.driver.task) && a.index == t.driver.count + 1
               && a.state.Queued? && a.startedAt.None? && a.provider == 0 && a.trigger == t.driver.plan
  {
    var child := t.driver.child;
    assert child in t.ledger.attempts ==> AttemptOk(t, child);
    assert !AttemptIndexTaken(t.ledger, t.owner, t.root, child, t.driver.count + 1);
    QueueShape(t.ledger, t.owner, t.root, child, Some(t.driver.task), t.driver.count + 1, t.driver.plan);
  }

  /** It agrees with the plan, so the child is entered. */
  lemma AgreeingAuditIsEntered(u: State, e: Env)
    requires Inv(u) && On(u, CheckAudit) && e.allowed && RootRuns(u) && u.driver.child in u.ledger.attempts
    requires u.tasks[u.driver.child].status.Waiting?
    requires var a := u.ledger.attempts[u.driver.child];
             && a.owner == u.owner && a.root == u.root && a.parent == Some(u.driver.task) && a.index == u.driver.count + 1
             && a.state.Queued? && a.startedAt.None? && a.provider == 0 && a.trigger == u.driver.plan
    ensures On(StepTick(u, e), Enter)
  {
    assert ChildOk(u, u.driver.child);
  }

  lemma QueuedPlanIsEntered(t: State, e: Env)
    requires Inv(t) && Resuming(t) && On(t, QueueChild) && e.allowed
    ensures NextEntry(t, Ticks(e, 2)).Some?
  {
    var u := StepTick(t, e);
    RestoresAudit(t, e);
    TickKeeps(t, e);
    AgreeingAuditIsEntered(u, e);
    EntryAfter(t, Tick(e), Ticks(e, 1));
    EntryAfter(u, Tick(e), []);
    assert Ticks(e, 1) == [Tick(e)] + [];
  }

  lemma {:induction false} ResumedPlanIsEntered(t: State, e: Env)
    requires Inv(t) && Resuming(t) && e.allowed
    requires Remaining(t.driver.pc) >= 4 ==> e.newId !in t.tasks
    ensures NextEntry(t, Ticks(e, Remaining(t.driver.pc))).Some?
    decreases Remaining(t.driver.pc)
  {
    if On(t, QueueChild) {
      QueuedPlanIsEntered(t, e);
    } else {
      if On(t, CreateChild) {
        RestoresChild(t, e);
      } else if On(t, AttachToPlan) {
        RestoresJournal(t, e);
      } else if On(t, Discard) {
        Discards(t, e);
      } else {
        EndsSource(t, e);
      }
      TickKeeps(t, e);
      ResumedPlanIsEntered(StepTick(t, e), e);
      EntryAfter(t, Tick(e), Ticks(e, Remaining(t.driver.pc) - 1));
    }
  }

  /** An accepted adoption starts a driver that is resuming. */
  lemma AdoptedIsResuming(s: State, u: State)
    requires Inv(s) && Linked(s) && FreshPlan(s) && Orphaned(s, u)
    requires StepAdopt(u, s.driver.task, true).driver.Working?
    requires forall c :: c in Claiming(u, s.driver.count + 1) ==> u.tasks[c].status.Waiting?
    ensures Resuming(StepAdopt(u, s.driver.task, true))
  {
    var t := StepAdopt(u, s.driver.task, true);
    FreshPlanIsLast(s);
    AdoptionReloadsPlan(s, u, true);
    assert HoldsChild(t.driver.pc) ==> t.driver.child in Claiming(u, s.driver.count + 1);
  }

  /**
   Where the adoption is accepted and the child, if there is one, still waits, it is carried out: the driver enters the
   next index with the exclusions of the plan, on the child that the dead driver held.
   */
  lemma AdoptedPlanIsEntered(owner: string, root: TaskId, cs: seq<Choice>, s: State, quiet: seq<Choice>, e: Env)
    requires s == Exec(Init(owner, root), cs) && FreshPlan(s) && Quiet(quiet) && e.allowed
    requires var u := Exec(Step(s, Crash), quiet);
             && RootRuns(u) && SourceMayRetry(u, s.driver.task) && OneClaim(u, s.driver.task, s.driver.count + 1)
             && (forall c :: c in Claiming(u, s.driver.count + 1) ==> u.tasks[c].status.Waiting?) && e.newId !in u.tasks
    ensures var t := Step(Exec(Step(s, Crash), quiet), Adopt(s.driver.task, true));
            && t.driver.Working?
            && var x := NextEntry(t, Ticks(e, Remaining(t.driver.pc)));
               && x.Some? && x.value.count == s.driver.count + 1 && x.value.excluded == s.driver.plan.excluded
               && (HoldsChild(s.driver.pc) ==> x.value.child == s.driver.child)
  {
    var u := Exec(Step(s, Crash), quiet);
    InvAlways(owner, root, cs);
    LinksAlways(owner, root, cs);
    QuietOrphans(s, quiet);
    StepKeeps(s, Crash);
    RunKeeps(Step(s, Crash), quiet);
    AdoptedPlanGoesOn(s, u, e);
  }

  lemma AdoptedPlanGoesOn(s: State, u: State, e: Env)
    requires Inv(s) && Linked(s) && FreshPlan(s) && Orphaned(s, u) && Inv(u) && e.allowed && e.newId !in u.tasks
    requires RootRuns(u) && SourceMayRetry(u, s.driver.task) && OneClaim(u, s.driver.task, s.driver.count + 1)
    requires forall c :: c in Claiming(u, s.driver.count + 1) ==> u.tasks[c].status.Waiting?
    ensures var t := StepAdopt(u, s.driver.task, true);
            && t.driver.Working?
            && var x := NextEntry(t, Ticks(e, Remaining(t.driver.pc)));
               && x.Some? && x.value.count == s.driver.count + 1 && x.value.excluded == s.driver.plan.excluded
               && (HoldsChild(s.driver.pc) ==> x.value.child == s.driver.child)
  {
    var t := StepAdopt(u, s.driver.task, true);
    AcceptedExactly(s, u, true);
    AdoptKeeps(u, s.driver.task, true);
    AdoptedIsResuming(s, u);
    ResumedPlanIsEntered(t, e);
    AdoptionReloadsPlan(s, u, true);
    PlanDecidesEntry(t, Ticks(e, Remaining(t.driver.pc)));
  }
}
