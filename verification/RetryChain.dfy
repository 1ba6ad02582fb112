/**
 The bounded retry driver of `server/app/agent_loop.py` as a state machine: one program counter value per await,
 a crash between any two of them, and the two ways back in (`run_from_retry_child` and the transition reconciler).
 One logical root is modelled; whoever drives or recovers it holds its lease, so there is at most one driver.
 */
module RetryChain {
  import opened Common
  import opened RetryLedger

  const MAX_AUTO_RETRIES := 2

  datatype Status = Waiting | Active | Done | Broken | Stopped {
    predicate Terminal() {
      Done? || Broken? || Stopped?
    }
  }

  /** A task row of the lineage. `auto` marks automatic retry children; kind, parent and index never change. */
  datatype Task = Task(auto: bool, parent: Option<TaskId>, index: nat, status: Status, cancel: bool)

  datatype Pc =
    // _run_one_attempt
    | Enter | LostAudit | QueueAudit | Preflight | BlockAudit | BlockTask | StartQueue | Mark | Launch | Hosting | SettleAudit
    // _drive_chain
    | Top | Choose | Refuse | WritePlan | EndSource | Discard | CreateChild | AttachToPlan | QueueChild
    | CheckAudit | Backoff | CancelChild | CancelAudit | CancelMark | RunChild | BusyAudit
    | EndCurrent | EndRoot

  /**
   The volatile state of the worker that holds the lease. `count` is `retry_count`, `failed` is `capture.failed`, and
   `recovering` is set outside the loop: on the way into the first attempt, and while the reconciler restores a plan.
   */
  datatype Driver =
    | Idle
    | Working(
        pc: Pc, task: TaskId, count: nat, excluded: set<int>, failed: bool, plan: Plan, child: TaskId, recovering: bool)

  datatype State = State(
    owner: string,
    root: TaskId,
    tasks: map<TaskId, Task>,
    ledger: Ledger,
    launches: seq<TaskId>,
    driver: Driver)

  datatype HostOutcome = HostSucceeded | HostCanceled | HostCaptured | HostFailed

  /** Whatever the environment decides about the next driver step. */
  datatype Env = Env(
    now: int,
    allowed: bool,
    ready: bool,
    provider: nat,
    outcome: HostOutcome,
    retry: bool,
    plan: Plan,
    verdict: Verdict,
    newId: TaskId)

  datatype Choice =
    | Tick(env: Env)
    | Crash
    | Interfere(id: TaskId, status: Status, cancel: bool)
    | StartRun
    | Recover(child: TaskId, allowed: bool)
    | Adopt(source: TaskId, allowed: bool)

  // ----- small helpers -----

  function At(s: State, pc: Pc): State
    requires s.driver.Working?
  {
    s.(driver := s.driver.(pc := pc))
  }

  /** The driver raises, or the process dies: the lease is released and all local variables are lost. */
  function Gone(s: State): State {
    s.(driver := Idle)
  }

  /** A terminal row is never revived (`AgentTaskStore.save`). */
  function MovedRows(tasks: map<TaskId, Task>, id: TaskId, status: Status): map<TaskId, Task> {
    if id in tasks && !tasks[id].status.Terminal() then tasks[id := tasks[id].(status := status)] else tasks
  }

  function Moved(s: State, id: TaskId, status: Status): State {
    s.(tasks := MovedRows(s.tasks, id, status))
  }

  /** How `fail_task` and `complete_task` end a task: canceled if its cancellation was requested, else as asked for. */
  function EndStatus(tasks: map<TaskId, Task>, id: TaskId, status: Status): Status {
    if id in tasks && tasks[id].cancel then Stopped else status
  }

  function Ended(s: State, id: TaskId, status: Status): State {
    Moved(s, id, EndStatus(s.tasks, id, status))
  }

  function ParentOf(s: State, id: TaskId): Option<TaskId> {
    if id in s.tasks then s.tasks[id].parent else None
  }

  // ----- _run_one_attempt -----

  function QueueBlank(s: State): Result<Ledger, LedgerError>
    requires s.driver.Working?
  {
    var d := s.driver;
    RecordQueued(s.ledger, s.owner, s.root, d.task, ParentOf(s, d.task), d.count, BLANK)
  }

  /** A child that cannot run ends the chain inside the loop, but an error at the way in reaches the caller. */
  function StepEnter(s: State): State
    requires s.driver.Working?
  {
    var id := s.driver.task;
    if id in s.tasks && (s.tasks[id].status.Waiting? || s.tasks[id].status.Active?)
    then s.(driver := s.driver.(pc := QueueAudit, recovering := false))
    else if s.driver.recovering then Gone(s)
    else At(s, LostAudit)
  }

  function StepQueueBlank(s: State, next: Pc): State
    requires s.driver.Working?
  {
    match QueueBlank(s)
    case Err(_) => Gone(s)
    case Ok(l) => At(s.(ledger := l), next)
  }

  function StepDecision(s: State, id: TaskId, state: AttemptState, e: Env, next: Pc): State
    requires s.driver.Working?
  {
    At(s.(ledger := RecordDecision(s.ledger, s.owner, id, state, e.verdict, e.now)), next)
  }

  function StepMark(s: State, e: Env): State
    requires s.driver.Working?
  {
    At(s.(ledger := MarkStarted(s.ledger, s.owner, s.driver.task, e.provider, e.now)), Launch)
  }

  function StepLaunch(s: State): State
    requires s.driver.Working?
  {
    At(Moved(s, s.driver.task, Active).(launches := s.launches + [s.driver.task]), Hosting)
  }

  function StepHosting(s: State, e: Env): State
    requires s.driver.Working?
  {
    var id := s.driver.task;
    var s1 := match e.outcome
      case HostSucceeded => Moved(s, id, Done)
      case HostCanceled => Moved(s, id, Stopped)
      case HostCaptured => Moved(s, id, Active)
      case HostFailed => Moved(s, id, Broken);
    s1.(driver := s.driver.(pc := SettleAudit, failed := e.outcome.HostCaptured?))
  }

  function StepSettleAudit(s: State, e: Env): State
    requires s.driver.Working?
  {
    var id := s.driver.task;
    if id !in s.tasks then Gone(s)
    else
      match s.tasks[id].status
      case Done => StepDecision(s, id, Succeeded, e, Top)
      case Stopped => StepDecision(s, id, Canceled, e, Top)
      case Broken => if s.driver.failed then At(s, Top) else StepDecision(s, id, Failed, e, Top)
      case _ => At(s, Top)
  }

  // ----- _drive_chain -----

  function StepTop(s: State): State
    requires s.driver.Working?
  {
    var id := s.driver.task;
    if id !in s.tasks then Gone(s)
    else if s.tasks[id].status.Done? then
      if id == s.root then Gone(s) else Gone(Ended(s, s.root, Done))
    else if s.tasks[id].status.Stopped? then At(s, EndCurrent)
    else if !s.driver.failed then
      if id == s.root then Gone(s) else At(s, EndCurrent)
    else At(s, Choose)
  }

  /** `decide_codex_retry` refuses by itself once the budget is spent. */
  function StepChoose(s: State, e: Env): State
    requires s.driver.Working?
  {
    if e.retry && s.driver.count + 1 <= MAX_AUTO_RETRIES
    then s.(driver := s.driver.(pc := WritePlan, plan := Clean(e.plan)))
    else At(s, Refuse)
  }

  function StepWritePlan(s: State, e: Env): State
    requires s.driver.Working?
  {
    var d := s.driver;
    match RecordRetryPlan(s.ledger, s.owner, s.root, d.task, d.count, d.count + 1, e.verdict, d.plan, e.now)
    case Err(_) => Gone(s)
    case Ok(l) => At(s.(ledger := l), EndSource)
  }

  function StepEndSource(s: State): State
    requires s.driver.Working?
  {
    At(if s.driver.task == s.root then s else Ended(s, s.driver.task, Broken), Discard)
  }

  /** The child is born as an automatic retry in its first durable write; its id is a fresh uuid. */
  function StepCreateChild(s: State, e: Env): State
    requires s.driver.Working?
  {
    if !e.allowed || e.newId in s.tasks then Gone(s)
    else
      var row := Task(true, Some(s.driver.task), s.driver.count + 1, Waiting, false);
      s.(tasks := s.tasks[e.newId := row], driver := s.driver.(pc := AttachToPlan, child := e.newId))
  }

  function StepAttach(s: State): State
    requires s.driver.Working?
  {
    match AttachChild(s.ledger, s.owner, s.driver.task, s.driver.child)
    case Err(_) => Gone(s)
    case Ok(l) => At(s.(ledger := l), QueueChild)
  }

  function StepQueueChild(s: State): State
    requires s.driver.Working?
  {
    var d := s.driver;
    match RecordQueued(s.ledger, s.owner, s.root, d.child, Some(d.task), d.count + 1, d.plan)
    case Err(_) => Gone(s)
    case Ok(l) => At(s.(ledger := l), if d.recovering then CheckAudit else Backoff)
  }

  /** The reconciler compares the audit with the plan before it goes through `run_from_retry_child`. */
  function StepCheckAudit(s: State, e: Env): State
    requires s.driver.Working?
  {
    var d := s.driver;
    if d.child in s.ledger.attempts
       && s.ledger.attempts[d.child].trigger.code == d.plan.code
       && s.ledger.attempts[d.child].trigger.excluded == d.plan.excluded
       && s.ledger.attempts[d.child].trigger.backoff == d.plan.backoff
    then Resumed(s, d.child, e.allowed)
    else At(s, EndCurrent)
  }

  function StepBackoff(s: State): State
    requires s.driver.Working?
  {
    At(s, if s.root in s.tasks && s.tasks[s.root].cancel then CancelChild else RunChild)
  }

  /** Enter the child's attempt with the plan's exclusions, unless another worker owns the child's lock. */
  function StepRunChild(s: State, e: Env): State
    requires s.driver.Working?
  {
    var d := s.driver;
    if e.allowed then s.(driver := Working(Enter, d.child, d.count + 1, d.plan.excluded, false, BLANK, d.child, false))
    else At(s, BusyAudit)
  }

  /** Failure of the chain is finalised on the child from here on. */
  function OnChild(s: State): State
    requires s.driver.Working?
  {
    s.(driver := s.driver.(pc := EndCurrent, task := s.driver.child, count := s.driver.count + 1))
  }

  function StepTick(s: State, e: Env): (t: State)
    ensures t.root == s.root && t.owner == s.owner
  {
    if s.driver.Idle? then s
    else
      var d := s.driver;
      match d.pc
      case Enter => StepEnter(s)
      case LostAudit => StepDecision(s, d.task, Blocked, e, EndCurrent)
      case QueueAudit => StepQueueBlank(s, Preflight)
      case Preflight => At(s, if e.ready then StartQueue else BlockAudit)
      case BlockAudit => StepDecision(s, d.task, Blocked, e, BlockTask)
      case BlockTask => Ended(s, d.task, Broken).(driver := d.(pc := Top, failed := false))
      case StartQueue => StepQueueBlank(s, Mark)
      case Mark => StepMark(s, e)
      case Launch => StepLaunch(s)
      case Hosting => StepHosting(s, e)
      case SettleAudit => StepSettleAudit(s, e)
      case Top => StepTop(s)
      case Choose => StepChoose(s, e)
      case Refuse => StepDecision(s, d.task, Failed, e, EndCurrent)
      case WritePlan => StepWritePlan(s, e)
      case EndSource => StepEndSource(s)
      case Discard => At(s, CreateChild)
      case CreateChild => StepCreateChild(s, e)
      case AttachToPlan => StepAttach(s)
      case QueueChild => StepQueueChild(s)
      case CheckAudit => StepCheckAudit(s, e)
      case Backoff => StepBackoff(s)
      case CancelChild => At(Moved(s, d.child, Stopped), CancelAudit)
      case CancelAudit => StepDecision(s, d.child, Canceled, e, CancelMark)
      case CancelMark => OnChild(s.(ledger := MarkTransition(s.ledger, s.owner, d.task, TransitionCanceled)))
      case RunChild => StepRunChild(s, e)
      case BusyAudit => OnChild(StepDecision(s, d.child, Blocked, e, BusyAudit))
      case EndCurrent => At(if d.task == s.root then s else Ended(s, d.task, Broken), EndRoot)
      case EndRoot => Gone(Ended(s, s.root, Broken))
  }

  // ----- the ways in -----

  function StepStartRun(s: State): State {
    if s.driver.Idle? && s.root in s.tasks && (s.tasks[s.root].status.Waiting? || s.tasks[s.root].status.Active?)
    then s.(driver := Working(Enter, s.root, 0, {}, false, BLANK, s.root, true))
    else s
  }

  /** The checks of `run_from_retry_child`. */
  predicate Recoverable(s: State, child: TaskId) {
    && child in s.tasks && s.root in s.tasks
    && s.tasks[child].auto && s.tasks[child].status.Waiting?
    && 1 <= s.tasks[child].index <= MAX_AUTO_RETRIES
    && s.tasks[s.root].status.Active? && !s.tasks[s.root].cancel
    && child in s.ledger.attempts
    && var a := s.ledger.attempts[child];
       && a.owner == s.owner && a.root == s.root && a.parent == s.tasks[child].parent && a.index == s.tasks[child].index
       && a.state.Queued? && a.startedAt.None? && a.provider == 0
  }

  function Resumed(s: State, child: TaskId, allowed: bool): State {
    if allowed && Recoverable(s, child) then
      s.(driver := Working(Enter, child, s.tasks[child].index, s.ledger.attempts[child].trigger.excluded, false, BLANK, child, true))
    else Gone(s)
  }

  predicate LatestOpen(s: State, source: TaskId) {
    && source in s.ledger.transitions && s.ledger.transitions[source].state.Open()
    && forall t :: t in s.ledger.transitions && s.ledger.transitions[t].state.Open() ==>
         s.ledger.transitions[t].next <= s.ledger.transitions[source].next
  }

  /** Retry children that claim an index. */
  function Claiming(s: State, index: nat): set<TaskId> {
    set t | t in s.tasks && s.tasks[t].auto && s.tasks[t].index == index
  }

  /**
   The reconciler takes the latest open transition and re-enters the driver where the plan was left: after its child
   was attached, after a child was created, or before. `allowed` stands for the checks on side effects, time and the
   decision code of the plan.
   */
  ghost function StepAdopt(s: State, source: TaskId, allowed: bool): State {
    if s.driver.Idle? && allowed && LatestOpen(s, source) && source in s.tasks
       && s.root in s.tasks && s.tasks[s.root].status.Active? && !s.tasks[s.root].cancel
       && s.ledger.transitions[source].next <= MAX_AUTO_RETRIES
       && s.ledger.transitions[source].source == s.tasks[source].index
       && (source == s.root || s.tasks[source].status.Active? || s.tasks[source].status.Broken?)
    then
      var t := s.ledger.transitions[source];
      var claiming := Claiming(s, t.next);
      var d := Working(EndSource, source, t.source, {}, true, t.plan, source, true);
      if t.child.Some? then
        if claiming == {t.child.value} then s.(driver := d.(pc := QueueChild, child := t.child.value)) else s
      else if claiming == {} then s.(driver := d)
      else if |claiming| == 1 then
        var c :| c in claiming;
        if s.tasks[c].parent == Some(source) then s.(driver := d.(pc := AttachToPlan, child := c)) else s
      else s
    else s
  }

  ghost function Step(s: State, c: Choice): (t: State)
    ensures t.root == s.root && t.owner == s.owner
  {
    match c
    case Tick(e) => StepTick(s, e)
    case Crash => Gone(s)
    case Interfere(id, status, cancel) =>
      if id in s.tasks then s.(tasks := s.tasks[id := s.tasks[id].(status := status, cancel := cancel)]) else s
    case StartRun => StepStartRun(s)
    case Recover(child, allowed) => if s.driver.Idle? then Resumed(s, child, allowed) else s
    case Adopt(source, allowed) => StepAdopt(s, source, allowed)
  }

  function Init(owner: string, root: TaskId): State {
    State(owner, root, map[root := Task(false, None, 0, Waiting, false)], Ledger(map[], map[]), [], Idle)
  }

  ghost function Exec(s: State, cs: seq<Choice>): State {
    if cs == [] then s else Step(Exec(s, cs[..|cs| - 1]), cs[|cs| - 1])
  }
}
