/**
 The retry audit and the transition journal of `server/app/codex_retry_chain_store.py`. Every method of
 `CodexRetryChainStore` is one SQLite transaction; an error rolls it back.
 */
module RetryLedger {
  import opened Common

  type TaskId = nat

  datatype AttemptState = Queued | Running | Succeeded | Failed | Blocked | Canceled {
    predicate Terminal() {
      !Queued? && !Running?
    }
  }

  datatype TransitionState = Planned | ChildCreated | Started | Settled | TransitionBlocked | TransitionCanceled {
    predicate Open() {
      Planned? || ChildCreated? || Started?
    }
  }

  /** Why and how the next attempt is made. */
  datatype Plan = Plan(code: string, reason: string, backoff: nat, excluded: set<int>)

  const BLANK := Plan("", "", 0, {})

  datatype Verdict = Verdict(code: string, reason: string, error: string)

  datatype Attempt = Attempt(
    owner: string,
    root: TaskId,
    parent: Option<TaskId>,
    index: nat,
    state: AttemptState,
    provider: nat,
    trigger: Plan,
    verdict: Verdict,
    startedAt: Option<int>,
    completedAt: Option<int>)

  datatype Transition = Transition(
    owner: string,
    root: TaskId,
    source: nat,
    next: nat,
    plan: Plan,
    child: Option<TaskId>,
    state: TransitionState,
    createdAt: int)

  /** Attempts by their task, transitions by the task of their source attempt. */
  datatype Ledger = Ledger(attempts: map<TaskId, Attempt>, transitions: map<TaskId, Transition>)

  datatype LedgerError =
    | IntegrityError | SourceMissing | SourceMismatch | TransitionConflict | InvalidIndex
    | PlanMissing | DifferentChild

  /** Truncated texts and positive provider ids only. */
  function Clean(p: Plan): Plan {
    Plan(Take(p.code, 100), Take(p.reason, 2000), p.backoff, set x | x in p.excluded && x > 0)
  }

  function CleanVerdict(v: Verdict): Verdict {
    Verdict(Take(v.code, 100), Take(v.reason, 2000), Take(v.error, 4000))
  }

  /** The upsert rule for trigger fields: blank incoming fields keep what is stored. */
  function KeepNonBlank(inc: Plan, old_: Plan): Plan {
    Plan(
      if inc.code != "" then inc.code else old_.code,
      if inc.reason != "" then inc.reason else old_.reason,
      if inc.backoff > 0 then inc.backoff else old_.backoff,
      if inc.excluded != {} then inc.excluded else old_.excluded)
  }

  predicate AttemptIndexTaken(l: Ledger, owner: string, root: TaskId, id: TaskId, index: nat) {
    exists a :: a in l.attempts && a != id
                && l.attempts[a].owner == owner && l.attempts[a].root == root && l.attempts[a].index == index
  }

  predicate NextIndexTaken(l: Ledger, owner: string, root: TaskId, source: TaskId, next: nat) {
    exists t :: t in l.transitions && t != source
                && l.transitions[t].owner == owner && l.transitions[t].root == root && l.transitions[t].next == next
  }

  function RecordQueued(
    l: Ledger, owner: string, root: TaskId, id: TaskId, parent: Option<TaskId>, index: int, trigger: Plan)
    : Result<Ledger, LedgerError>
  {
    var n, t := Max(0, index), Clean(trigger);
    if AttemptIndexTaken(l, owner, root, id, n) then Err(IntegrityError)
    else
      var row :=
        if id in l.attempts then
          l.attempts[id].(
            owner := owner, root := root, parent := parent, index := n,
            trigger := KeepNonBlank(t, l.attempts[id].trigger))
        else Attempt(owner, root, parent, n, Queued, 0, t, Verdict("", "", ""), None, None);
      Ok(l.(attempts := l.attempts[id := row]))
  }

  /** The second transaction of `record_started`. */
  function MarkStarted(l: Ledger, owner: string, id: TaskId, provider: nat, now: int): Ledger {
    var attempts :=
      if id in l.attempts && l.attempts[id].owner == owner then
        var a := l.attempts[id];
        l.attempts[id := a.(
                     state := Running, provider := provider,
                     startedAt := if a.startedAt.None? then Some(now) else a.startedAt)]
      else l.attempts;
    var transitions := map s | s in l.transitions ::
      var t := l.transitions[s];
      if t.owner == owner && t.child == Some(id) && (t.state.Planned? || t.state.ChildCreated?)
      then t.(state := Started) else t;
    Ledger(attempts, transitions)
  }

  function RecordDecision(l: Ledger, owner: string, id: TaskId, state: AttemptState, v: Verdict, now: int): Ledger {
    if id in l.attempts && l.attempts[id].owner == owner then
      var a := l.attempts[id];
      l.(attempts := l.attempts[id := a.(
                                state := state, verdict := CleanVerdict(v),
                                completedAt := if state.Terminal() then Some(now) else a.completedAt)])
    else l
  }

  /** The failed-attempt decision and the exact next-attempt intent, in one transaction. */
  function RecordRetryPlan(
    l: Ledger, owner: string, root: TaskId, source: TaskId, sourceIndex: int, nextIndex: int, v: Verdict, plan: Plan, now: int)
    : Result<Ledger, LedgerError>
  {
    var m, n := Max(0, sourceIndex), Max(0, nextIndex);
    if n != m + 1 || n < 1 then Err(InvalidIndex)
    else if source !in l.attempts || l.attempts[source].owner != owner then Err(SourceMissing)
    else if l.attempts[source].root != root || l.attempts[source].index != m then Err(SourceMismatch)
    else
      var a := l.attempts[source];
      var attempts := l.attempts[source := a.(
                                   state := Failed, verdict := CleanVerdict(v),
                                   completedAt := if a.completedAt.None? then Some(now) else a.completedAt)];
      if source in l.transitions then
        var t := l.transitions[source];
        if t.owner != owner || t.root != root || t.source != m || t.next != n then Err(TransitionConflict)
        else
          Ok(Ledger(attempts, l.transitions[source := t.(
                                              plan := Clean(plan), state := if t.child.Some? then t.state else Planned)]))
      else if NextIndexTaken(l, owner, root, source, n) then Err(IntegrityError)
      else Ok(Ledger(attempts, l.transitions[source := Transition(owner, root, m, n, Clean(plan), None, Planned, now)]))
  }

  /** Adopt a queued child that predates the journal. */
  function RecordFromExistingChild(
    l: Ledger, owner: string, root: TaskId, source: TaskId, sourceIndex: int, child: TaskId, nextIndex: int, plan: Plan, now: int)
    : Result<Ledger, LedgerError>
  {
    var m, n := Max(0, sourceIndex), Max(0, nextIndex);
    if n != m + 1 || n < 1 then Err(InvalidIndex)
    else if source in l.transitions then
      var t := l.transitions[source];
      if t.child.Some? && t.child != Some(child) then Err(DifferentChild)
      else
        Ok(l.(transitions := l.transitions[source := t.(
                                             child := Some(child), plan := KeepNonBlank(t.plan, Clean(plan)), state := ChildCreated)]))
    else if NextIndexTaken(l, owner, root, source, n) then Err(IntegrityError)
    else
      Ok(l.(transitions := l.transitions[source := Transition(owner, root, m, n, Clean(plan), Some(child), ChildCreated, now)]))
  }

  function AttachChild(l: Ledger, owner: string, source: TaskId, child: TaskId): Result<Ledger, LedgerError> {
    if source !in l.transitions || l.transitions[source].owner != owner then Err(PlanMissing)
    else
      var t := l.transitions[source];
      if t.child.Some? && t.child != Some(child) then Err(DifferentChild)
      else Ok(l.(transitions := l.transitions[source := t.(child := Some(child), state := ChildCreated)]))
  }

  function MarkTransition(l: Ledger, owner: string, source: TaskId, state: TransitionState): Ledger {
    if source in l.transitions && l.transitions[source].owner == owner then
      l.(transitions := l.transitions[source := l.transitions[source].(state := state)])
    else l
  }

  // ----- any sequence of calls -----

  datatype Call =
    | QueuedCall(owner: string, root: TaskId, id: TaskId, parent: Option<TaskId>, index: int, trigger: Plan)
    | StartedCall(owner: string, id: TaskId, provider: nat, now: int)
    | DecisionCall(owner: string, id: TaskId, state: AttemptState, verdict: Verdict, now: int)
    | PlanCall(owner: string, root: TaskId, source: TaskId, m: int, n: int, verdict: Verdict, plan: Plan, now: int)
    | AdoptCall(owner: string, root: TaskId, source: TaskId, m: int, child: TaskId, n: int, plan: Plan, now: int)
    | AttachCall(owner: string, source: TaskId, child: TaskId)
    | MarkCall(owner: string, source: TaskId, tstate: TransitionState)

  function OrSame(r: Result<Ledger, LedgerError>, l: Ledger): Ledger {
    if r.Ok? then r.value else l
  }

  function Do(l: Ledger, c: Call): Ledger {
    match c
    case QueuedCall(owner, root, id, parent, index, trigger) => OrSame(RecordQueued(l, owner, root, id, parent, index, trigger), l)
    case StartedCall(owner, id, provider, now) => MarkStarted(l, owner, id, provider, now)
    case DecisionCall(owner, id, state, v, now) => RecordDecision(l, owner, id, state, v, now)
    case PlanCall(owner, root, source, m, n, v, plan, now) => OrSame(RecordRetryPlan(l, owner, root, source, m, n, v, plan, now), l)
    case AdoptCall(owner, root, source, m, child, n, plan, now) =>
      OrSame(RecordFromExistingChild(l, owner, root, source, m, child, n, plan, now), l)
    case AttachCall(owner, source, child) => OrSame(AttachChild(l, owner, source, child), l)
    case MarkCall(owner, source, state) => MarkTransition(l, owner, source, state)
  }

  function DoAll(l: Ledger, calls: seq<Call>): Ledger {
    if calls == [] then l else Do(DoAll(l, calls[..|calls| - 1]), calls[|calls| - 1])
  }

  predicate SameSlot(a: Attempt, b: Attempt) {
    a.owner == b.owner && a.root == b.root && a.index == b.index
  }

  predicate SameStep(s: Transition, t: Transition) {
    s.owner == t.owner && s.root == t.root && s.next == t.next
  }

  /** One attempt per logical index, one transition per next index, and every transition steps by one. */
  ghost predicate Linear(l: Ledger) {
    && (forall a, b {:trigger SameSlot(l.attempts[a], l.attempts[b])} ::
          a in l.attempts && b in l.attempts && SameSlot(l.attempts[a], l.attempts[b]) ==> a == b)
    && (forall s, t {:trigger SameStep(l.transitions[s], l.transitions[t])} ::
          s in l.transitions && t in l.transitions && SameStep(l.transitions[s], l.transitions[t]) ==> s == t)
    && (forall s :: s in l.transitions ==> l.transitions[s].next == l.transitions[s].source + 1)
  }

  /** Nothing is forgotten: rows stay, a start time and a child are written once, transition lineage is constant. */
  ghost predicate Preserves(l: Ledger, m: Ledger) {
    && (forall a :: a in l.attempts ==>
          && a in m.attempts
          && (l.attempts[a].startedAt.Some? ==> m.attempts[a].startedAt == l.attempts[a].startedAt))
    && (forall s :: s in l.transitions ==>
          && s in m.transitions
          && m.transitions[s].owner == l.transitions[s].owner && m.transitions[s].root == l.transitions[s].root
          && m.transitions[s].source == l.transitions[s].source && m.transitions[s].next == l.transitions[s].next
          && (l.transitions[s].child.Some? ==> m.transitions[s].child == l.transitions[s].child))
  }

  lemma PlanPreserves(l: Ledger, c: Call)
    requires c.PlanCall? || c.AdoptCall?
    ensures Preserves(l, Do(l, c))
  {}

  lemma CallPreserves(l: Ledger, c: Call)
    ensures Preserves(l, Do(l, c))
  {
    if c.PlanCall? || c.AdoptCall? {
      PlanPreserves(l, c);
    }
  }

  /** Calls that leave every slot and every step where it was. */
  lemma SameSlotsKeepLinear(l: Ledger, m: Ledger)
    requires Linear(l)
    requires m.attempts.Keys == l.attempts.Keys && m.transitions.Keys == l.transitions.Keys
    requires forall a :: a in l.attempts ==> SameSlot(m.attempts[a], l.attempts[a])
    requires forall s :: s in l.transitions ==>
               SameStep(m.transitions[s], l.transitions[s]) && m.transitions[s].source == l.transitions[s].source
    ensures Linear(m)
  {
    forall a, b | a in m.attempts && b in m.attempts && SameSlot(m.attempts[a], m.attempts[b]) ensures a == b {
      assert SameSlot(l.attempts[a], l.attempts[b]);
    }
    forall p, q | p in m.transitions && q in m.transitions && SameStep(m.transitions[p], m.transitions[q]) ensures p == q {
      assert SameStep(l.transitions[p], l.transitions[q]);
    }
  }

  lemma QueueKeepsLinear(l: Ledger, c: Call)
    requires Linear(l) && c.QueuedCall?
    ensures Linear(Do(l, c))
  {
    var m := Do(l, c);
    forall a, b | a in m.attempts && b in m.attempts && SameSlot(m.attempts[a], m.attempts[b]) ensures a == b {
      if a != c.id && b != c.id {
        assert m.attempts[a] == l.attempts[a] && m.attempts[b] == l.attempts[b];
      }
    }
  }

  lemma NewTransitionKeepsLinear(l: Ledger, source: TaskId, t: Transition)
    requires Linear(l) && source !in l.transitions && t.next == t.source + 1
    requires !NextIndexTaken(l, t.owner, t.root, source, t.next)
    ensures Linear(l.(transitions := l.transitions[source := t]))
  {
    var m := l.transitions[source := t];
    forall p, q | p in m && q in m && SameStep(m[p], m[q]) ensures p == q {
      if p != source && q != source {
        assert SameStep(l.transitions[p], l.transitions[q]);
      }
    }
  }

  lemma PlanKeepsLinear(l: Ledger, c: Call)
    requires Linear(l) && c.PlanCall?
    ensures Linear(Do(l, c))
  {
    var m := Do(l, c);
    if c.source in m.transitions && c.source !in l.transitions {
      NewTransitionKeepsLinear(l, c.source, m.transitions[c.source]);
      SameSlotsKeepLinear(l.(transitions := m.transitions), m);
    } else {
      SameSlotsKeepLinear(l, m);
    }
  }

  lemma AdoptKeepsLinear(l: Ledger, c: Call)
    requires Linear(l) && c.AdoptCall?
    ensures Linear(Do(l, c))
  {
    var m := Do(l, c);
    if c.source in m.transitions && c.source !in l.transitions {
      NewTransitionKeepsLinear(l, c.source, m.transitions[c.source]);
    } else {
      SameSlotsKeepLinear(l, m);
    }
  }

  lemma UpdateKeepsLinear(l: Ledger, c: Call)
    requires Linear(l) && !c.QueuedCall? && !c.PlanCall? && !c.AdoptCall?
    ensures Linear(Do(l, c))
  {
    SameSlotsKeepLinear(l, Do(l, c));
  }

  lemma CallKeepsLinear(l: Ledger, c: Call)
    requires Linear(l)
    ensures Linear(Do(l, c))
  {
    match c
    case QueuedCall(_, _, _, _, _, _) => QueueKeepsLinear(l, c);
    case PlanCall(_, _, _, _, _, _, _, _) => PlanKeepsLinear(l, c);
    case AdoptCall(_, _, _, _, _, _, _, _) => AdoptKeepsLinear(l, c);
    case _ => UpdateKeepsLinear(l, c);
  }

  /** For every sequence of ledger calls, in any order and with any arguments. */
  lemma {:induction false} AnyCallsKeepLedger(l: Ledger, calls: seq<Call>)
    requires Linear(l)
    ensures Linear(DoAll(l, calls))
    ensures Preserves(l, DoAll(l, calls))
  {
    if calls != [] {
      var mid := DoAll(l, calls[..|calls| - 1]);
      AnyCallsKeepLedger(l, calls[..|calls| - 1]);
      CallPreserves(mid, calls[|calls| - 1]);
      CallKeepsLinear(mid, calls[|calls| - 1]);
    }
  }

  /** A blank `record_queued` erases no trigger metadata and no start evidence. */
  lemma BlankQueueErasesNothing(l: Ledger, owner: string, root: TaskId, id: TaskId, parent: Option<TaskId>, index: int)
    requires id in l.attempts && RecordQueued(l, owner, root, id, parent, index, BLANK).Ok?
    ensures var a, b := l.attempts[id], RecordQueued(l, owner, root, id, parent, index, BLANK).value.attempts[id];
            b == a.(owner := owner, root := root, parent := parent, index := Max(0, index))
  {
    assert Clean(BLANK).excluded == {};
    assert KeepNonBlank(Clean(BLANK), l.attempts[id].trigger) == l.attempts[id].trigger;
  }

  // ----- what is written is what was given -----

  /** The positive provider ids among those given. */
  ghost predicate PositiveOnes(stored: set<int>, given: set<int>) {
    forall p :: p in stored <==> p in given && p > 0
  }

  ghost predicate PlanStored(stored: Plan, given: Plan) {
    && IsCut(stored.code, given.code, 100) && IsCut(stored.reason, given.reason, 2000)
    && stored.backoff == given.backoff && PositiveOnes(stored.excluded, given.excluded)
  }

  predicate VerdictStored(stored: Verdict, given: Verdict) {
    IsCut(stored.code, given.code, 100) && IsCut(stored.reason, given.reason, 2000) && IsCut(stored.error, given.error, 4000)
  }

  /** Each field of the trigger is the given one if that says something, and otherwise the one from before. */
  ghost predicate TriggerKept(stored: Plan, before: Plan, given: Plan) {
    && (if given.code != "" then IsCut(stored.code, given.code, 100) else stored.code == before.code)
    && (if given.reason != "" then IsCut(stored.reason, given.reason, 2000) else stored.reason == before.reason)
    && stored.backoff == (if given.backoff > 0 then given.backoff else before.backoff)
    && (if exists p :: p in given.excluded && p > 0 then PositiveOnes(stored.excluded, given.excluded)
        else stored.excluded == before.excluded)
  }

  /** One row of the audit, and nothing else, is different. */
  ghost predicate OnlyAttempt(l: Ledger, m: Ledger, id: TaskId) {
    && m.transitions == l.transitions && m.attempts.Keys == l.attempts.Keys + {id}
    && forall a :: a in l.attempts && a != id ==> m.attempts[a] == l.attempts[a]
  }

  lemma QueuedContents(l: Ledger, owner: string, root: TaskId, id: TaskId, parent: Option<TaskId>, index: nat, trigger: Plan)
    ensures var r := RecordQueued(l, owner, root, id, parent, index, trigger);
            if exists a :: a in l.attempts && a != id && l.attempts[a].owner == owner && l.attempts[a].root == root
                           && l.attempts[a].index == index
            then r == Err(IntegrityError)
            else
              && r.Ok? && OnlyAttempt(l, r.value, id)
              && var row := r.value.attempts[id];
                 && row.owner == owner && row.root == root && row.parent == parent && row.index == index
                 && if id in l.attempts then
                      var was := l.attempts[id];
                      && row.state == was.state && row.provider == was.provider && row.verdict == was.verdict
                      && row.startedAt == was.startedAt && row.completedAt == was.completedAt
                      && TriggerKept(row.trigger, was.trigger, trigger)
                    else
                      && row.state.Queued? && row.provider == 0 && row.verdict == Verdict("", "", "")
                      && row.startedAt.None? && row.completedAt.None? && PlanStored(row.trigger, trigger)
  {
    if exists p :: p in trigger.excluded && p > 0 {
      var p :| p in trigger.excluded && p > 0;
      assert p in Clean(trigger).excluded;
    } else {
      assert Clean(trigger).excluded == {};
    }
  }

  /** The start: running under this provider, the first start time kept, and the step that led here started. */
  lemma StartedContents(l: Ledger, owner: string, id: TaskId, provider: nat, now: int)
    requires id in l.attempts && l.attempts[id].owner == owner
    ensures var m, was := MarkStarted(l, owner, id, provider, now), l.attempts[id];
            && m.attempts.Keys == l.attempts.Keys && m.transitions.Keys == l.transitions.Keys
            && (forall a :: a in l.attempts && a != id ==> m.attempts[a] == l.attempts[a])
            && (var row := m.attempts[id];
                && row.state.Running? && row.provider == provider
                && row.startedAt == (if was.startedAt.Some? then was.startedAt else Some(now))
                && row.(state := was.state, provider := was.provider, startedAt := was.startedAt) == was)
            && (forall p :: p in l.transitions ==>
                  var t := l.transitions[p];
                  m.transitions[p] == if t.owner == owner && t.child == Some(id) && (t.state.Planned? || t.state.ChildCreated?)
                                      then t.(state := Started) else t)
  {}

  /** A verdict: its state and texts, and a completion time exactly when that state is final. */
  lemma DecisionContents(l: Ledger, owner: string, id: TaskId, state: AttemptState, v: Verdict, now: int)
    requires id in l.attempts && l.attempts[id].owner == owner
    ensures var m, was := RecordDecision(l, owner, id, state, v, now), l.attempts[id];
            && OnlyAttempt(l, m, id)
            && var row := m.attempts[id];
               && row.state == state && VerdictStored(row.verdict, v)
               && row.completedAt == (if state.Succeeded? || state.Failed? || state.Blocked? || state.Canceled? then Some(now)
                                      else was.completedAt)
               && row.(state := was.state, verdict := was.verdict, completedAt := was.completedAt) == was
  {}

  /** A plan: the verdict of the failed attempt and the intent for the next one, in one transaction. */
  lemma PlanContents(l: Ledger, owner: string, root: TaskId, source: TaskId, m: nat, v: Verdict, plan: Plan, now: int)
    requires RecordRetryPlan(l, owner, root, source, m, m + 1, v, plan, now).Ok?
    ensures source in l.attempts && l.attempts[source].owner == owner && l.attempts[source].root == root
            && l.attempts[source].index == m
    ensures var n, was := RecordRetryPlan(l, owner, root, source, m, m + 1, v, plan, now).value, l.attempts[source];
            && n.attempts.Keys == l.attempts.Keys && n.transitions.Keys == l.transitions.Keys + {source}
            && (forall a :: a in l.attempts && a != source ==> n.attempts[a] == l.attempts[a])
            && (forall p :: p in l.transitions && p != source ==> n.transitions[p] == l.transitions[p])
            && (var row := n.attempts[source];
                && row.state.Failed? && VerdictStored(row.verdict, v)
                && row.completedAt == (if was.completedAt.Some? then was.completedAt else Some(now))
                && row.(state := was.state, verdict := was.verdict, completedAt := was.completedAt) == was)
            && var t := n.transitions[source];
               && t.owner == owner && t.root == root && t.source == m && t.next == m + 1 && PlanStored(t.plan, plan)
               && if source in l.transitions then
                    var old_ := l.transitions[source];
                    && t.child == old_.child && t.createdAt == old_.createdAt
                    && t.state == (if old_.child.Some? then old_.state else Planned)
                  else t.child.None? && t.state.Planned? && t.createdAt == now
  {}

  /** The child of a step is written once, and its step is then open for it. */
  lemma AttachedContents(l: Ledger, owner: string, source: TaskId, child: TaskId)
    ensures var r := AttachChild(l, owner, source, child);
            if source !in l.transitions || l.transitions[source].owner != owner then r == Err(PlanMissing)
            else if l.transitions[source].child.Some? && l.transitions[source].child != Some(child) then r == Err(DifferentChild)
            else r == Ok(Ledger(l.attempts, l.transitions[source := l.transitions[source].(child := Some(child), state := ChildCreated)]))
  {}

  class CodexRetryChainStore {
    var attempts: map<TaskId, Attempt>
    var transitions: map<TaskId, Transition>

    ghost function Tables(): Ledger
      reads this
    {
      Ledger(attempts, transitions)
    }

    constructor ()
      ensures Tables() == Ledger(map[], map[])
    {
      attempts, transitions := map[], map[];
    }

    method Queue(owner: string, root: TaskId, id: TaskId, parent: Option<TaskId>, index: int, trigger: Plan)
      returns (error: Option<LedgerError>)
      modifies this
      ensures error.None? <==> RecordQueued(old(Tables()), owner, root, id, parent, index, trigger).Ok?
      ensures Tables() == OrSame(RecordQueued(old(Tables()), owner, root, id, parent, index, trigger), old(Tables()))
    {
      var n, t := Max(0, index), Clean(trigger);
      if exists a :: a in attempts && a != id
                     && attempts[a].owner == owner && attempts[a].root == root && attempts[a].index == n {
        return Some(IntegrityError);
      }
      if id in attempts {
        var a := attempts[id];
        a := a.(owner := owner, root := root, parent := parent, index := n, trigger := KeepNonBlank(t, a.trigger));
        attempts := attempts[id := a];
      } else {
        attempts := attempts[id := Attempt(owner, root, parent, n, Queued, 0, t, Verdict("", "", ""), None, None)];
      }
      return None;
    }

    /** The second transaction of `record_started`; the first is a blank `record_queued`. */
    method MarkStart(owner: string, id: TaskId, provider: nat, now: int)
      modifies this
      ensures Tables() == MarkStarted(old(Tables()), owner, id, provider, now)
    {
      if id in attempts && attempts[id].owner == owner {
        var startedAt := if attempts[id].startedAt.None? then Some(now) else attempts[id].startedAt;
        attempts := attempts[id := attempts[id].(state := Running, provider := provider, startedAt := startedAt)];
      }
      transitions := map s | s in transitions ::
        if transitions[s].owner == owner && transitions[s].child == Some(id)
           && (transitions[s].state.Planned? || transitions[s].state.ChildCreated?)
        then transitions[s].(state := Started) else transitions[s];
    }

    /** `record_started`: two transactions, both committed before the Host is launched. */
    method Start(owner: string, root: TaskId, id: TaskId, parent: Option<TaskId>, index: int, provider: nat, now: int)
      returns (error: Option<LedgerError>)
      modifies this
      ensures var queued := RecordQueued(old(Tables()), owner, root, id, parent, index, BLANK);
              && (error.None? <==> queued.Ok?)
              && Tables() == if queued.Ok? then MarkStarted(queued.value, owner, id, provider, now) else old(Tables())
    {
      error := Queue(owner, root, id, parent, index, BLANK);
      if error.None? {
        MarkStart(owner, id, provider, now);
      }
    }

    method Decide(owner: string, id: TaskId, state: AttemptState, v: Verdict, now: int)
      modifies this
      ensures Tables() == RecordDecision(old(Tables()), owner, id, state, v, now)
    {
      if id in attempts && attempts[id].owner == owner {
        var completedAt := if state.Terminal() then Some(now) else attempts[id].completedAt;
        attempts := attempts[id := attempts[id].(state := state, verdict := CleanVerdict(v), completedAt := completedAt)];
      }
    }

    method PlanRetry(
      owner: string, root: TaskId, source: TaskId, sourceIndex: int, nextIndex: int, v: Verdict, plan: Plan, now: int)
      returns (error: Option<LedgerError>)
      modifies this
      ensures error.None? <==> RecordRetryPlan(old(Tables()), owner, root, source, sourceIndex, nextIndex, v, plan, now).Ok?
      ensures Tables() == OrSame(RecordRetryPlan(old(Tables()), owner, root, source, sourceIndex, nextIndex, v, plan, now),
                                 old(Tables()))
    {
      var m, n := Max(0, sourceIndex), Max(0, nextIndex);
      if n != m + 1 || n < 1 {
        return Some(InvalidIndex);
      }
      if source !in attempts || attempts[source].owner != owner {
        return Some(SourceMissing);
      }
      if attempts[source].root != root || attempts[source].index != m {
        return Some(SourceMismatch);
      }
      if source in transitions {
        var t := transitions[source];
        if t.owner != owner || t.root != root || t.source != m || t.next != n {
          return Some(TransitionConflict);
        }
        transitions := transitions[source := t.(plan := Clean(plan), state := if t.child.Some? then t.state else Planned)];
      } else {
        if exists t :: t in transitions && t != source
                       && transitions[t].owner == owner && transitions[t].root == root && transitions[t].next == n {
          return Some(IntegrityError);
        }
        transitions := transitions[source := Transition(owner, root, m, n, Clean(plan), None, Planned, now)];
      }
      var completedAt := if attempts[source].completedAt.None? then Some(now) else attempts[source].completedAt;
      attempts := attempts[source := attempts[source].(state := Failed, verdict := CleanVerdict(v), completedAt := completedAt)];
      return None;
    }

    method Attach(owner: string, source: TaskId, child: TaskId) returns (error: Option<LedgerError>)
      modifies this
      ensures error.None? <==> AttachChild(old(Tables()), owner, source, child).Ok?
      ensures Tables() == OrSame(AttachChild(old(Tables()), owner, source, child), old(Tables()))
    {
      if source !in transitions || transitions[source].owner != owner {
        return Some(PlanMissing);
      }
      var existing := transitions[source].child;
      if existing.Some? && existing != Some(child) {
        return Some(DifferentChild);
      }
      transitions := transitions[source := transitions[source].(child := Some(child), state := ChildCreated)];
      return None;
    }

    method AdoptChild(
      owner: string, root: TaskId, source: TaskId, sourceIndex: int, child: TaskId, nextIndex: int, plan: Plan, now: int)
      returns (error: Option<LedgerError>)
      modifies this
      ensures error.None? <==>
              RecordFromExistingChild(old(Tables()), owner, root, source, sourceIndex, child, nextIndex, plan, now).Ok?
      ensures Tables() == OrSame(RecordFromExistingChild(old(Tables()), owner, root, source, sourceIndex, child, nextIndex, plan, now),
                                 old(Tables()))
    {
      var m, n := Max(0, sourceIndex), Max(0, nextIndex);
      if n != m + 1 || n < 1 {
        return Some(InvalidIndex);
      }
      if source in transitions {
        var t := transitions[source];
        if t.child.Some? && t.child != Some(child) {
          return Some(DifferentChild);
        }
        transitions := transitions[source := t.(
                                     child := Some(child), plan := KeepNonBlank(t.plan, Clean(plan)), state := ChildCreated)];
      } else {
        if exists t :: t in transitions && t != source
                       && transitions[t].owner == owner && transitions[t].root == root && transitions[t].next == n {
          return Some(IntegrityError);
        }
        transitions := transitions[source := Transition(owner, root, m, n, Clean(plan), Some(child), ChildCreated, now)];
      }
      return None;
    }

    method Mark(owner: string, source: TaskId, state: TransitionState)
      modifies this
      ensures Tables() == MarkTransition(old(Tables()), owner, source, state)
    {
      if source in transitions && transitions[source].owner == owner {
        transitions := transitions[source := transitions[source].(state := state)];
      }
    }
  }
}
