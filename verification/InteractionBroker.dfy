/**
 The polling loop of `server/app/codex_interactions.py`. Everything other workers do to the store between two awaits
 of `Handle` is given by a script, so the method is proved for every interleaving.
 */
module InteractionBroker {
  import opened Common
  import opened Interactions
  import opened InteractionRuns

  // ----- runs compose -----

  lemma {:induction false} RunConcat(db: Db, a: seq<Step>, b: seq<Step>)
    ensures Run(db, a + b) == Run(Run(db, a), b)
    ensures Log(db, a + b) == Log(db, a) + Log(Run(db, a), b)
  {
    if b == [] {
      assert a + b == a;
    } else {
      var all, front, s := a + b, b[..|b| - 1], b[|b| - 1];
      RunConcat(db, a, front);
      assert all[..|all| - 1] == a + front && all[|all| - 1] == s;
      assert Run(db, all) == Next(Run(db, a + front), s);
      assert Log(db, all) == Log(db, a + front) + [FactOf(Run(db, a + front), s)];
      assert Log(Run(db, a), b) == Log(Run(db, a), front) + [FactOf(Run(Run(db, a), front), s)];
      Assoc(Log(db, a), Log(Run(db, a), front), [FactOf(Run(db, a + front), s)]);
    }
  }

  lemma RunOne(db: Db, s: Step)
    ensures Run(db, [s]) == Next(db, s) && Log(db, [s]) == [FactOf(db, s)]
  {
    assert [s][..0] == [];
    assert Run(db, []) == db;
  }

  // ----- the environment -----

  /** Nobody else consumes this interaction for its Host session, and nobody marks a row `responded` by hand. */
  predicate Foreign(steps: seq<Step>, id: nat, host: string) {
    forall s :: s in steps ==>
      && !(s.Claim? && s.id == id && s.host == host)
      && !(s.Terminalize? && s.state.Responded?)
  }

  /** The broker's interaction: erased, or still its own and not consumed. */
  ghost predicate Unconsumed(db: Db, id: nat, owner: string, host: string) {
    && id < db.issued
    && (id in db.rows ==> db.rows[id].owner == owner && db.rows[id].host == host && !db.rows[id].state.Responded?)
  }

  lemma ForeignStepLeavesUnconsumed(db: Db, s: Step, id: nat, owner: string, host: string)
    requires Unconsumed(db, id, owner, host) && Foreign([s], id, host)
    ensures Unconsumed(Next(db, s), id, owner, host)
    ensures FactOf(db, s).Delivered? ==> FactOf(db, s).id != id
  {
    assert s in [s];
  }

  /** No fact of the list delivers interaction `id`. */
  ghost predicate NeverDelivered(log: seq<Fact>, id: nat) {
    forall f :: f in log && f.Delivered? ==> f.id != id
  }

  lemma {:induction false} ForeignStepsLeaveUnconsumed(db: Db, steps: seq<Step>, id: nat, owner: string, host: string)
    requires Unconsumed(db, id, owner, host) && Foreign(steps, id, host)
    ensures Unconsumed(Run(db, steps), id, owner, host)
    ensures NeverDelivered(Log(db, steps), id)
  {
    if steps != [] {
      var front, s := steps[..|steps| - 1], steps[|steps| - 1];
      assert s in steps;
      ForeignStepsLeaveUnconsumed(db, front, id, owner, host);
      ForeignStepLeavesUnconsumed(Run(db, front), s, id, owner, host);
    }
  }

  method Apply(store: CodexInteractionStore, s: Step)
    modifies store
    ensures store.Table() == Next(old(store.Table()), s)
  {
    match s {
      case Create(q) => var _ := store.Create(q);
      case Submit(owner, id, response, summary, key, now) =>
        var _ := store.SubmitResponse(owner, id, response, summary, key, now);
      case Claim(owner, id, host, key, now) => var _ := store.ClaimResponse(owner, id, host, key, now);
      case Terminalize(owner, id, state, error, now) => var _ := store.Terminalize(owner, id, state, error, now);
      case InterruptHost(owner, host, reason) => var _ := store.InterruptHost(owner, host, reason);
      case InterruptOrphans(owner, live) => store.InterruptOrphans(owner, live);
      case DeleteOwner(owner) => store.DeleteOwner(owner);
    }
  }

  method Interfere(store: CodexInteractionStore, steps: seq<Step>)
    modifies store
    ensures store.Table() == Run(old(store.Table()), steps)
  {
    for i := 0 to |steps|
      invariant store.Table() == Run(old(store.Table()), steps[..i])
    {
      Apply(store, steps[i]);
      assert steps[..i + 1][..i] == steps[..i];
    }
    assert steps[..|steps|] == steps;
  }

  // ----- the broker -----

  /** Where `asyncio.CancelledError` strikes in a round; a claim whose await is cancelled still commits in its thread. */
  datatype Interrupt = Never | AtCancelCheck | AtClaim | AtRead | AtSleep

  /** One turn of the polling loop as the environment decides it. */
  datatype Round = Round(
    inTime: bool,
    beforeCheck: seq<Step>,
    cancelRequested: bool,
    transportAlive: bool,
    beforeClaim: seq<Step>,
    key: nat,
    beforeRead: seq<Step>,
    publishOk: bool,
    interrupt: Interrupt)

  /**
   Where it strikes before the loop, outside the `try` that ends the row: while the creation, the publication of the
   pending event or the empty answer of a non-blocking request is awaited. The thread of a creation or an answer goes
   on; it has committed before others see the cancellation, or it commits later.
   */
  datatype Cut = NoCut | AtCreate(landed: bool) | AtPublish | AtAnswer(stored: bool)

  datatype Script = Script(
    cut: Cut,
    beforeCreate: seq<Step>,
    afterCreate: seq<Step>,
    pendingPublished: bool,
    answeredPublished: bool,
    key: nat,
    now: int,
    rounds: seq<Round>,
    afterEnd: seq<Step>)
  {
    /** A request that waits for a browser gets as far as polling. */
    predicate Goes(method_: Method, isBlocking: bool) {
      cut.NoCut? && pendingPublished && (isBlocking || !method_.UserInput?)
    }

    /** All interference after the creation is foreign to interaction `id` of session `host`. */
    ghost predicate Fair(id: nat, host: string) {
      && Foreign(afterCreate, id, host)
      && Foreign(afterEnd, id, host)
      && forall r :: r in rounds ==>
           Foreign(r.beforeCheck, id, host) && Foreign(r.beforeClaim, id, host) && Foreign(r.beforeRead, id, host)
    }
  }

  /** What a turn of the loop comes to: an answer, the end of the call without one, or another turn. */
  datatype Turn = Answer(response: string) | NoAnswer | Again(db: Db)

  /** The table as the claim of a round finds it. */
  function AtClaim(db: Db, r: Round): Db {
    Run(Run(db, r.beforeCheck), r.beforeClaim)
  }

  function TurnOf(db: Db, r: Round, owner: string, id: nat, host: string): Turn {
    var c := AtClaim(db, r);
    if r.interrupt.AtCancelCheck? || r.cancelRequested || !r.transportAlive then NoAnswer
    else if id in c.rows && c.rows[id].owner == owner && c.rows[id].host == host && c.rows[id].state.Answered? then
      if c.rows[id].token.Sealed? && c.rows[id].token.key == r.key && r.publishOk && (r.interrupt.Never? || r.interrupt.AtSleep?)
      then Answer(c.rows[id].token.response) else NoAnswer
    else
      var after := Run(c, r.beforeRead);
      if r.interrupt.Never? && id in after.rows && after.rows[id].owner == owner && after.rows[id].state.Open() then Again(after)
      else NoAnswer
  }

  /** What polling from here returns, if anything. */
  function Polled(db: Db, rounds: seq<Round>, owner: string, id: nat, host: string): Option<string>
    decreases |rounds|
  {
    if rounds == [] || !rounds[0].inTime then None
    else
      match TurnOf(db, rounds[0], owner, id, host)
      case Answer(response) => Some(response)
      case NoAnswer => None
      case Again(after) => Polled(after, rounds[1..], owner, id, host)
  }

  /** `Abandoned`: an exception that leaves the row, if there is one, as it is, to be ended with its session. */
  datatype Handled = Returned(response: string) | Denied(reason: string) | Raised(reason: string) | Abandoned(reason: string)

  /** A step that neither ends nor erases nor consumes this row. */
  predicate Harmless(s: Step, id: nat, owner: string, host: string) {
    match s
    case Create(_) => true
    case Submit(_, _, _, _, _, _) => true
    case Claim(_, i, _, _, _) => i != id
    case Terminalize(_, i, _, _, _) => i != id
    case InterruptHost(_, h, _) => h != host
    case InterruptOrphans(o, _) => o != owner
    case DeleteOwner(o) => o != owner
  }

  predicate AllHarmless(steps: seq<Step>, id: nat, owner: string, host: string) {
    forall i :: 0 <= i < |steps| ==> Harmless(steps[i], id, owner, host)
  }

  /** A round in time, with a task that goes on, a transport that lives, and nothing that ends the row. */
  predicate Undisturbed(r: Round, id: nat, owner: string, host: string) {
    && r.inTime && !r.cancelRequested && r.transportAlive && r.publishOk && r.interrupt.Never?
    && AllHarmless(r.beforeCheck, id, owner, host) && AllHarmless(r.beforeClaim, id, owner, host)
    && AllHarmless(r.beforeRead, id, owner, host)
  }

  /** The row waits for an answer, or holds this one. */
  ghost predicate Holding(db: Db, id: nat, owner: string, host: string) {
    && TokenOnlyWhileAnswered(db) && WellIssued(db)
    && id in db.rows && db.rows[id].owner == owner && db.rows[id].host == host && db.rows[id].state.Open()
  }

  lemma HarmlessKeepsRow(db: Db, s: Step, id: nat, owner: string, host: string)
    requires Holding(db, id, owner, host) && Harmless(s, id, owner, host)
    ensures Holding(Next(db, s), id, owner, host)
    ensures db.rows[id].state.Answered? ==> Next(db, s).rows[id] == db.rows[id]
  {
    StepKeepsTokenRule(db, s);
  }

  lemma {:induction false} HarmlessKeepRow(db: Db, steps: seq<Step>, id: nat, owner: string, host: string)
    requires Holding(db, id, owner, host) && AllHarmless(steps, id, owner, host)
    ensures Holding(Run(db, steps), id, owner, host)
    ensures db.rows[id].state.Answered? ==> Run(db, steps).rows[id] == db.rows[id]
  {
    if steps != [] {
      HarmlessKeepRow(db, steps[..|steps| - 1], id, owner, host);
      HarmlessKeepsRow(Run(db, steps[..|steps| - 1]), steps[|steps| - 1], id, owner, host);
    }
  }

  /** The table after a round without an answer. */
  function AfterRound(db: Db, r: Round): Db {
    Run(AtClaim(db, r), r.beforeRead)
  }

  /** The table as the claim of the last of these rounds finds it. */
  function AtLastClaim(db: Db, rounds: seq<Round>): Db
    requires rounds != []
    decreases |rounds|
  {
    if |rounds| == 1 then AtClaim(db, rounds[0]) else AtLastClaim(AfterRound(db, rounds[0]), rounds[1..])
  }

  lemma UndisturbedKeepsRow(db: Db, r: Round, id: nat, owner: string, host: string)
    requires Holding(db, id, owner, host) && Undisturbed(r, id, owner, host)
    ensures Holding(AtClaim(db, r), id, owner, host) && Holding(AfterRound(db, r), id, owner, host)
    ensures AtClaim(db, r).rows[id].state.Answered? ==> AfterRound(db, r).rows[id] == AtClaim(db, r).rows[id]
  {
    HarmlessKeepRow(db, r.beforeCheck, id, owner, host);
    HarmlessKeepRow(Run(db, r.beforeCheck), r.beforeClaim, id, owner, host);
    HarmlessKeepRow(AtClaim(db, r), r.beforeRead, id, owner, host);
  }

  lemma {:induction false} AnswerStays(db: Db, rounds: seq<Round>, id: nat, owner: string, host: string)
    requires rounds != [] && Holding(db, id, owner, host) && forall i :: 0 <= i < |rounds| ==> Undisturbed(rounds[i], id, owner, host)
    ensures Holding(AtLastClaim(db, rounds), id, owner, host)
    ensures db.rows[id].state.Answered? ==> AtLastClaim(db, rounds).rows[id] == db.rows[id]
    decreases |rounds|
  {
    var r := rounds[0];
    UndisturbedKeepsRow(db, r, id, owner, host);
    HarmlessKeepRow(db, r.beforeCheck, id, owner, host);
    HarmlessKeepRow(Run(db, r.beforeCheck), r.beforeClaim, id, owner, host);
    if |rounds| > 1 {
      assert forall i :: 0 <= i < |rounds| - 1 ==> rounds[1..][i] == rounds[i + 1];
      AnswerStays(AfterRound(db, r), rounds[1..], id, owner, host);
    }
  }

  /** This answer is stored, sealed under this key. */
  predicate Holds(db: Db, id: nat, key: nat, answer: string) {
    id in db.rows && db.rows[id].state.Answered? && db.rows[id].token == Sealed(key, answer)
  }

  lemma TurnOfUndisturbed(db: Db, r: Round, id: nat, owner: string, host: string, answer: string)
    requires Holding(db, id, owner, host) && Undisturbed(r, id, owner, host)
    ensures Holds(AtClaim(db, r), id, r.key, answer) ==> TurnOf(db, r, owner, id, host) == Answer(answer)
    ensures id in AtClaim(db, r).rows && AtClaim(db, r).rows[id].state.Pending? ==>
              TurnOf(db, r, owner, id, host) == Again(AfterRound(db, r))
  {
    UndisturbedKeepsRow(db, r, id, owner, host);
  }

  /**
   An answer comes back: if the row is open when polling starts, the rounds up to the k-th are undisturbed and can
   decrypt, and at the claim of the k-th an answer is stored, however and whenever it came, polling returns it.
   */
  lemma {:induction false} AnswerIsReturned(
    db: Db, rounds: seq<Round>, k: nat, id: nat, owner: string, host: string, key: nat, answer: string)
    requires k < |rounds| && Holding(db, id, owner, host)
    requires forall i :: 0 <= i <= k ==> Undisturbed(rounds[i], id, owner, host) && rounds[i].key == key
    requires Holds(AtLastClaim(db, rounds[..k + 1]), id, key, answer)
    ensures Polled(db, rounds, owner, id, host) == Some(answer)
    decreases k
  {
    var r := rounds[0];
    var c, after := AtClaim(db, r), AfterRound(db, r);
    assert Undisturbed(r, id, owner, host);
    UndisturbedKeepsRow(db, r, id, owner, host);
    TurnOfUndisturbed(db, r, id, owner, host, answer);
    if k > 0 {
      assert rounds[..k + 1][1..] == rounds[1..][..k] && rounds[..k + 1][0] == r;
      assert forall i :: 0 <= i < k ==> rounds[1..][i] == rounds[i + 1];
      AnswerStays(after, rounds[1..][..k], id, owner, host);
      if c.rows[id].state.Pending? {
        AnswerIsReturned(after, rounds[1..], k - 1, id, owner, host, key, answer);
      }
    }
  }

  /** The call does what the turn says. */
  ghost predicate Follows(turn: Turn, out: Option<Handled>, db: Db) {
    match turn
    case Answer(response) => out == Some(Returned(response))
    case Again(after) => out.None? && db == after
    case NoAnswer => out.Some? && !out.value.Returned?
  }

  const EMPTY_ANSWERS := "{\"answers\":{}}"

  class CodexInteractionBroker {
    const store: CodexInteractionStore
    const owner: string
    const task: string
    const host: string

    constructor (store: CodexInteractionStore, owner: string, task: string, host: string)
      ensures this.store == store && this.owner == owner && this.task == task && this.host == host
    {
      this.store, this.owner, this.task, this.host := store, owner, task, host;
    }

    /** Terminalize the row and let others run while the event is published. */
    method End(id: nat, state: State, error: string, now: int, env: seq<Step>) returns (ghost steps: seq<Step>)
      requires Unconsumed(store.Table(), id, owner, host) && Foreign(env, id, host)
      requires !state.Open() && !state.Responded?
      modifies store
      ensures store.Table() == Run(old(store.Table()), steps)
      ensures Unconsumed(store.Table(), id, owner, host)
      ensures NeverDelivered(Log(old(store.Table()), steps), id)
      ensures id in store.rows ==> !store.rows[id].state.Open()
    {
      ghost var start := store.Table();
      ghost var own := Step.Terminalize(owner, id, state, error, now);
      var _ := store.Terminalize(owner, id, state, error, now);
      ghost var mid := store.Table();
      ForeignStepLeavesUnconsumed(start, own, id, owner, host);
      Interfere(store, env);
      RunOne(start, own);
      RunConcat(start, [own], env);
      ForeignStepsLeaveUnconsumed(mid, env, id, owner, host);
      TerminalRowsAreFinal(mid, env, id);
      steps := [own] + env;
    }

    /**
     Serve one server request. A response is returned only if the row is consumed and that very response was
     delivered; a refusal leaves no row that could still be answered or consumed. `flying` is the creation that is still
     under way in its thread when the call ends.
     */
    method Handle(rpc: RpcId, method_: Method, thread: string, isBlocking: bool, json: string, script: Script)
      returns (out: Handled, id: nat, flying: Option<Request>, ghost steps: seq<Step>)
      requires WellIssued(store.Table())
      requires script.Fair(Run(store.Table(), script.beforeCreate).issued, host)
      modifies store
      ensures store.Table() == Run(old(store.Table()), steps)
      ensures out.Returned? ==>
                && Delivered(id, host, out.response) in Log(old(store.Table()), steps)
                && (id in store.rows ==> store.rows[id].state.Responded?)
      ensures out.Denied? && !method_.Unsupported? ==>
                && NeverDelivered(Log(old(store.Table()), steps), id)
                && (id in store.rows ==> !store.rows[id].state.Open() && !store.rows[id].state.Responded?)
      ensures out.Raised? && id in store.rows ==> !store.rows[id].state.Open()
      ensures out.Abandoned? ==> NeverDelivered(Log(old(store.Table()), steps), id)
      ensures method_.Unsupported? ==> out.Denied? && store.Table() == old(store.Table())
      ensures var created := CreateSpec(Run(old(store.Table()), script.beforeCreate),
                                        Request(owner, task, host, rpc, method_, thread, isBlocking, json));
              created.1.Ok? && script.Goes(method_, isBlocking) ==>
                var polled := Polled(Run(created.0, script.afterCreate), script.rounds, owner, created.1.value, host);
                id == created.1.value && if polled.Some? then out == Returned(polled.value) else !out.Returned?
      ensures flying == if script.cut == AtCreate(false) && !method_.Unsupported?
                        then Some(Request(owner, task, host, rpc, method_, thread, isBlocking, json)) else None
      ensures flying.Some? ==> out.Abandoned? && store.Table() == Run(old(store.Table()), script.beforeCreate)
    {
      id := 0;
      steps := [];
      flying := None;
      ghost var start := store.Table();
      if method_.Unsupported? {
        return Denied("unsupported interactive request"), id, flying, steps;
      }
      var q := Request(owner, task, host, rpc, method_, thread, isBlocking, json);
      if script.cut == AtCreate(false) {
        Interfere(store, script.beforeCreate);
        NotDeliveredBefore(start, script.beforeCreate, store.issued);
        return Abandoned("cancelled"), store.issued, Some(q), script.beforeCreate;
      }
      var created: Result<nat, StoreError>;
      created, id, steps := Enter(q, script.beforeCreate);
      if script.cut == AtCreate(true) {
        return Abandoned("cancelled"), id, flying, steps;
      }
      if created.Err? {
        return Raised("create failed"), id, flying, steps;
      }
      ghost var prefix := steps;
      ghost var more: seq<Step>;
      out, more := Serve(id, method_, isBlocking, script);
      RunConcat(start, prefix, more);
      steps := prefix + more;
    }

    /** Create the row after what the others do before it; `id` is the id it has if it is created. */
    method Enter(q: Request, before: seq<Step>) returns (created: Result<nat, StoreError>, id: nat, ghost steps: seq<Step>)
      requires WellIssued(store.Table())
      modifies store
      ensures id == Run(old(store.Table()), before).issued
      ensures (store.Table(), created) == CreateSpec(Run(old(store.Table()), before), q)
      ensures store.Table() == Run(old(store.Table()), steps)
      ensures NeverDelivered(Log(old(store.Table()), steps), id)
      ensures created.Ok? ==> created.value == id && Unconsumed(store.Table(), id, q.owner, q.host)
      ensures created.Err? ==> id !in store.rows
    {
      ghost var start := store.Table();
      Interfere(store, before);
      ghost var base := store.Table();
      id := store.issued;
      NotDeliveredBefore(start, before, id);
      created := store.Create(q);
      RunOne(base, Step.Create(q));
      RunConcat(start, before, [Step.Create(q)]);
      steps := before + [Step.Create(q)];
      NotDeliveredByCreation(start, before, q, id);
    }

    /** The part of `handle` after the row exists. */
    method Serve(id: nat, method_: Method, isBlocking: bool, script: Script) returns (out: Handled, ghost steps: seq<Step>)
      requires Unconsumed(store.Table(), id, owner, host) && script.Fair(id, host)
      modifies store
      ensures script.Goes(method_, isBlocking) ==>
                var polled := Polled(Run(old(store.Table()), script.afterCreate), script.rounds, owner, id, host);
                if polled.Some? then out == Returned(polled.value) else !out.Returned?
      ensures store.Table() == Run(old(store.Table()), steps)
      ensures out.Returned? ==>
                && Delivered(id, host, out.response) in Log(old(store.Table()), steps)
                && (id in store.rows ==> store.rows[id].state.Responded?)
      ensures out.Denied? ==>
                && NeverDelivered(Log(old(store.Table()), steps), id)
                && (id in store.rows ==> !store.rows[id].state.Open() && !store.rows[id].state.Responded?)
      ensures out.Raised? && id in store.rows ==> !store.rows[id].state.Open()
      ensures out.Abandoned? ==> NeverDelivered(Log(old(store.Table()), steps), id)
    {
      ghost var start := store.Table();
      ghost var more: seq<Step>;
      var done: Option<Handled>;
      done, steps := Announce(id, method_, isBlocking, script);
      if done.Some? {
        return done.value, steps;
      }
      out, more := Poll(id, script);
      RunConcat(start, steps, more);
      steps := steps + more;
    }

    /** Publish the pending row, and answer a non-blocking request at once; `None` means go on to poll. */
    method Announce(id: nat, method_: Method, isBlocking: bool, script: Script)
      returns (out: Option<Handled>, ghost steps: seq<Step>)
      requires Unconsumed(store.Table(), id, owner, host) && script.Fair(id, host)
      modifies store
      ensures store.Table() == Run(old(store.Table()), steps)
      ensures NeverDelivered(Log(old(store.Table()), steps), id)
      ensures out.None? ==> Unconsumed(store.Table(), id, owner, host)
      ensures script.Goes(method_, isBlocking) ==> out.None? && store.Table() == Run(old(store.Table()), script.afterCreate)
      ensures out.Some? ==> out.value.Denied? || out.value.Abandoned?
      ensures out.Some? && out.value.Denied? && id in store.rows ==>
                !store.rows[id].state.Open() && !store.rows[id].state.Responded?
    {
      ghost var start := store.Table();
      Interfere(store, script.afterCreate);
      steps := script.afterCreate;
      ForeignStepsLeaveUnconsumed(start, steps, id, owner, host);
      if script.cut.AtPublish? {
        return Some(Abandoned("cancelled")), steps;
      }
      ghost var more: seq<Step>;
      if !script.pendingPublished {
        more := End(id, Failed, "could not publish the pending interaction", script.now, script.afterEnd);
        RunConcat(start, steps, more);
        return Some(Denied("could not publish the interaction")), steps + more;
      }
      out := None;
      if method_.UserInput? && !isBlocking {
        out, more := AnswerEmpty(id, script);
        RunConcat(start, steps, more);
        steps := steps + more;
      }
    }

    /** A non-blocking request is answered with nothing. */
    method AnswerEmpty(id: nat, script: Script) returns (out: Option<Handled>, ghost steps: seq<Step>)
      requires Unconsumed(store.Table(), id, owner, host)
      modifies store
      ensures store.Table() == Run(old(store.Table()), steps)
      ensures NeverDelivered(Log(old(store.Table()), steps), id)
      ensures Unconsumed(store.Table(), id, owner, host)
      ensures out.Some? ==> out.value.Abandoned?
    {
      out, steps := None, [];
      if script.cut == AtAnswer(false) {
        return Some(Abandoned("cancelled")), steps;
      }
      var stored: bool;
      stored, steps := Answer(id, EMPTY_ANSWERS, "{}", script.key, script.now);
      if script.cut.AtAnswer? || !stored || !script.answeredPublished {
        out := Some(Abandoned("non-blocking answer was not stored or published"));
      }
    }

    method Answer(id: nat, response: string, summary: string, key: nat, now: int) returns (stored: bool, ghost steps: seq<Step>)
      requires Unconsumed(store.Table(), id, owner, host)
      modifies store
      ensures store.Table() == Run(old(store.Table()), steps)
      ensures NeverDelivered(Log(old(store.Table()), steps), id)
      ensures Unconsumed(store.Table(), id, owner, host)
    {
      ghost var start := store.Table();
      ghost var s := Step.Submit(owner, id, response, summary, key, now);
      var answered := store.SubmitResponse(owner, id, response, summary, key, now);
      ForeignStepLeavesUnconsumed(start, s, id, owner, host);
      RunOne(start, s);
      stored, steps := answered.Ok?, [s];
    }

    /** The polling loop. */
    method Poll(id: nat, script: Script) returns (out: Handled, ghost steps: seq<Step>)
      requires Unconsumed(store.Table(), id, owner, host) && script.Fair(id, host)
      modifies store
      ensures var polled := Polled(old(store.Table()), script.rounds, owner, id, host);
              if polled.Some? then out == Returned(polled.value) else !out.Returned?
      ensures store.Table() == Run(old(store.Table()), steps)
      ensures out.Returned? ==>
                && Delivered(id, host, out.response) in Log(old(store.Table()), steps)
                && (id in store.rows ==> store.rows[id].state.Responded?)
      ensures out.Denied? ==>
                && NeverDelivered(Log(old(store.Table()), steps), id)
                && (id in store.rows ==> !store.rows[id].state.Open() && !store.rows[id].state.Responded?)
      ensures out.Raised? && id in store.rows ==> !store.rows[id].state.Open()
      ensures out.Abandoned? ==> NeverDelivered(Log(old(store.Table()), steps), id)
    {
      ghost var start := store.Table();
      steps := [];
      ghost var more: seq<Step>;
      var i := 0;
      while i < |script.rounds| && script.rounds[i].inTime
        invariant 0 <= i <= |script.rounds|
        invariant store.Table() == Run(start, steps)
        invariant Unconsumed(store.Table(), id, owner, host)
        invariant NeverDelivered(Log(start, steps), id)
        invariant Polled(start, script.rounds, owner, id, host) == Polled(store.Table(), script.rounds[i..], owner, id, host)
      {
        var r := script.rounds[i];
        assert r in script.rounds;
        assert script.rounds[i..][0] == r && script.rounds[i..][1..] == script.rounds[i + 1..];
        var done: Option<Handled>;
        done, more := PollOnce(id, r, script.now, script.afterEnd);
        RunConcat(start, steps, more);
        steps := steps + more;
        if done.Some? {
          return done.value, steps;
        }
        i := i + 1;
      }
      more := End(id, Expired, "exceeded the user-response window", script.now, script.afterEnd);
      RunConcat(start, steps, more);
      return Denied("timed out waiting for user response"), steps + more;
    }

    /** One turn of the loop; `None` means keep polling. */
    method PollOnce(id: nat, r: Round, now: int, afterEnd: seq<Step>)
      returns (out: Option<Handled>, ghost steps: seq<Step>)
      requires Unconsumed(store.Table(), id, owner, host)
      requires Foreign(r.beforeCheck, id, host) && Foreign(r.beforeClaim, id, host) && Foreign(r.beforeRead, id, host)
      requires Foreign(afterEnd, id, host)
      modifies store
      ensures Follows(TurnOf(old(store.Table()), r, owner, id, host), out, store.Table())
      ensures store.Table() == Run(old(store.Table()), steps)
      ensures out.None? ==> Unconsumed(store.Table(), id, owner, host)
      ensures out.None? || out.value.Denied? || out.value.Abandoned? ==> NeverDelivered(Log(old(store.Table()), steps), id)
      ensures out.Some? && out.value.Raised? && id in store.rows ==> !store.rows[id].state.Open()
      ensures out.Some? && out.value.Denied? && id in store.rows ==>
                !store.rows[id].state.Open() && !store.rows[id].state.Responded?
      ensures out.Some? && out.value.Returned? ==>
                && Delivered(id, host, out.value.response) in Log(old(store.Table()), steps)
                && (id in store.rows ==> store.rows[id].state.Responded?)
    {
      ghost var start := store.Table();
      ghost var more: seq<Step>;
      Interfere(store, r.beforeCheck);
      steps := r.beforeCheck;
      ForeignStepsLeaveUnconsumed(start, steps, id, owner, host);
      if r.interrupt.AtCancelCheck? {
        more := End(id, Interrupted, "Host coroutine was cancelled", now, afterEnd);
        RunConcat(start, steps, more);
        return Some(Raised("cancelled")), steps + more;
      }
      if r.cancelRequested {
        more := End(id, Cancelled, "task cancellation requested", now, afterEnd);
        RunConcat(start, steps, more);
        return Some(Denied("task was cancelled while interaction was pending")), steps + more;
      }
      if !r.transportAlive {
        more := End(id, Interrupted, "transport exited while interaction was pending", now, afterEnd);
        RunConcat(start, steps, more);
        return Some(Denied("transport closed while interaction was pending")), steps + more;
      }
      ghost var mid := store.Table();
      out, more := ClaimOnce(id, r, now, afterEnd, start);
      RunConcat(start, steps, more);
      steps := steps + more;
    }

    /** Try to consume the answer, then look at the row. */
    method ClaimOnce(id: nat, r: Round, now: int, afterEnd: seq<Step>, ghost checked: Db)
      returns (out: Option<Handled>, ghost steps: seq<Step>)
      requires Unconsumed(store.Table(), id, owner, host)
      requires Foreign(r.beforeClaim, id, host) && Foreign(r.beforeRead, id, host) && Foreign(afterEnd, id, host)
      requires store.Table() == Run(checked, r.beforeCheck)
      requires !r.interrupt.AtCancelCheck? && !r.cancelRequested && r.transportAlive
      modifies store
      ensures Follows(TurnOf(checked, r, owner, id, host), out, store.Table())
      ensures store.Table() == Run(old(store.Table()), steps)
      ensures out.None? ==> Unconsumed(store.Table(), id, owner, host)
      ensures out.None? || out.value.Denied? || out.value.Abandoned? ==> NeverDelivered(Log(old(store.Table()), steps), id)
      ensures out.Some? && out.value.Raised? && id in store.rows ==> !store.rows[id].state.Open()
      ensures out.Some? && out.value.Denied? && id in store.rows ==>
                !store.rows[id].state.Open() && !store.rows[id].state.Responded?
      ensures out.Some? && out.value.Returned? ==>
                && Delivered(id, host, out.value.response) in Log(old(store.Table()), steps)
                && (id in store.rows ==> store.rows[id].state.Responded?)
    {
      ghost var start := store.Table();
      ghost var more: seq<Step>;
      Interfere(store, r.beforeClaim);
      ForeignStepsLeaveUnconsumed(start, r.beforeClaim, id, owner, host);
      ghost var db := store.Table();
      ghost var claim := Step.Claim(owner, id, host, r.key, now);
      var response := store.ClaimResponse(owner, id, host, r.key, now);
      ghost var claimed := store.Table();
      RunOne(db, claim);
      RunConcat(start, r.beforeClaim, [claim]);
      steps := r.beforeClaim + [claim];
      if response.Err? {
        return Some(Abandoned("response could not be decrypted")), steps;
      }
      if response.value.Some? {
        Interfere(store, r.beforeRead);
        RunConcat(start, steps, r.beforeRead);
        steps := steps + r.beforeRead;
        TerminalRowsAreFinal(claimed, r.beforeRead, id);
        if r.interrupt.AtClaim? || r.interrupt.AtRead? || !r.publishOk {
          return Some(Raised("response was consumed but not handed over")), steps;
        }
        return Some(Returned(response.value.value)), steps;
      }
      out, more := ReadOnce(id, r, now, afterEnd);
      RunConcat(start, steps, more);
      steps := steps + more;
    }

    /** Look at the row after a claim without an answer. */
    method ReadOnce(id: nat, r: Round, now: int, afterEnd: seq<Step>)
      returns (out: Option<Handled>, ghost steps: seq<Step>)
      requires Unconsumed(store.Table(), id, owner, host)
      requires Foreign(r.beforeRead, id, host) && Foreign(afterEnd, id, host)
      modifies store
      ensures store.Table() == Run(old(store.Table()), steps)
      ensures NeverDelivered(Log(old(store.Table()), steps), id)
      ensures var after := Run(old(store.Table()), r.beforeRead);
              if r.interrupt.Never? && id in after.rows && after.rows[id].owner == owner && after.rows[id].state.Open()
              then out.None? && store.Table() == after
              else out.Some? && (out.value.Denied? || out.value.Raised?)
      ensures out.None? ==> Unconsumed(store.Table(), id, owner, host)
      ensures out.Some? && id in store.rows ==> !store.rows[id].state.Open() && !store.rows[id].state.Responded?
    {
      ghost var start := store.Table();
      ghost var more: seq<Step>;
      Interfere(store, r.beforeRead);
      steps := r.beforeRead;
      ForeignStepsLeaveUnconsumed(start, steps, id, owner, host);
      if !r.interrupt.Never? {
        more := End(id, Interrupted, "Host coroutine was cancelled", now, afterEnd);
        RunConcat(start, steps, more);
        return Some(Raised("cancelled")), steps + more;
      }
      if id !in store.rows || store.rows[id].owner != owner {
        return Some(Denied("interaction disappeared")), steps;
      }
      if !store.rows[id].state.Open() {
        return Some(Denied("interaction ended before a response was delivered")), steps;
      }
      return None, steps;
    }
  }

  /** Row ids are issued ids. */
  ghost predicate WellIssued(db: Db) {
    forall i :: i in db.rows ==> i < db.issued
  }

  /** Before its creation an id cannot have been delivered. */
  lemma {:induction false} NotDeliveredBefore(db: Db, steps: seq<Step>, id: nat)
    requires Run(db, steps).issued <= id
    requires WellIssued(db)
    ensures NeverDelivered(Log(db, steps), id)
    ensures WellIssued(Run(db, steps))
    ensures db.issued <= Run(db, steps).issued
  {
    if steps != [] {
      var front := steps[..|steps| - 1];
      assert forall s :: Next(Run(db, front), s).issued >= Run(db, front).issued;
      NotDeliveredBefore(db, front, id);
      IssuedGrows(Run(db, front), steps[|steps| - 1]);
    }
  }

  lemma IssuedGrows(db: Db, s: Step)
    requires WellIssued(db)
    ensures WellIssued(Next(db, s))
    ensures db.issued <= Next(db, s).issued
  {}

  lemma NotDeliveredByCreation(db: Db, before: seq<Step>, q: Request, id: nat)
    requires WellIssued(db)
    requires Run(db, before).issued == id
    ensures NeverDelivered(Log(db, before + [Step.Create(q)]), id)
  {
    NotDeliveredBefore(db, before, id);
    RunConcat(db, before, [Step.Create(q)]);
    RunOne(Run(db, before), Step.Create(q));
  }
}
