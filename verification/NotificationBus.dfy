/**
 The bounded ordered writer of `server/app/codex_notification_bus.py`. One step is what a coroutine does between two
 awaits; the order of steps is arbitrary. A put survives the cancellation of its caller, as an asyncio task does.
 */
module NotificationBus {
  import opened Common

  type Notice = nat

  type CallId = nat

  datatype Item = Envelope(notice: Notice) | Sentinel

  /** The writer task: none, at `queue.get`, inside the store, or finished. */
  datatype Worker = NoWorker | Waiting | Writing(notice: Notice) | Finished(cancelled: bool)

  /**
   `orphan` once the call that made the put was cancelled. `alone` once the writer it watched has been forgotten: the
   call then awaits its put and nothing else.
   */
  datatype Put = Put(item: Item, stored: bool, orphan: bool, alone: bool)

  datatype Closer = Open | Putting(call: CallId) | Joining

  datatype Record = Record(notice: Notice, durable: bool)

  datatype Outcome = Returned | Raised

  /**
   `accepted` lists the notices that entered the queue, `taken` what became of those that left it.
   `late` is set when a publisher overlaps or follows `close`, or `close` is called again; `reused` when a writer starts
   after a `close`.
   */
  datatype State = State(
    bound: nat, queue: seq<Item>, worker: Worker, error: bool, puts: map<CallId, Put>, closer: Closer,
    accepted: seq<Notice>, taken: seq<Record>,
    closed: Option<Outcome>, late: bool, cancelled: bool, reused: bool)

  datatype Choice =
    | Start
    | Publish(call: CallId, notice: Notice)
    | Enqueue(call: CallId)
    | Finish(call: CallId)
    | CancelCall(call: CallId)
    | Get
    | Write(ok: bool)
    | CancelWorker(landed: bool)
    | Close(call: CallId, landed: bool)
    | Join

  function Init(maxPending: nat): State {
    State(Max(128, maxPending), [], NoWorker, false, map[], Open, [], [], None, false, false, false)
  }

  function StepStart(s: State): State {
    if s.worker.NoWorker? then s.(worker := Waiting, reused := s.reused || s.closed.Some?) else s
  }

  predicate Free(s: State, call: CallId) {
    call !in s.puts && s.closer != Putting(call)
  }

  /** `publish`, and `_put_while_writer_alive` up to its wait: refused at once when there is an error or no live writer. */
  function StepPublish(s: State, call: CallId, n: Notice): State {
    var s1 := StepStart(s);
    if s1.error || s1.worker.Finished? then s1
    else s1.(puts := s1.puts[call := Put(Envelope(n), false, false, false)],
             late := s1.late || s1.closer != Open || s1.closed.Some?)
  }

  predicate CanEnqueue(s: State, call: CallId) {
    call in s.puts && !s.puts[call].stored && |s.queue| < s.bound
  }

  function StepEnqueue(s: State, call: CallId): State
    requires CanEnqueue(s, call)
  {
    var p := s.puts[call];
    s.(queue := s.queue + [p.item],
       accepted := s.accepted + (if p.item.Envelope? then [p.item.notice] else []),
       puts := if p.orphan then s.puts - {call} else s.puts[call := p.(stored := true)])
  }

  /** A caller that still waits. */
  predicate Live(s: State, call: CallId) {
    call in s.puts && !s.puts[call].orphan
  }

  /** The wait is over: the put is in, or the writer that is watched has ended. */
  predicate CanFinish(s: State, call: CallId) {
    Live(s, call) && (s.puts[call].stored || (s.worker.Finished? && !s.puts[call].alone))
  }

  /** What the call sees. */
  function FinishOutcome(s: State, call: CallId): Outcome
    requires CanFinish(s, call)
  {
    if s.puts[call].stored && !s.error then Returned else Raised
  }

  /** A caller that publishes is told the outcome; `close` goes on to join the writer, unless it sees a cancellation. */
  function StepFinish(s: State, call: CallId): State
    requires CanFinish(s, call)
  {
    var s1 := s.(puts := s.puts - {call});
    if s.closer != Putting(call) then s1
    else if !s.puts[call].stored && s.worker.cancelled && !s.error then s1.(closer := Open, closed := Some(Raised))
    else s1.(closer := Joining)
  }

  function StepCancelCall(s: State, call: CallId): State
    requires call in s.puts && !s.puts[call].orphan
  {
    var p := s.puts[call];
    var s1 := s.(puts := if p.stored || p.alone then s.puts - {call} else s.puts[call := p.(orphan := true)]);
    if s.closer == Putting(call) then s1.(closer := Open, closed := Some(Raised)) else s1
  }

  predicate CanGet(s: State) {
    s.worker.Waiting? && s.queue != []
  }

  function StepGet(s: State): State
    requires CanGet(s)
  {
    s.(queue := s.queue[1..], worker := if s.queue[0].Sentinel? then Finished(false) else Writing(s.queue[0].notice))
  }

  function StepWrite(s: State, ok: bool): State
    requires s.worker.Writing?
  {
    s.(taken := s.taken + [Record(s.worker.notice, ok)],
       worker := if ok then Waiting else Finished(false),
       error := s.error || !ok)
  }

  /** The writer task is cancelled: by a cancellation of `close` while it awaits the writer, or from outside. */
  function StepCancelWorker(s: State, landed: bool): State {
    match s.worker
    case Waiting => s.(worker := Finished(true), cancelled := true)
    case Writing(n) => s.(worker := Finished(true), cancelled := true, taken := s.taken + [Record(n, landed)])
    case _ => s
  }

  /** `landed` as in `StepCancelWorker`: a close after an error cancels a writer that is still alive. */
  function StepClose(s: State, call: CallId, landed: bool): State {
    var s1 := s.(late := s.late || s.puts != map[] || s.closed.Some?);
    match s.worker
    case NoWorker => s1.(closed := Some(if s.error then Raised else Returned))
    case Finished(_) => s1.(closer := Joining)
    case _ =>
      if s.error then StepCancelWorker(s1, landed).(closer := Joining)
      else s1.(puts := s.puts[call := Put(Sentinel, false, false, false)], closer := Putting(call))
  }

  /** Callers whose item is not in find no writer any more, and are left with their put. */
  function LeftAlone(puts: map<CallId, Put>): map<CallId, Put> {
    map i | i in puts :: if puts[i].stored || puts[i].orphan then puts[i] else puts[i].(alone := true)
  }

  function StepJoin(s: State): State
    requires s.closer.Joining? && s.worker.Finished?
  {
    s.(worker := NoWorker, closer := Open, closed := Some(if s.error then Raised else Returned), puts := LeftAlone(s.puts))
  }

  function Step(s: State, c: Choice): State {
    match c
    case Start => StepStart(s)
    case Publish(call, n) => if Free(s, call) then StepPublish(s, call, n) else s
    case Enqueue(call) => if CanEnqueue(s, call) then StepEnqueue(s, call) else s
    case Finish(call) => if CanFinish(s, call) then StepFinish(s, call) else s
    case CancelCall(call) => if call in s.puts && !s.puts[call].orphan then StepCancelCall(s, call) else s
    case Get => if CanGet(s) then StepGet(s) else s
    case Write(ok) => if s.worker.Writing? then StepWrite(s, ok) else s
    case CancelWorker(landed) => StepCancelWorker(s, landed)
    case Close(call, landed) => if s.closer.Open? && Free(s, call) then StepClose(s, call, landed) else s
    case Join => if s.closer.Joining? && s.worker.Finished? then StepJoin(s) else s
  }

  function Exec(s: State, cs: seq<Choice>): State {
    if cs == [] then s else Step(Exec(s, cs[..|cs| - 1]), cs[|cs| - 1])
  }

  // ----- conservation -----

  function Notices(q: seq<Item>): seq<Notice> {
    if q == [] then []
    else (if q[0].Envelope? then [q[0].notice] else []) + Notices(q[1..])
  }

  lemma {:induction false} NoticesOfConcat(q: seq<Item>, r: seq<Item>)
    ensures Notices(q + r) == Notices(q) + Notices(r)
  {
    if q == [] {
      assert q + r == r;
    } else {
      var head := if q[0].Envelope? then [q[0].notice] else [];
      assert (q + r)[0] == q[0] && (q + r)[1..] == q[1..] + r;
      NoticesOfConcat(q[1..], r);
      assert Notices(q + r) == head + Notices(q[1..] + r);
      Assoc(head, Notices(q[1..]), Notices(r));
    }
  }

  function TakenNotices(rs: seq<Record>): (r: seq<Notice>)
    ensures |r| == |rs|
  {
    if rs == [] then [] else TakenNotices(rs[..|rs| - 1]) + [rs[|rs| - 1].notice]
  }

  function InFlight(s: State): seq<Notice> {
    if s.worker.Writing? then [s.worker.notice] else []
  }

  /** What the event log holds. */
  function Durable(rs: seq<Record>): seq<Notice> {
    if rs == [] then []
    else Durable(rs[..|rs| - 1]) + (if rs[|rs| - 1].durable then [rs[|rs| - 1].notice] else [])
  }

  predicate Conserved(s: State) {
    s.accepted == TakenNotices(s.taken) + InFlight(s) + Notices(s.queue) && |s.queue| <= s.bound && s.bound >= 128
  }

  lemma EnqueueConserves(s: State, call: CallId)
    requires Conserved(s) && CanEnqueue(s, call)
    ensures Conserved(StepEnqueue(s, call))
  {
    var item := s.puts[call].item;
    var more := if item.Envelope? then [item.notice] else [];
    NoticesOfConcat(s.queue, [item]);
    assert Notices([item]) == more;
    Assoc(TakenNotices(s.taken) + InFlight(s), Notices(s.queue), more);
  }

  lemma TakenConserves(s: State, landed: bool)
    requires Conserved(s) && s.worker.Writing?
    ensures Conserved(StepWrite(s, landed)) && Conserved(StepCancelWorker(s, landed))
  {
    var more := s.taken + [Record(s.worker.notice, landed)];
    assert more[..|s.taken|] == s.taken;
  }

  lemma GetConserves(s: State)
    requires Conserved(s) && CanGet(s)
    ensures Conserved(StepGet(s))
  {
    assert Notices(s.queue) == InFlight(StepGet(s)) + Notices(s.queue[1..]);
  }

  predicate SameBooks(s: State, t: State) {
    t.queue == s.queue && t.accepted == s.accepted && t.taken == s.taken && t.bound == s.bound && InFlight(t) == InFlight(s)
  }

  lemma CallsLeaveBooks(s: State, c: Choice)
    requires c.Start? || c.Publish? || c.Finish? || c.CancelCall? || c.Join?
    ensures SameBooks(s, Step(s, c))
  {}

  lemma CloseBooks(s: State, call: CallId, landed: bool)
    ensures SameBooks(if s.worker.Writing? && s.error then StepCancelWorker(s, landed) else s, StepClose(s, call, landed))
  {}

  lemma CloseConserves(s: State, call: CallId, landed: bool)
    requires Conserved(s)
    ensures Conserved(StepClose(s, call, landed))
  {
    CloseBooks(s, call, landed);
    if s.worker.Writing? {
      TakenConserves(s, landed);
    }
  }

  lemma WriterConserves(s: State, c: Choice)
    requires Conserved(s) && (c.Get? || c.Write? || c.CancelWorker?)
    ensures Conserved(Step(s, c))
  {
    if c.Get? {
      if CanGet(s) {
        GetConserves(s);
      }
    } else if s.worker.Writing? {
      TakenConserves(s, if c.Write? then c.ok else c.landed);
    } else {
      assert SameBooks(s, Step(s, c));
    }
  }

  lemma StepConserves(s: State, c: Choice)
    requires Conserved(s)
    ensures Conserved(Step(s, c))
  {
    if c.Get? || c.Write? || c.CancelWorker? {
      WriterConserves(s, c);
    } else if c.Close? {
      CloseConserves(s, c.call, c.landed);
    } else if c.Enqueue? {
      if CanEnqueue(s, c.call) {
        EnqueueConserves(s, c.call);
      }
    } else {
      CallsLeaveBooks(s, c);
    }
  }

  // ----- order and completeness -----

  /** Only the last record can be one that did not become durable, and then the writer has ended. */
  predicate InOrder(s: State) {
    && (forall i :: 0 <= i < |s.taken| - 1 ==> s.taken[i].durable)
    && (s.taken != [] && !s.taken[|s.taken| - 1].durable ==> s.worker.Finished? || s.worker.NoWorker?)
    && (s.worker.NoWorker? && s.closed.None? ==> s.taken == [])
  }

  lemma CallKeepsOrder(s: State, c: Choice)
    requires !s.reused ==> InOrder(s)
    requires c.Start? || c.Publish? || c.Enqueue? || c.Finish? || c.CancelCall?
    ensures !Step(s, c).reused ==> InOrder(Step(s, c))
  {}

  lemma WriterKeepsOrder(s: State, c: Choice)
    requires !s.reused ==> InOrder(s)
    requires c.Get? || c.Write? || c.CancelWorker?
    ensures !Step(s, c).reused ==> InOrder(Step(s, c))
  {}

  lemma CloseKeepsOrder(s: State, c: Choice)
    requires !s.reused ==> InOrder(s)
    requires c.Close? || c.Join?
    ensures !Step(s, c).reused ==> InOrder(Step(s, c))
  {}

  predicate NoSentinel(q: seq<Item>) {
    forall i :: 0 <= i < |q| ==> q[i].Envelope?
  }

  /** The sentinel is the last thing in the queue. */
  predicate Sealed(q: seq<Item>) {
    q != [] && q[|q| - 1].Sentinel? && NoSentinel(q[..|q| - 1])
  }

  predicate Ended(s: State) {
    s.worker.Finished? && (s.error || s.queue == [])
  }

  predicate Draining(s: State) {
    Ended(s) || (Sealed(s.queue) && !s.worker.Finished? && !s.worker.NoWorker?)
  }

  predicate AllDurable(rs: seq<Record>) {
    forall i :: 0 <= i < |rs| ==> rs[i].durable
  }

  predicate Running(s: State) {
    && NoSentinel(s.queue) && (s.worker.Finished? ==> s.error)
    && (forall p :: p in s.puts ==> s.puts[p].item.Envelope?)
    && (s.worker.NoWorker? ==> s.puts == map[] && s.queue == [] && !s.error)
  }

  predicate Sealing(s: State, call: CallId) {
    && s.puts.Keys == {call} && s.puts[call].item.Sentinel? && !s.puts[call].orphan && !s.worker.NoWorker?
    && if s.puts[call].stored then Draining(s) else NoSentinel(s.queue) && (s.worker.Finished? ==> s.error)
  }

  /** One `close`, after all publishers: the writer ends with an empty queue, or with an error. */
  predicate Tidy(s: State) {
    && (!s.error ==> AllDurable(s.taken))
    && (s.closed.Some? ==> s.closer.Open?)
    && (s.closed.None? ==>
          match s.closer
          case Open => Running(s)
          case Putting(call) => Sealing(s, call)
          case Joining => s.puts == map[] && Draining(s))
    && (s.closed == Some(Returned) ==>
          s.closer.Open? && s.worker.NoWorker? && !s.error && s.queue == [] && s.puts == map[])
  }

  predicate Regular(s: State) {
    !s.late && !s.cancelled && !s.reused
  }

  lemma CallKeepsTidy(s: State, c: Choice)
    requires Regular(s) ==> Tidy(s)
    requires c.Start? || c.Publish? || c.Enqueue? || c.Finish? || c.CancelCall?
    ensures Regular(Step(s, c)) ==> Tidy(Step(s, c))
  {
    if c.Enqueue? && CanEnqueue(s, c.call) && s.puts[c.call].item.Sentinel? {
      assert Step(s, c).queue[..|s.queue|] == s.queue;
    }
  }

  lemma SealedTail(q: seq<Item>)
    requires Sealed(q)
    ensures q[0].Sentinel? ==> q[1..] == []
    ensures q[0].Envelope? ==> Sealed(q[1..])
  {
    if |q| > 1 {
      assert q[..|q| - 1][0] == q[0];
      assert q[1..][..|q| - 2] == q[..|q| - 1][1..];
    }
  }

  lemma WriterKeepsTidy(s: State, c: Choice)
    requires Regular(s) ==> Tidy(s)
    requires c.Get? || c.Write? || c.CancelWorker? || c.Close? || c.Join?
    ensures Regular(Step(s, c)) ==> Tidy(Step(s, c))
  {
    if Sealed(s.queue) {
      SealedTail(s.queue);
    }
  }

  ghost predicate Inv(s: State) {
    Conserved(s) && (!s.reused ==> InOrder(s)) && (Regular(s) ==> Tidy(s)) && Joinable(s)
  }

  /** A joining `close` waits for a writer that has ended or will find a sentinel. */
  predicate Joinable(s: State) {
    && (s.closer.Joining? ==> s.worker.Finished? || (!s.worker.NoWorker? && Sentinel in s.queue))
    && (s.closer.Putting? ==>
          && Live(s, s.closer.call) && s.puts[s.closer.call].item.Sentinel? && !s.puts[s.closer.call].alone
          && !s.worker.NoWorker?
          && (s.puts[s.closer.call].stored ==> s.worker.Finished? || Sentinel in s.queue))
  }

  lemma GetKeepsJoinable(s: State)
    requires Joinable(s) && CanGet(s)
    ensures Joinable(StepGet(s))
  {
    assert s.queue == [s.queue[0]] + s.queue[1..];
  }

  lemma CloseKeepsJoinable(s: State, c: Choice)
    requires Joinable(s) && (c.Close? || c.Join?)
    ensures Joinable(Step(s, c))
  {}

  lemma WriterKeepsJoinable(s: State, c: Choice)
    requires Joinable(s) && (c.Write? || c.CancelWorker?)
    ensures Joinable(Step(s, c))
  {}

  lemma PutKeepsJoinable(s: State, c: Choice)
    requires Joinable(s) && (c.Start? || c.Publish? || c.Enqueue?)
    ensures Joinable(Step(s, c))
  {}

  lemma CallEndKeepsJoinable(s: State, c: Choice)
    requires Joinable(s) && (c.Finish? || c.CancelCall?)
    ensures Joinable(Step(s, c))
  {}

  lemma StepKeepsJoinable(s: State, c: Choice)
    requires Joinable(s)
    ensures Joinable(Step(s, c))
  {
    match c
    case Get =>
      if CanGet(s) {
        GetKeepsJoinable(s);
      }
    case Close(_, _) => CloseKeepsJoinable(s, c);
    case Join => CloseKeepsJoinable(s, c);
    case Write(_) => WriterKeepsJoinable(s, c);
    case CancelWorker(_) => WriterKeepsJoinable(s, c);
    case Finish(_) => CallEndKeepsJoinable(s, c);
    case CancelCall(_) => CallEndKeepsJoinable(s, c);
    case _ => PutKeepsJoinable(s, c);
  }

  lemma {:induction false} InvAlways(maxPending: nat, cs: seq<Choice>)
    ensures Inv(Exec(Init(maxPending), cs))
    ensures Exec(Init(maxPending), cs).bound == Max(128, maxPending)
  {
    if cs != [] {
      var s, c := Exec(Init(maxPending), cs[..|cs| - 1]), cs[|cs| - 1];
      InvAlways(maxPending, cs[..|cs| - 1]);
      StepConserves(s, c);
      StepKeepsJoinable(s, c);
      if c.Start? || c.Publish? || c.Enqueue? || c.Finish? || c.CancelCall? {
        CallKeepsTidy(s, c);
        CallKeepsOrder(s, c);
      } else {
        WriterKeepsTidy(s, c);
        if c.Close? || c.Join? {
          CloseKeepsOrder(s, c);
        } else {
          WriterKeepsOrder(s, c);
        }
      }
      BoundIsFixed(s, c);
    }
  }

  lemma CallKeepsBound(s: State, c: Choice)
    requires c.Start? || c.Publish? || c.Enqueue? || c.Finish? || c.CancelCall?
    ensures Step(s, c).bound == s.bound
  {}

  lemma BoundIsFixed(s: State, c: Choice)
    ensures Step(s, c).bound == s.bound
  {
    if c.Start? || c.Publish? || c.Enqueue? || c.Finish? || c.CancelCall? {
      CallKeepsBound(s, c);
    }
  }

  lemma OneMore(s: State, cs: seq<Choice>, c: Choice)
    ensures Exec(s, cs + [c]) == Step(Exec(s, cs), c)
  {
    assert (cs + [c])[..|cs|] == cs;
  }

  // ----- the writer left alone -----

  /** What the writer makes of its queue when nobody else moves: `accepts(k)` is the store's answer to its k-th write. */
  function Drained(s: State, accepts: nat -> bool, k: nat): State
    decreases |s.queue|
  {
    if !CanGet(s) then s
    else
      var t := StepGet(s);
      if t.worker.Writing? then Drained(StepWrite(t, accepts(k)), accepts, if accepts(k) then k + 1 else k) else t
  }

  lemma {:induction false} DrainedIsRun(s: State, accepts: nat -> bool, k: nat) returns (cs: seq<Choice>)
    ensures Exec(s, cs) == Drained(s, accepts, k)
    ensures forall c :: c in cs ==> c.Get? || c.Write?
    decreases |s.queue|
  {
    cs := [];
    if CanGet(s) {
      var t := StepGet(s);
      if t.worker.Writing? {
        var rest := DrainedIsRun(StepWrite(t, accepts(k)), accepts, if accepts(k) then k + 1 else k);
        RunAfter(s, [Get, Write(accepts(k))], rest);
        OneMore(s, [], Get);
        OneMore(s, [Get], Write(accepts(k)));
        assert [] + [Get] == [Get] && [Get] + [Write(accepts(k))] == [Get, Write(accepts(k))];
        cs := [Get, Write(accepts(k))] + rest;
      } else {
        OneMore(s, [], Get);
        assert [] + [Get] == [Get];
        cs := [Get];
      }
    }
  }

  lemma {:induction false} RunAfter(s: State, cs: seq<Choice>, ds: seq<Choice>)
    ensures Exec(s, cs + ds) == Exec(Exec(s, cs), ds)
  {
    if ds == [] {
      assert cs + ds == cs;
    } else {
      RunAfter(s, cs, ds[..|ds| - 1]);
      assert cs + ds == (cs + ds[..|ds| - 1]) + [ds[|ds| - 1]];
      OneMore(s, cs + ds[..|ds| - 1], ds[|ds| - 1]);
    }
  }

  lemma TakeOneMore(rs: seq<Record>, n: Notice)
    ensures Durable(rs + [Record(n, true)]) == Durable(rs) + [n]
  {
    assert (rs + [Record(n, true)])[..|rs|] == rs;
  }

  /** A writer whose store accepts everything brings a sealed queue to its end: nothing is left. */
  lemma {:induction false} SealedQueueDrains(s: State, accepts: nat -> bool, k: nat)
    requires s.worker.Waiting? && Sealed(s.queue) && (forall i :: accepts(i))
    ensures var t := Drained(s, accepts, k);
            && t.worker == Finished(false) && t.queue == [] && t.error == s.error
            && Durable(t.taken) == Durable(s.taken) + Notices(s.queue)
    decreases |s.queue|
  {
    var t := StepGet(s);
    SealedTail(s.queue);
    if t.worker.Writing? {
      var u := StepWrite(t, accepts(k));
      var n := t.worker.notice;
      TakeOneMore(s.taken, n);
      SealedQueueDrains(u, accepts, k + 1);
      assert Notices(s.queue) == [n] + Notices(u.queue);
      Assoc(Durable(s.taken), [n], Notices(u.queue));
    }
  }

  /** One capture. The fields that only record history are ghost. */
  class CodexNotificationCapture {
    const bound: nat
    var queue: seq<Item>
    var worker: Worker
    var error: bool
    var puts: map<CallId, Put>
    var closer: Closer
    ghost var accepted: seq<Notice>
    ghost var taken: seq<Record>
    ghost var closed: Option<Outcome>
    ghost var late: bool
    ghost var cancelled: bool
    ghost var reused: bool

    constructor (maxPending: nat)
      ensures View() == Init(maxPending)
    {
      bound := Max(128, maxPending);
      queue, worker, error, puts, closer := [], NoWorker, false, map[], Open;
      accepted, taken, closed, late, cancelled, reused := [], [], None, false, false, false;
    }

    ghost function View(): State
      reads this
    {
      State(bound, queue, worker, error, puts, closer, accepted, taken, closed, late, cancelled, reused)
    }

    method StartWriter()
      modifies this
      ensures View() == Step(old(View()), Start)
    {
      if worker.NoWorker? {
        worker := Waiting;
        reused := reused || closed.Some?;
      }
    }

    /** `publish` up to its wait. False when it raises at once. */
    method PublishNotice(call: CallId, notice: Notice) returns (waiting: bool)
      requires Free(View(), call)
      modifies this
      ensures View() == Step(old(View()), Publish(call, notice))
      ensures waiting <==> call in puts
    {
      StartWriter();
      if error || worker.Finished? {
        return false;
      }
      late := late || closer != Open || closed.Some?;
      puts := puts[call := Put(Envelope(notice), false, false, false)];
      return true;
    }

    /** The put task of a call gets its turn. */
    method PutItem(call: CallId) returns (stored: bool)
      modifies this
      ensures View() == Step(old(View()), Enqueue(call))
      ensures stored <==> CanEnqueue(old(View()), call)
    {
      if call !in puts || puts[call].stored || |queue| >= bound {
        return false;
      }
      var put := puts[call];
      queue := queue + [put.item];
      accepted := accepted + (if put.item.Envelope? then [put.item.notice] else []);
      puts := if put.orphan then puts - {call} else puts[call := put.(stored := true)];
      return true;
    }

    /** The wait of a publisher is over. */
    method FinishPublish(call: CallId) returns (outcome: Outcome)
      requires CanFinish(View(), call) && closer != Putting(call)
      modifies this
      ensures View() == Step(old(View()), Finish(call)) && outcome == FinishOutcome(old(View()), call)
    {
      outcome := if puts[call].stored && !error then Returned else Raised;
      puts := puts - {call};
    }

    /** `_run`: write what is queued, in order, until the sentinel, an error of the store, or an empty queue. */
    method Run(storeAccepts: nat -> bool)
      modifies this
      ensures View() == Drained(old(View()), storeAccepts, 0)
    {
      var written := 0;
      ghost var s0 := View();
      while worker.Waiting? && queue != []
        invariant Drained(s0, storeAccepts, 0) == Drained(View(), storeAccepts, written)
        decreases |queue|
      {
        var item := queue[0];
        queue := queue[1..];
        if item.Sentinel? {
          worker := Finished(false);
        } else {
          taken := taken + [Record(item.notice, storeAccepts(written))];
          if storeAccepts(written) {
            written := written + 1;
          } else {
            error, worker := true, Finished(false);
          }
        }
      }
    }

    /** `close` up to its first wait. `landed`: what becomes of a write whose task is cancelled. */
    method BeginClose(call: CallId, landed: bool)
      requires closer.Open? && Free(View(), call)
      modifies this
      ensures View() == Step(old(View()), Close(call, landed))
    {
      late := late || puts != map[] || closed.Some?;
      if worker.NoWorker? {
        closed := Some(if error then Raised else Returned);
      } else if worker.Finished? {
        closer := Joining;
      } else if error {
        if worker.Writing? {
          taken := taken + [Record(worker.notice, landed)];
        }
        worker, cancelled, closer := Finished(true), true, Joining;
      } else {
        puts, closer := puts[call := Put(Sentinel, false, false, false)], Putting(call);
      }
    }

    /** The sentinel is in, or the writer is gone. */
    method SentinelDone(call: CallId)
      requires closer == Putting(call) && CanFinish(View(), call)
      modifies this
      ensures View() == Step(old(View()), Finish(call))
    {
      if !puts[call].stored && worker.cancelled && !error {
        closer, closed := Open, Some(Raised);
      } else {
        closer := Joining;
      }
      puts := puts - {call};
    }

    /** The writer has ended: forget it and report its error. */
    method EndClose() returns (outcome: Outcome)
      requires closer.Joining? && worker.Finished?
      modifies this
      ensures View() == Step(old(View()), Join) && closed == Some(outcome)
    {
      outcome := if error then Raised else Returned;
      worker, closer, closed := NoWorker, Open, Some(outcome);
      puts := map i | i in puts :: if puts[i].stored || puts[i].orphan then puts[i] else puts[i].(alone := true);
    }
  }
}
