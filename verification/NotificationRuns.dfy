/** What every run of the notification writer keeps: order, completeness, and who may be left waiting. */
module NotificationRuns {
  import opened Common
  import opened NotificationBus

  // ----- what holds in every run -----

  lemma {:induction false} AllDurableMeansAll(rs: seq<Record>)
    requires AllDurable(rs)
    ensures Durable(rs) == TakenNotices(rs)
  {
    if rs != [] {
      AllDurableMeansAll(rs[..|rs| - 1]);
    }
  }

  lemma {:induction false} DurableIsNoLonger(rs: seq<Record>)
    ensures |Durable(rs)| <= |rs|
    ensures |Durable(rs)| == |rs| ==> AllDurable(rs)
  {
    if rs != [] {
      DurableIsNoLonger(rs[..|rs| - 1]);
      assert forall i :: 0 <= i < |rs| - 1 ==> rs[..|rs| - 1][i] == rs[i];
    }
  }

  /** The positions, among the accepted notices, of those that became durable. */
  function WrittenAt(rs: seq<Record>): (r: seq<nat>)
    ensures |r| == |Durable(rs)|
  {
    if rs == [] then []
    else WrittenAt(rs[..|rs| - 1]) + (if rs[|rs| - 1].durable then [|rs| - 1] else [])
  }

  predicate Ascending(ns: seq<nat>, bound: nat) {
    && (forall k :: 0 <= k < |ns| ==> ns[k] < bound)
    && (forall k, l :: 0 <= k < l < |ns| ==> ns[k] < ns[l])
  }

  /** The written records have the values of the notices at their positions. */
  ghost predicate WrittenMatch(written: seq<Notice>, notices: seq<Notice>, at: seq<nat>) {
    && |written| == |at|
    && forall k :: 0 <= k < |at| ==> at[k] < |notices| && written[k] == notices[at[k]]
  }

  lemma OneMoreMatches(written: seq<Notice>, notices: seq<Notice>, at: seq<nat>, n: Notice)
    requires WrittenMatch(written, notices, at) && Ascending(at, |notices|)
    ensures WrittenMatch(written, notices + [n], at) && Ascending(at, |notices| + 1)
    ensures WrittenMatch(written + [n], notices + [n], at + [|notices|]) && Ascending(at + [|notices|], |notices| + 1)
  {}

  lemma {:induction false} WrittenInOrder(rs: seq<Record>)
    ensures Ascending(WrittenAt(rs), |rs|) && WrittenMatch(Durable(rs), TakenNotices(rs), WrittenAt(rs))
  {
    if rs != [] {
      var front, last := rs[..|rs| - 1], rs[|rs| - 1];
      WrittenInOrder(front);
      OneMoreMatches(Durable(front), TakenNotices(front), WrittenAt(front), last.notice);
      assert TakenNotices(rs) == TakenNotices(front) + [last.notice];
      assert WrittenAt(rs) == if last.durable then WrittenAt(front) + [|front|] else WrittenAt(front);
      assert Durable(rs) == if last.durable then Durable(front) + [last.notice] else Durable(front);
    }
  }

  /** The positions 0, 1, 2 and so on: nothing before the last one is missing. */
  predicate FirstOnes(ns: seq<nat>) {
    forall k :: 0 <= k < |ns| ==> ns[k] == k
  }

  /** Nothing was written after a notice that was lost. */
  predicate NoneAfterLost(rs: seq<Record>) {
    forall i, j :: 0 <= i < j < |rs| && !rs[i].durable ==> !rs[j].durable
  }

  lemma AppendedNoneAfterLost(rs: seq<Record>, r: Record)
    ensures NoneAfterLost(rs + [r]) <==> NoneAfterLost(rs) && (r.durable ==> AllDurable(rs))
  {
    var more := rs + [r];
    assert more[|rs|] == r && forall i :: 0 <= i < |rs| ==> more[i] == rs[i];
    if NoneAfterLost(rs) && (r.durable ==> AllDurable(rs)) {
      forall i, j | 0 <= i < j < |more| && !more[i].durable ensures !more[j].durable {
        assert j < |rs| ==> more[j] == rs[j];
      }
    }
  }

  lemma AppendedFirstOnes(ns: seq<nat>, n: nat)
    ensures FirstOnes(ns + [n]) <==> FirstOnes(ns) && n == |ns|
  {
    var more := ns + [n];
    assert more[|ns|] == n && forall k :: 0 <= k < |ns| ==> more[k] == ns[k];
  }

  lemma AppendedAllDurable(rs: seq<Record>, r: Record)
    ensures AllDurable(rs + [r]) <==> AllDurable(rs) && r.durable
  {
    var more := rs + [r];
    assert more[|rs|] == r && forall i :: 0 <= i < |rs| ==> more[i] == rs[i];
  }

  lemma {:induction false} FirstOnesExactly(rs: seq<Record>)
    ensures FirstOnes(WrittenAt(rs)) <==> NoneAfterLost(rs)
    ensures |WrittenAt(rs)| <= |rs|
    ensures |WrittenAt(rs)| == |rs| <==> AllDurable(rs)
  {
    if rs != [] {
      var front, last := rs[..|rs| - 1], rs[|rs| - 1];
      assert rs == front + [last];
      FirstOnesExactly(front);
      AppendedNoneAfterLost(front, last);
      AppendedAllDurable(front, last);
      AppendedFirstOnes(WrittenAt(front), |front|);
      assert WrittenAt(rs) == if last.durable then WrittenAt(front) + [|front|] else WrittenAt(front);
    }
  }

  /** A log without a loss in the middle is a prefix. */
  lemma {:induction false} FirstOnesIsPrefix(rs: seq<Record>)
    requires NoneAfterLost(rs)
    ensures Durable(rs) <= TakenNotices(rs)
  {
    WrittenInOrder(rs);
    FirstOnesExactly(rs);
    assert forall k :: 0 <= k < |Durable(rs)| ==> Durable(rs)[k] == TakenNotices(rs)[k];
  }

  /**
   In every run the queue stays within its bound and the event log holds accepted notices in the order they were
   accepted. It is a prefix of them, position by position, if and only if no notice was written after one that was lost.
   */
  lemma DurableIsPrefixExactly(maxPending: nat, cs: seq<Choice>)
    ensures var s := Exec(Init(maxPending), cs);
            && |s.queue| <= Max(128, maxPending)
            && Ascending(WrittenAt(s.taken), |s.accepted|)
            && WrittenMatch(Durable(s.taken), s.accepted, WrittenAt(s.taken))
            && (FirstOnes(WrittenAt(s.taken)) <==> NoneAfterLost(s.taken))
            && (NoneAfterLost(s.taken) ==> Durable(s.taken) <= s.accepted)
            && (!s.reused ==> NoneAfterLost(s.taken))
  {
    var s := Exec(Init(maxPending), cs);
    InvAlways(maxPending, cs);
    WrittenInOrder(s.taken);
    FirstOnesExactly(s.taken);
    if NoneAfterLost(s.taken) {
      FirstOnesIsPrefix(s.taken);
    }
    assert forall i :: 0 <= i < |s.taken| ==> s.accepted[i] == TakenNotices(s.taken)[i];
  }

  /** A write that ends well: by itself, or although its task is cancelled, which a `close` after an error does as well. */
  predicate Lands(s: State, c: Choice) {
    && s.worker.Writing?
    && (c == Write(true) || c == CancelWorker(true)
        || (c.Close? && c.landed && s.error && s.closer.Open? && Free(s, c.call)))
  }

  /** A step adds one record at most, and a durable one only by a write that ends well. */
  lemma StepTakes(s: State, c: Choice)
    ensures var t := Step(s, c);
            if t.taken == s.taken then !Lands(s, c)
            else s.worker.Writing? && t.taken == s.taken + [Record(s.worker.notice, Lands(s, c))]
  {
    if s.worker.Writing? {
      var more := s.taken + [Record(s.worker.notice, Lands(s, c))];
      assert |more| == |s.taken| + 1;
      assert Step(s, c).taken == s.taken || Step(s, c).taken == more;
    }
  }

  /** The step that breaks the prefix is a write that ends well although an earlier notice was lost, and only that. */
  lemma PrefixBreaksExactly(s: State, c: Choice)
    requires NoneAfterLost(s.taken)
    ensures !NoneAfterLost(Step(s, c).taken) <==> Lands(s, c) && !AllDurable(s.taken)
  {
    StepTakes(s, c);
    if Step(s, c).taken != s.taken {
      AppendedNoneAfterLost(s.taken, Record(s.worker.notice, Lands(s, c)));
    }
  }

  /** It happens: a writer that is started after a failed `close` goes on with what was left in the queue. */
  lemma RestartedWriterSkipsLostNotice()
    ensures var s := Exec(Init(0), AfterFailedClose() + [Start] + [Get] + [Write(true)]);
            && s.accepted == [7, 8] && Durable(s.taken) == [8]
            && !(Durable(s.taken) <= s.accepted) && !NoneAfterLost(s.taken)
  {
    var cs := AfterFailedClose();
    FailedCloseState();
    OneMore(Init(0), cs, Start);
    OneMore(Init(0), cs + [Start], Get);
    OneMore(Init(0), cs + [Start] + [Get], Write(true));
    var s := Exec(Init(0), cs + [Start] + [Get] + [Write(true)]);
    assert s.taken == [Record(7, false), Record(8, true)] && !s.taken[0].durable && s.taken[1].durable;
    assert s.taken[..1] == [Record(7, false)] && s.taken[..1][..0] == [];
    assert Durable(s.taken)[0] == 8;
  }

  function Published(call: CallId, n: Notice): seq<Choice> {
    [Publish(call, n), Enqueue(call), Finish(call)]
  }

  /** One publisher that finds room. */
  lemma PublishedState(s: State, call: CallId, n: Notice)
    requires Free(s, call) && !s.error && !s.worker.Finished? && |s.queue| < s.bound
    requires s.closer.Open? && s.closed.None?
    ensures Exec(s, Published(call, n))
         == s.(worker := if s.worker.NoWorker? then Waiting else s.worker,
               queue := s.queue + [Envelope(n)], accepted := s.accepted + [n])
  {
    OneMore(s, [], Publish(call, n));
    OneMore(s, [] + [Publish(call, n)], Enqueue(call));
    OneMore(s, [] + [Publish(call, n)] + [Enqueue(call)], Finish(call));
    assert [] + [Publish(call, n)] + [Enqueue(call)] + [Finish(call)] == Published(call, n);
    PublisherSteps(s, call, n);
  }

  lemma PublisherSteps(s: State, call: CallId, n: Notice)
    requires Free(s, call) && !s.error && !s.worker.Finished? && |s.queue| < s.bound
    requires s.closer.Open? && s.closed.None?
    ensures Step(Step(Step(s, Publish(call, n)), Enqueue(call)), Finish(call))
         == s.(worker := if s.worker.NoWorker? then Waiting else s.worker,
               queue := s.queue + [Envelope(n)], accepted := s.accepted + [n])
  {
    var s1 := Step(s, Publish(call, n));
    assert s1 == s.(worker := if s.worker.NoWorker? then Waiting else s.worker,
                    puts := s.puts[call := Put(Envelope(n), false, false, false)]);
    PutAndReturned(s1, call, n);
    assert s.puts[call := Put(Envelope(n), false, false, false)] - {call} == s.puts;
  }

  lemma PutAndReturned(s: State, call: CallId, n: Notice)
    requires call in s.puts && s.puts[call] == Put(Envelope(n), false, false, false) && |s.queue| < s.bound
    requires s.closer.Open?
    ensures Step(Step(s, Enqueue(call)), Finish(call))
         == s.(queue := s.queue + [Envelope(n)], accepted := s.accepted + [n], puts := s.puts - {call})
  {
    var t := Step(s, Enqueue(call));
    assert t.puts == s.puts[call := Put(Envelope(n), true, false, false)];
    assert t.puts - {call} == s.puts - {call};
  }

  function AfterFailedClose(): seq<Choice> {
    Published(0, 7) + Published(0, 8) + [Get] + [Write(false)] + [Close(1, false)] + [Join]
  }

  lemma TwoPublishedState()
    ensures Exec(Init(0), Published(0, 7) + Published(0, 8))
         == State(128, [Envelope(7), Envelope(8)], Waiting, false, map[], Open, [7, 8], [], None, false, false, false)
  {
    PublishedState(Init(0), 0, 7);
    RunAfter(Init(0), Published(0, 7), Published(0, 8));
    PublishedState(Exec(Init(0), Published(0, 7)), 0, 8);
  }

  lemma FailedCloseState()
    ensures Exec(Init(0), AfterFailedClose())
         == State(128, [Envelope(8)], NoWorker, true, map[], Open, [7, 8], [Record(7, false)], Some(Raised), false, false, false)
  {
    var c1 := Published(0, 7) + Published(0, 8);
    TwoPublishedState();
    OneMore(Init(0), c1, Get);
    OneMore(Init(0), c1 + [Get], Write(false));
    OneMore(Init(0), c1 + [Get] + [Write(false)], Close(1, false));
    OneMore(Init(0), c1 + [Get] + [Write(false)] + [Close(1, false)], Join);
    assert LeftAlone(map[]) == map[];
  }

  predicate Complete(s: State) {
    Durable(s.taken) == s.accepted
  }

  predicate NothingLeft(s: State) {
    Notices(s.queue) == [] && InFlight(s) == [] && AllDurable(s.taken)
  }

  lemma CompleteMeansNothingLeft(s: State)
    requires Conserved(s)
    ensures Complete(s) <==> NothingLeft(s)
  {
    DurableIsNoLonger(s.taken);
    if AllDurable(s.taken) {
      AllDurableMeansAll(s.taken);
    }
  }

  /** In every run, the event log is complete exactly when nothing waits, nothing is being written and nothing failed. */
  lemma CompleteExactly(maxPending: nat, cs: seq<Choice>)
    ensures var s := Exec(Init(maxPending), cs);
            Complete(s) <==> NothingLeft(s)
  {
    InvAlways(maxPending, cs);
    CompleteMeansNothingLeft(Exec(Init(maxPending), cs));
  }

  /** If all publishers finish first and the writer is not cancelled, a `close` that returns normally has lost nothing. */
  lemma NormalCloseIsComplete(maxPending: nat, cs: seq<Choice>)
    ensures var s := Exec(Init(maxPending), cs);
            Regular(s) && s.closed == Some(Returned) ==> Complete(s)
  {
    InvAlways(maxPending, cs);
    CompleteExactly(maxPending, cs);
  }

  /**
   A `close` that is cancelled while it awaits the writer cancels the writer, swallows that, and returns normally. It
   has lost nothing exactly when at most one notice was unwritten and that one landed all the same.
   */
  lemma CancelledCloseIsCompleteExactly(maxPending: nat, cs: seq<Choice>, s: State, landed: bool)
    requires s == Exec(Init(maxPending), cs)
    requires Regular(s) && s.closer.Joining? && !s.worker.Finished? && !s.error
    ensures var t := Exec(Init(maxPending), cs + [CancelWorker(landed)] + [Join]);
            && t.closed == Some(Returned)
            && (Complete(t) <==> Notices(s.queue) == [] && (s.worker.Writing? ==> landed))
  {
    InvAlways(maxPending, cs);
    OneMore(Init(maxPending), cs, CancelWorker(landed));
    OneMore(Init(maxPending), cs + [CancelWorker(landed)], Join);
    CancelledJoin(s, landed);
  }

  lemma CancelledJoin(s: State, landed: bool)
    requires Inv(s) && Regular(s) && s.closer.Joining? && !s.worker.Finished? && !s.error
    ensures var m := StepCancelWorker(s, landed);
            && m.worker.Finished?
            && StepJoin(m).closed == Some(Returned)
            && (Complete(StepJoin(m)) <==> Notices(s.queue) == [] && (s.worker.Writing? ==> landed))
  {
    if s.worker.Writing? {
      CancelledWhileWriting(s, landed);
    } else {
      CancelledWhileWaiting(s, landed);
    }
  }

  lemma CancelledWhileWaiting(s: State, landed: bool)
    requires Conserved(s) && AllDurable(s.taken) && s.worker.Waiting? && s.closer.Joining? && !s.error
    ensures var t := StepJoin(StepCancelWorker(s, landed));
            t.closed == Some(Returned) && (Complete(t) <==> Notices(s.queue) == [])
  {
    var t := StepJoin(StepCancelWorker(s, landed));
    assert SameBooks(s, t);
    CompleteMeansNothingLeft(t);
  }

  lemma CancelledWhileWriting(s: State, landed: bool)
    requires Conserved(s) && AllDurable(s.taken) && s.worker.Writing? && s.closer.Joining? && !s.error
    ensures var t := StepJoin(StepCancelWorker(s, landed));
            t.closed == Some(Returned) && (Complete(t) <==> Notices(s.queue) == [] && landed)
  {
    var m := StepCancelWorker(s, landed);
    var t := StepJoin(m);
    TakenConserves(s, landed);
    assert SameBooks(m, t);
    CompleteMeansNothingLeft(t);
    AppendedIsDurable(s.taken, Record(s.worker.notice, landed));
  }

  lemma AppendedIsDurable(rs: seq<Record>, r: Record)
    requires AllDurable(rs)
    ensures AllDurable(rs + [r]) <==> r.durable
  {
    assert (rs + [r])[|rs|] == r;
  }

  /** Only the writer and the `close` move. */
  predicate WriterAndJoin(cs: seq<Choice>) {
    forall i :: 0 <= i < |cs| ==> cs[i].Get? || cs[i].Write? || cs[i].Join?
  }

  /**
   Left alone with a store that accepts everything, a `close` that joins does complete: from any reachable state of a
   regular run the writer drains the queue, and the `close` returns with every accepted notice written.
   */
  lemma JoiningCloseCompletes(maxPending: nat, cs: seq<Choice>, s: State) returns (later: seq<Choice>)
    requires s == Exec(Init(maxPending), cs)
    requires Regular(s) && s.closer.Joining? && !s.error
    ensures WriterAndJoin(later)
    ensures var t := Exec(Init(maxPending), cs + later); t.closed == Some(Returned) && t.queue == [] && Complete(t)
  {
    InvAlways(maxPending, cs);
    if s.worker.Finished? {
      later := [Join];
      OneMore(Init(maxPending), cs, Join);
      JoinedIsComplete(s);
    } else if s.worker.Waiting? {
      later := DrainAndJoin(maxPending, cs, s);
    } else {
      var u := Step(s, Write(true));
      OneMore(Init(maxPending), cs, Write(true));
      InvAlways(maxPending, cs + [Write(true)]);
      var rest := DrainAndJoin(maxPending, cs + [Write(true)], u);
      later := [Write(true)] + rest;
      Assoc(cs, [Write(true)], rest);
    }
  }

  lemma JoinedIsComplete(s: State)
    requires Inv(s) && Regular(s) && s.closer.Joining? && s.worker.Finished? && !s.error
    ensures var t := Step(s, Join); t.closed == Some(Returned) && t.queue == [] && Complete(t)
  {
    assert SameBooks(s, Step(s, Join));
    CompleteMeansNothingLeft(Step(s, Join));
  }

  lemma DrainAndJoin(maxPending: nat, cs: seq<Choice>, s: State) returns (later: seq<Choice>)
    requires s == Exec(Init(maxPending), cs) && Inv(s)
    requires Regular(s) && s.closer.Joining? && !s.error && s.worker.Waiting?
    ensures WriterAndJoin(later)
    ensures var t := Exec(Init(maxPending), cs + later); t.closed == Some(Returned) && t.queue == [] && Complete(t)
  {
    var accepts := (k: nat) => true;
    SealedQueueDrains(s, accepts, 0);
    var drain := DrainedIsRun(s, accepts, 0);
    WriterLeavesCalls(s, drain);
    RunAfter(Init(maxPending), cs, drain);
    InvAlways(maxPending, cs + drain);
    OneMore(Init(maxPending), cs + drain, Join);
    JoinedIsComplete(Exec(s, drain));
    later := drain + [Join];
    Assoc(cs, drain, [Join]);
  }

  lemma {:induction false} WriterLeavesCalls(s: State, cs: seq<Choice>)
    requires forall c :: c in cs ==> c.Get? || c.Write?
    ensures var t := Exec(s, cs); t.closer == s.closer && (Regular(t) <==> Regular(s))
  {
    if cs != [] {
      assert forall c :: c in cs[..|cs| - 1] ==> c in cs;
      WriterLeavesCalls(s, cs[..|cs| - 1]);
      assert cs[|cs| - 1] in cs;
    }
  }

  function OnePublished(): seq<Choice> {
    Published(0, 7)
  }

  lemma AfterOnePublished()
    ensures Exec(Init(0), OnePublished())
         == State(128, [Envelope(7)], Waiting, false, map[], Open, [7], [], None, false, false, false)
  {
    PublishedState(Init(0), 0, 7);
  }

  /** Such a `close` does lose notices. */
  lemma CancelledCloseCanLose()
    ensures var cs := OnePublished() + [Close(1, false)] + [Enqueue(1)] + [Finish(1)] + [CancelWorker(false)] + [Join];
            var s := Exec(Init(0), cs);
            Regular(s.(cancelled := false)) && s.closed == Some(Returned) && s.accepted == [7] && Durable(s.taken) == []
  {
    var cs := OnePublished() + [Close(1, false)] + [Enqueue(1)] + [Finish(1)];
    AfterSentinel();
    OneMore(Init(0), cs, CancelWorker(false));
    OneMore(Init(0), cs + [CancelWorker(false)], Join);
  }

  lemma AfterSentinel()
    ensures Exec(Init(0), OnePublished() + [Close(1, false)] + [Enqueue(1)] + [Finish(1)])
         == State(128, [Envelope(7), Sentinel], Waiting, false, map[], Joining, [7], [], None, false, false, false)
  {
    var cs := OnePublished();
    AfterOnePublished();
    OneMore(Init(0), cs, Close(1, false));
    OneMore(Init(0), cs + [Close(1, false)], Enqueue(1));
    OneMore(Init(0), cs + [Close(1, false)] + [Enqueue(1)], Finish(1));
  }

  // ----- nobody is stranded -----

  predicate WorkerCanStep(s: State) {
    CanGet(s) || s.worker.Writing?
  }

  /** The caller waits on a full queue that nobody empties: there is no writer, or only one it does not watch, and that has ended. */
  predicate Stranded(s: State, call: CallId) {
    && Live(s, call) && !s.puts[call].stored && |s.queue| >= s.bound
    && (s.worker.NoWorker? || (s.worker.Finished? && s.puts[call].alone))
  }

  /** In every run a waiting caller can finish, or put its item in, or waits for a writer that can step, unless it is stranded. */
  lemma ProducerIsStrandedExactly(maxPending: nat, cs: seq<Choice>, call: CallId)
    requires Live(Exec(Init(maxPending), cs), call)
    ensures var s := Exec(Init(maxPending), cs);
            CanFinish(s, call) || CanEnqueue(s, call) || WorkerCanStep(s) <==> !Stranded(s, call)
  {
    InvAlways(maxPending, cs);
    OverlapAlways(maxPending, cs);
  }

  /** What a caller that overlaps a `close` may see. */
  predicate Overlap(s: State) {
    && (s.closer.Putting? ==> s.late || s.puts.Keys == {s.closer.call})
    && (s.closer.Joining? ==> s.late || s.puts == map[])
    && (forall call :: call in s.puts && !s.puts[call].stored && !s.puts[call].orphan && s.worker.NoWorker? ==> s.puts[call].alone)
    && (forall call :: call in s.puts && s.puts[call].alone ==> s.late)
  }

  lemma CallKeepsOverlap(s: State, c: Choice)
    requires Overlap(s) && Joinable(s)
    requires c.Start? || c.Publish? || c.Enqueue? || c.Finish? || c.CancelCall?
    ensures Overlap(Step(s, c))
  {}

  lemma WriterKeepsOverlap(s: State, c: Choice)
    requires Overlap(s)
    requires c.Get? || c.Write? || c.CancelWorker? || c.Close? || c.Join?
    ensures Overlap(Step(s, c))
  {}

  lemma {:induction false} OverlapAlways(maxPending: nat, cs: seq<Choice>)
    ensures Overlap(Exec(Init(maxPending), cs))
  {
    if cs != [] {
      var s, c := Exec(Init(maxPending), cs[..|cs| - 1]), cs[|cs| - 1];
      OverlapAlways(maxPending, cs[..|cs| - 1]);
      InvAlways(maxPending, cs[..|cs| - 1]);
      if c.Start? || c.Publish? || c.Enqueue? || c.Finish? || c.CancelCall? {
        CallKeepsOverlap(s, c);
      } else {
        WriterKeepsOverlap(s, c);
      }
    }
  }

  /** Only a caller that overlaps a `close` can be stranded: if all publishers finish before `close`, none ever is. */
  lemma StrandedOnlyByClose(maxPending: nat, cs: seq<Choice>, call: CallId)
    ensures var s := Exec(Init(maxPending), cs);
            Stranded(s, call) ==> s.late && s.puts[call].alone
  {
    OverlapAlways(maxPending, cs);
  }

  /** `n` publishers, one after the other. */
  function Filled(n: nat): seq<Choice> {
    if n == 0 then [] else Filled(n - 1) + Published(0, 7)
  }

  function Envelopes(n: nat): seq<Item> {
    if n == 0 then [] else Envelopes(n - 1) + [Envelope(7)]
  }

  lemma {:induction false} FilledState(n: nat)
    requires n <= 128
    ensures var s := Exec(Init(0), Filled(n));
            && s == State(128, Envelopes(n), if n == 0 then NoWorker else Waiting, false, map[], Open, s.accepted, [], None,
                          false, false, false)
            && |Envelopes(n)| == n
  {
    if n > 0 {
      FilledState(n - 1);
      RunAfter(Init(0), Filled(n - 1), Published(0, 7));
      PublishedState(Exec(Init(0), Filled(n - 1)), 0, 7);
    }
  }

  /** A `close` that joins, and a publisher that waits on the full queue. */
  function OverlappingClose(): seq<Choice> {
    Filled(128) + [Get] + [Close(2, false)] + [Enqueue(2)] + [Finish(2)] + [Publish(1, 9)]
  }

  lemma OverlappingCloseState()
    ensures var s := Exec(Init(0), OverlappingClose());
            && |s.queue| == 128 && s.bound == 128 && s.worker.Writing? && !s.error && s.closer.Joining?
            && s.puts == map[1 := Put(Envelope(9), false, false, false)]
  {
    var cs := Filled(128) + [Get];
    WritingOnFullQueue();
    var s := Exec(Init(0), cs);
    ClosingSteps(s);
    OneMore(Init(0), cs, Close(2, false));
    OneMore(Init(0), cs + [Close(2, false)], Enqueue(2));
    OneMore(Init(0), cs + [Close(2, false)] + [Enqueue(2)], Finish(2));
    OneMore(Init(0), cs + [Close(2, false)] + [Enqueue(2)] + [Finish(2)], Publish(1, 9));
  }

  lemma WritingOnFullQueue()
    ensures var s := Exec(Init(0), Filled(128) + [Get]);
            && |s.queue| == 127 && s.bound == 128 && s.worker.Writing? && !s.error && s.closer.Open? && s.puts == map[]
  {
    FilledState(128);
    EnvelopesAreEnvelopes(128);
    OneMore(Init(0), Filled(128), Get);
  }

  /** `close` fills the last place with its sentinel, and a publisher comes after it. */
  lemma ClosingSteps(s: State)
    requires |s.queue| == 127 && s.bound == 128 && s.worker.Writing? && !s.error && s.closer.Open? && s.puts == map[]
    ensures var t := Step(Step(Step(Step(s, Close(2, false)), Enqueue(2)), Finish(2)), Publish(1, 9));
            && |t.queue| == 128 && t.bound == 128 && t.worker.Writing? && !t.error && t.closer.Joining?
            && t.puts == map[1 := Put(Envelope(9), false, false, false)]
  {
    var s1 := Step(s, Close(2, false));
    assert s1.closer == Putting(2) && s1.puts == map[2 := Put(Sentinel, false, false, false)];
    var s2 := Step(s1, Enqueue(2));
    assert |s2.queue| == 128 && s2.puts == map[2 := Put(Sentinel, true, false, false)];
    var s3 := Step(s2, Finish(2));
    assert s3.closer.Joining? && s3.puts == map[];
  }

  lemma {:induction false} EnvelopesAreEnvelopes(n: nat)
    ensures forall i :: 0 <= i < |Envelopes(n)| ==> Envelopes(n)[i].Envelope?
  {
    if n > 0 {
      EnvelopesAreEnvelopes(n - 1);
    }
  }

  /** A failed write and the `close` that reports it leave such a publisher waiting for good. */
  lemma WriterFailureCanStrandProducer()
    ensures var s := Exec(Init(0), OverlappingClose() + [Write(false)] + [Join]);
            && Stranded(s, 1) && s.closed == Some(Raised)
            && !CanFinish(s, 1) && !CanEnqueue(s, 1) && !WorkerCanStep(s)
  {
    OverlappingCloseState();
    FailureStrands(Exec(Init(0), OverlappingClose()));
    OneMore(Init(0), OverlappingClose(), Write(false));
    OneMore(Init(0), OverlappingClose() + [Write(false)], Join);
  }

  lemma FailureStrands(s: State)
    requires |s.queue| == 128 && s.bound == 128 && s.worker.Writing? && !s.error && s.closer.Joining?
    requires s.puts == map[1 := Put(Envelope(9), false, false, false)]
    ensures var t := Step(Step(s, Write(false)), Join);
            Stranded(t, 1) && t.closed == Some(Raised) && !CanFinish(t, 1) && !CanEnqueue(t, 1) && !WorkerCanStep(t)
  {
    assert LeftAlone(s.puts) == map[1 := Put(Envelope(9), false, false, true)];
  }

  /** So can a `close`: it can join, or its put can go on, or the writer can step. */
  lemma CloseIsNotStranded(maxPending: nat, cs: seq<Choice>)
    requires !Exec(Init(maxPending), cs).closer.Open?
    ensures var s := Exec(Init(maxPending), cs);
            || (s.closer.Joining? && s.worker.Finished?)
            || (s.closer.Putting? && (CanFinish(s, s.closer.call) || CanEnqueue(s, s.closer.call)))
            || WorkerCanStep(s)
  {
    InvAlways(maxPending, cs);
  }

  // ----- what callers are told -----

  /** The store refused a write of this run. */
  ghost predicate WriteFailed(maxPending: nat, cs: seq<Choice>) {
    exists i :: 0 <= i < |cs| && cs[i] == Write(false) && Exec(Init(maxPending), cs[..i]).worker.Writing?
  }

  lemma FailedMore(maxPending: nat, cs: seq<Choice>)
    requires cs != []
    ensures var front, c := cs[..|cs| - 1], cs[|cs| - 1];
            WriteFailed(maxPending, cs) <==>
              WriteFailed(maxPending, front) || (c == Write(false) && Exec(Init(maxPending), front).worker.Writing?)
  {
    var front := cs[..|cs| - 1];
    assert forall i :: 0 <= i < |front| ==> front[..i] == cs[..i];
  }

  predicate OfCalls(c: Choice) {
    c.Start? || c.Publish? || c.Enqueue? || c.Finish? || c.CancelCall?
  }

  lemma CallsRaiseNoError(s: State, c: Choice)
    requires OfCalls(c)
    ensures Step(s, c).error == s.error
  {}

  lemma ErrorStep(s: State, c: Choice)
    ensures Step(s, c).error <==> s.error || (c == Write(false) && s.worker.Writing?)
  {
    if OfCalls(c) {
      CallsRaiseNoError(s, c);
    }
  }

  lemma {:induction false} ErrorIsFailedWrite(maxPending: nat, cs: seq<Choice>)
    ensures Exec(Init(maxPending), cs).error <==> WriteFailed(maxPending, cs)
  {
    if cs != [] {
      ErrorIsFailedWrite(maxPending, cs[..|cs| - 1]);
      FailedMore(maxPending, cs);
      ErrorStep(Exec(Init(maxPending), cs[..|cs| - 1]), cs[|cs| - 1]);
    }
  }

  predicate StoredIsAccepted(s: State) {
    forall call :: call in s.puts && s.puts[call].stored && s.puts[call].item.Envelope? ==>
      s.puts[call].item.notice in s.accepted
  }

  lemma CallsKeepStored(s: State, c: Choice)
    requires StoredIsAccepted(s) && OfCalls(c)
    ensures StoredIsAccepted(Step(s, c))
  {}

  lemma StepKeepsStored(s: State, c: Choice)
    requires StoredIsAccepted(s)
    ensures StoredIsAccepted(Step(s, c))
  {
    if OfCalls(c) {
      CallsKeepStored(s, c);
    }
  }

  lemma {:induction false} StoredAlways(maxPending: nat, cs: seq<Choice>)
    ensures StoredIsAccepted(Exec(Init(maxPending), cs))
  {
    if cs != [] {
      StoredAlways(maxPending, cs[..|cs| - 1]);
      StepKeepsStored(Exec(Init(maxPending), cs[..|cs| - 1]), cs[|cs| - 1]);
    }
  }

  /**
   In every run, a publisher whose wait is over is told that all is well exactly when its notice is in and the store has
   refused no write so far; a notice it is told so about was accepted. A `close` whose writer has ended says the same.
   */
  lemma CallersAreToldExactly(maxPending: nat, cs: seq<Choice>, s: State, call: CallId)
    requires s == Exec(Init(maxPending), cs)
    ensures CanFinish(s, call) ==>
              && (FinishOutcome(s, call) == Returned <==> s.puts[call].stored && !WriteFailed(maxPending, cs))
              && (FinishOutcome(s, call) == Returned && s.puts[call].item.Envelope? ==> s.puts[call].item.notice in s.accepted)
    ensures s.closer.Joining? && s.worker.Finished? ==>
              && Step(s, Join).closed == Some(if WriteFailed(maxPending, cs) then Raised else Returned)
              && Step(s, Join).worker.NoWorker?
  {
    ErrorIsFailedWrite(maxPending, cs);
    StoredAlways(maxPending, cs);
  }

  /** A publisher begins to wait exactly when no write was refused and the writer has not ended. */
  lemma PublishIsRefusedExactly(maxPending: nat, cs: seq<Choice>, s: State, call: CallId, n: Notice)
    requires s == Exec(Init(maxPending), cs) && Free(s, call)
    ensures var t := Step(s, Publish(call, n));
            if WriteFailed(maxPending, cs) || s.worker.Finished? then t.puts == s.puts
            else call in t.puts && t.puts[call].item == Envelope(n) && !t.puts[call].stored
  {
    ErrorIsFailedWrite(maxPending, cs);
  }
}
