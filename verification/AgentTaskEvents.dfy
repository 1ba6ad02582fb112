/** The bounded event log: exact for one writer, duplicate-free and lossless up to the cap for several. */
module AgentTaskEvents {
  import opened Common
  import opened AgentTasks
  import opened AgentTaskHistory

  // ----- Dedup is the order-preserving removal of repetitions -----

  /** The position of the first occurrence of `x`. */
  function FirstIndex<T(==)>(s: seq<T>, x: T): (i: nat)
    requires x in s
    ensures i < |s| && s[i] == x
    ensures forall j :: 0 <= j < i ==> s[j] != x
  {
    if s[0] == x then 0 else 1 + FirstIndex(s[1..], x)
  }

  lemma {:induction false} DedupKeepsElements<T>(s: seq<T>)
    ensures Distinct(Dedup(s))
    ensures forall x :: x in Dedup(s) <==> x in s
  {
    if s != [] {
      DedupKeepsElements(s[..|s| - 1]);
      assert s == s[..|s| - 1] + [s[|s| - 1]];
    }
  }

  /** The kept elements come in the order of their first occurrences. */
  lemma {:induction false} DedupKeepsOrder<T>(s: seq<T>, i: nat, j: nat)
    requires i < j < |Dedup(s)|
    ensures Dedup(s)[i] in s && Dedup(s)[j] in s
    ensures FirstIndex(s, Dedup(s)[i]) < FirstIndex(s, Dedup(s)[j])
  {
    var front, d := s[..|s| - 1], Dedup(s);
    assert s == front + [s[|s| - 1]];
    DedupKeepsElements(s);
    DedupKeepsElements(front);
    assert d[i] in d && d[j] in d;
    var f := Dedup(front);
    assert f <= d && |d| <= |f| + 1;
    assert d[i] == f[i] && f[i] in f;
    assert FirstIndex(front, d[i]) < |front|;
    if j < |f| {
      DedupKeepsOrder(front, i, j);
      SameFirstIndex(front, s, d[i]);
      SameFirstIndex(front, s, d[j]);
    } else {
      SameFirstIndex(front, s, d[i]);
    }
  }

  lemma SameFirstIndex<T>(front: seq<T>, s: seq<T>, x: T)
    requires front <= s && x in front
    ensures FirstIndex(front, x) == FirstIndex(s, x)
  {
    var a := FirstIndex(front, x);
    assert forall j :: 0 <= j <= a ==> front[j] == s[j];
  }

  lemma {:induction false} DedupOfDistinct<T>(s: seq<T>)
    requires Distinct(s)
    ensures Dedup(s) == s
  {
    if s != [] {
      var front := s[..|s| - 1];
      DedupOfDistinct(front);
      assert s == front + [s[|s| - 1]];
    }
  }

  /** Elements already present add nothing. */
  lemma {:induction false} DedupAbsorbs<T>(base: seq<T>, known: seq<T>)
    requires Distinct(base)
    requires forall x :: x in known ==> x in base
    ensures Dedup(base + known) == base
  {
    if known == [] {
      DedupOfDistinct(base);
      assert base + known == base;
    } else {
      var front := known[..|known| - 1];
      var all := base + known;
      DedupAbsorbs(base, front);
      assert all[..|all| - 1] == base + front;
      assert all[|all| - 1] == known[|known| - 1];
    }
  }

  lemma DedupAppendsNew<T>(base: seq<T>, known: seq<T>, x: T)
    requires Distinct(base) && x !in base
    requires forall y :: y in known ==> y in base
    ensures Dedup(base + (known + [x])) == base + [x]
  {
    DedupAbsorbs(base, known);
    var all := base + (known + [x]);
    assert all[..|all| - 1] == base + known;
  }

  // ----- one writer -----

  /** One worker emits events and nobody else saves the task: its snapshot and the table. */
  function EmitRun(t: Task, rows: Rows, es: seq<Event>): (Task, Rows) {
    if es == [] then (t, rows)
    else
      var (t1, rows1) := EmitRun(t, rows, es[..|es| - 1]);
      var t2 := Emitted(t1, es[|es| - 1]);
      (t2, SaveSpec(rows1, t2))
  }

  lemma PrepareIgnoresEvents(t: Task, e: Event)
    requires Prepare(t).Ok?
    ensures Prepare(Emitted(t, e)).Ok?
    ensures Prepare(Emitted(t, e)).value.id == Prepare(t).value.id
    ensures Prepare(Emitted(t, e)).value.events == Map(Normalize, Last(t.events + [e], MAX_EVENTS))
  {
    assert Last(Last(t.events + [e], MAX_EVENTS), MAX_EVENTS) == Last(t.events + [e], MAX_EVENTS);
  }

  /** Merging the log of one emit into the log of the emits before it. */
  lemma MergeOfNextEmit(before: seq<Event>, e: Event)
    requires Distinct(Map(Normalize, before + [e]))
    ensures var shown := Last(Map(Normalize, before), MAX_EVENTS);
            var next := Last(Map(Normalize, before + [e]), MAX_EVENTS);
            MergedEvents(shown, next) == next
  {
    var all := Map(Normalize, before);
    var shown, next := Last(all, MAX_EVENTS), Last(all + [Normalize(e)], MAX_EVENTS);
    assert Map(Normalize, before + [e]) == all + [Normalize(e)];
    var known := next[..|next| - 1];
    assert next == known + [Normalize(e)];
    NormalizedStays(shown + next, before + [e]);
    LastIsNew(all, Normalize(e));
    forall x | x in known ensures x in shown {}
    DedupAppendsNew(shown, known, Normalize(e));
    LastOfLast(all, Normalize(e), MAX_EVENTS);
  }

  lemma LastIsNew(all: seq<Event>, e: Event)
    requires Distinct(all + [e])
    ensures Distinct(all) && e !in all && e !in Last(all, MAX_EVENTS)
  {
    var full := all + [e];
    assert forall i :: 0 <= i < |all| ==> full[i] == all[i];
    assert full[|all|] == e;
  }

  lemma NormalizedStays(s: seq<Event>, source: seq<Event>)
    requires forall x :: x in s ==> x in Map(Normalize, source)
    ensures Map(Normalize, s) == s
  {
    forall i | 0 <= i < |s| ensures Normalize(s[i]) == s[i] {
      assert s[i] in s;
      var k :| 0 <= k < |source| && Map(Normalize, source)[k] == s[i];
    }
  }

  /** One writer whose events are pairwise distinct: the table always shows exactly the last 300 emitted. */
  lemma {:induction false} SingleWriterShowsLastEvents(t: Task, rows: Rows, es: seq<Event>)
    requires Prepare(t).Ok? && |t.events| <= MAX_EVENTS
    requires Distinct(Map(Normalize, t.events + es))
    requires Prepare(t).value.id in rows ==> rows[Prepare(t).value.id].events == Map(Normalize, t.events)
    ensures var (t1, rows1) := EmitRun(t, rows, es); var id := Prepare(t).value.id;
            && Prepare(t1).Ok? && Prepare(t1).value.id == id
            && t1.events == Last(t.events + es, MAX_EVENTS)
            && (es != [] || id in rows ==>
                  id in rows1 && rows1[id].events == Last(Map(Normalize, t.events + es), MAX_EVENTS))
            && (es == [] ==> rows1 == rows)
  {
    var id := Prepare(t).value.id;
    if es == [] {
      assert t.events + es == t.events;
    } else {
      var front, e := es[..|es| - 1], es[|es| - 1];
      var before := t.events + front;
      assert t.events + es == before + [e];
      MapOfConcat(Normalize, before, [e]);
      assert Distinct(Map(Normalize, before)) by {
        assert forall i :: 0 <= i < |before| ==> Map(Normalize, before)[i] == Map(Normalize, before + [e])[i];
      }
      SingleWriterShowsLastEvents(t, rows, front);
      var (t1, rows1) := EmitRun(t, rows, front);
      PrepareIgnoresEvents(t1, e);
      LastOfLast(before, e, MAX_EVENTS);
      MapOfLast(Normalize, before + [e], MAX_EVENTS);
      if id in rows1 {
        if front == [] {
          assert before == t.events;
          assert Last(Map(Normalize, before), MAX_EVENTS) == Map(Normalize, before);
        }
        MergeOfNextEmit(before, e);
      }
    }
  }

  // ----- several writers -----

  /** One merge gives a suffix of the ordered, duplicate-free concatenation, without repetitions and at most 300 long. */
  lemma MergeShape(row: Task, inc: Task)
    requires forall e :: e in row.events + inc.events ==> Normalize(e) == e
    ensures var kept := Dedup(row.events + inc.events); var log := Merge(row, inc).events;
            && |log| <= MAX_EVENTS && Distinct(log)
            && |log| <= |kept| && log == kept[|kept| - |log|..]
            && (|log| < MAX_EVENTS ==> log == kept)
            && (forall e :: e in log ==> e in row.events || e in inc.events)
  {
    var all := row.events + inc.events;
    assert Map(Normalize, all) == all by {
      forall i | 0 <= i < |all| ensures Normalize(all[i]) == all[i] {
        assert all[i] in all;
      }
    }
    DedupKeepsElements(all);
    var kept, log := Dedup(all), Merge(row, inc).events;
    assert log == Last(kept, MAX_EVENTS);
    forall e | e in log ensures e in row.events || e in inc.events {
      assert e in kept && e in all;
    }
  }

  function AllEvents(h: seq<Task>): set<Event> {
    set t, e | t in h && e in t.events :: e
  }

  /** What a log looks like when `all` is every event saved so far. */
  ghost predicate LogOf(log: seq<Event>, all: set<Event>) {
    && |log| <= MAX_EVENTS
    && (forall e :: e in log ==> e in all && Normalize(e) == e)
    && (|all| <= MAX_EVENTS ==> SetOf(log) == all)
  }

  lemma MergeKeepsLog(row: Task, inc: Task, before: set<Event>)
    requires LogOf(row.events, before) && Prepared(inc)
    ensures LogOf(Merge(row, inc).events, before + SetOf(inc.events)) && Distinct(Merge(row, inc).events)
  {
    forall e | e in row.events + inc.events ensures Normalize(e) == e {}
    MergeShape(row, inc);
    var all := before + SetOf(inc.events);
    if |all| <= MAX_EVENTS {
      MergeLosesNothing(row, inc, all, before);
    }
  }

  /** Over any run: normalised, at most 300, duplicate-free from the first merge on, and lossless up to 300 distinct events. */
  lemma {:induction false} StoredEvents(h: seq<Task>)
    requires AllPrepared(h)
    ensures LogOf(Stored(h).events, AllEvents(h))
    ensures |h| > 1 ==> Distinct(Stored(h).events)
  {
    if |h| == 1 {
      assert h[0] in h;
      assert AllEvents(h) == SetOf(h[0].events);
    } else {
      var front, inc := h[..|h| - 1], h[|h| - 1];
      assert h == front + [inc];
      FrontPrepared(h);
      StoredEvents(front);
      StoredOfMore(front, inc);
      AllEventsGrow(front, inc);
      MergeKeepsLog(Stored(front), inc, AllEvents(front));
    }
  }

  lemma AllEventsGrow(front: seq<Task>, inc: Task)
    ensures AllEvents(front + [inc]) == AllEvents(front) + SetOf(inc.events)
  {
    var h := front + [inc];
    forall e | e in AllEvents(front) + SetOf(inc.events) ensures e in AllEvents(h) {
      if e in AllEvents(front) {
        var t :| t in front && e in t.events;
        assert t in h;
      } else {
        assert inc in h;
      }
    }
  }

  lemma MergeLosesNothing(row: Task, inc: Task, all: set<Event>, before: set<Event>)
    requires forall e :: e in row.events + inc.events ==> Normalize(e) == e
    requires all == before + SetOf(inc.events) && |all| <= MAX_EVENTS
    requires |before| <= MAX_EVENTS ==> SetOf(row.events) == before
    ensures SetOf(Merge(row, inc).events) == all
  {
    assert |before| <= |all| by {
      SubsetSize(before, all);
    }
    var joined := row.events + inc.events;
    var kept := Dedup(joined);
    DedupKeepsElements(joined);
    MergeShape(row, inc);
    DistinctLength(kept, all);
    assert forall e :: e in kept <==> e in all;
  }

  lemma SubsetSize<T>(a: set<T>, b: set<T>)
    requires a <= b
    ensures |a| <= |b|
  {
    assert b == a + (b - a);
  }

  /** The same facts about the table itself, for any sequence of save calls. */
  lemma EventLogOfRun(calls: seq<Task>, id: string)
    requires id in Run(calls)
    ensures LogOf(Run(calls)[id].events, AllEvents(Accepted(calls, id)))
    ensures |Accepted(calls, id)| > 1 ==> Distinct(Run(calls)[id].events)
  {
    RunIsFoldOfAccepted(calls, id);
    AcceptedArePrepared(calls, id);
    StoredEvents(Accepted(calls, id));
  }
}
