/** Whole-run properties of the notification store: the delta text of every item, and cursor paging. */
module ItemStoreRuns {
  import opened Common
  import opened Utf8
  import opened ItemStore

  function Run(lim: Limits, ms: seq<Notice>): Db {
    if ms == [] then Db([], map[])
    else RecordSpec(lim, Run(lim, ms[..|ms| - 1]), ms[|ms| - 1])
  }

  /** The delta text a notification carries for item `k`. */
  function DeltaFor(m: Notice, k: Key): string {
    if KeyOf(m) == k && Addressed(k) then DeltaOf(m) else ""
  }

  /** The true stream of item `k`: the exact concatenation of all its deltas. */
  function Stream(ms: seq<Notice>, k: Key): string {
    Flat((m: Notice) => DeltaFor(m, k), ms)
  }

  function TextOf(items: Items, k: Key): string {
    if k in items then items[k].delta else ""
  }

  /** One notification changes the text of an item by its own delta only; item and turn notifications leave it alone. */
  lemma StepText(lim: Limits, db: Db, m: Notice, k: Key)
    ensures TextOf(RecordSpec(lim, db, m).items, k) == AppendDelta(lim, TextOf(db.items, k), DeltaFor(m, k))
  {
    var n, key := NextSeq(db.events), KeyOf(m);
    if m.kind.Delta? {
      if key != k && DeltaOf(m) != "" && Addressed(key) {
        assert TextOf(WithDelta(lim, db.items, key, m.task, DeltaOf(m), n), k) == TextOf(db.items, k);
      }
    } else {
      assert DeltaOf(m) == "";
      ItemAndTurnNoticesKeepText(lim, db.items, m, n, k);
    }
  }

  lemma ItemAndTurnNoticesKeepText(lim: Limits, items: Items, m: Notice, n: nat, k: Key)
    requires !m.kind.Delta?
    ensures TextOf(ItemsAfter(lim, items, m, n), k) == TextOf(items, k)
  {}

  /**
   For any run of notifications, of any items in any interleaving: the stored text of an item is the exact
   concatenation of its deltas while that fits the limit, and contains its aligned prefix ever after.
   */
  lemma {:induction false} TextRepresentsNotices(lim: Limits, ms: seq<Notice>, k: Key)
    requires lim.Valid()
    ensures Represents(lim, TextOf(Run(lim, ms).items, k), Stream(ms, k))
  {
    if ms != [] {
      var front, m := ms[..|ms| - 1], ms[|ms| - 1];
      TextRepresentsNotices(lim, front, k);
      StepText(lim, Run(lim, front), m, k);
      AppendRepresents(lim, TextOf(Run(lim, front).items, k), Stream(front, k), DeltaFor(m, k));
    }
  }

  /** After the first overflow the same prefix, at most three bytes short of the budget, is in the text for good. */
  lemma OverflowOfNotices(lim: Limits, ms: seq<Notice>, more: seq<Notice>, k: Key)
    requires lim.Valid() && ByteLen(Stream(ms, k)) > lim.maxDelta
    ensures AlignedPrefix(Stream(ms, k), lim.Budget()) <= Stream(ms, k)
    ensures lim.Budget() - 3 <= ByteLen(AlignedPrefix(Stream(ms, k), lim.Budget())) <= lim.Budget()
    ensures AlignedPrefix(Stream(ms, k), lim.Budget()) <= TextOf(Run(lim, ms + more).items, k)
    ensures ByteLen(TextOf(Run(lim, ms + more).items, k)) <= lim.maxDelta
  {
    FlatOfConcat((m: Notice) => DeltaFor(m, k), ms, more);
    OverflowKeepsBudget(lim, Stream(ms, k), Stream(more, k));
    TextRepresentsNotices(lim, ms + more, k);
  }

  // ----- cursor paging -----

  ghost predicate Increasing(events: seq<EventRow>) {
    && (forall i :: 0 <= i < |events| ==> events[i].seq_ >= 1)
    && (forall i, j :: 0 <= i < j < |events| ==> events[i].seq_ < events[j].seq_)
  }

  lemma NextSeqIncreases(events: seq<EventRow>, e: EventRow)
    requires Increasing(events) && e.seq_ == NextSeq(events)
    ensures Increasing(events + [e])
  {}

  /** The log is append-only and its sequence numbers strictly increase. */
  lemma {:induction false} LogIsAppendOnly(lim: Limits, ms: seq<Notice>)
    ensures Increasing(Run(lim, ms).events)
    ensures |Run(lim, ms).events| == |ms|
    ensures ms != [] ==> Run(lim, ms[..|ms| - 1]).events <= Run(lim, ms).events
  {
    if ms != [] {
      var front, m := ms[..|ms| - 1], ms[|ms| - 1];
      var db := Run(lim, front);
      LogIsAppendOnly(lim, front);
      assert Run(lim, ms).events == db.events + [EventOf(NextSeq(db.events), m)];
      NextSeqIncreases(db.events, EventOf(NextSeq(db.events), m));
    }
  }

  /** A reader asks for one page per snapshot of the log and moves its cursor to the last event it got. */
  function Read(logs: seq<seq<EventRow>>, owner: string, task: string, limit: int): (seq<EventRow>, int) {
    if logs == [] then ([], 0)
    else
      var (seen, cursor) := Read(logs[..|logs| - 1], owner, task, limit);
      var page := Page(logs[|logs| - 1], owner, task, cursor, limit);
      (seen + page, if page == [] then cursor else page[|page| - 1].seq_)
  }

  predicate Mine(e: EventRow, owner: string, task: string) {
    e.owner == owner && e.task == task
  }

  lemma {:induction false} MatchingIsExact(events: seq<EventRow>, owner: string, task: string, after: int)
    requires Increasing(events)
    ensures Increasing(Matching(events, owner, task, after))
    ensures forall e :: e in Matching(events, owner, task, after) <==> e in events && Mine(e, owner, task) && e.seq_ > after
  {
    if events != [] {
      var front, last := events[..|events| - 1], events[|events| - 1];
      MatchingIsExact(front, owner, task, after);
      var m := Matching(front, owner, task, after);
      forall i | 0 <= i < |m| ensures m[i].seq_ < last.seq_ {
        assert m[i] in front;
      }
      assert forall e :: e in events <==> e in front || e == last;
      var mine := Mine(last, owner, task) && last.seq_ > after;
      assert Matching(events, owner, task, after) == if mine then m + [last] else m;
      assert forall e :: e in m + [last] <==> e in m || e == last;
    }
  }

  /** Two strictly increasing logs with the same elements are equal. */
  lemma {:induction false} SameElementsSameLog(a: seq<EventRow>, b: seq<EventRow>)
    requires Increasing(a) && Increasing(b)
    requires forall e :: e in a <==> e in b
    ensures a == b
  {
    if a == [] {
      assert forall j :: 0 <= j < |b| ==> b[j] in a;
    } else {
      var x, y := a[|a| - 1], a[..|a| - 1];
      assert x in b;
      var j :| 0 <= j < |b| && b[j] == x;
      assert b[|b| - 1] in a;
      assert j == |b| - 1;
      forall e | e in y ensures e in b[..j] {
        assert e in a && e in b;
      }
      forall e | e in b[..j] ensures e in y {
        assert e in b && e in a;
      }
      SameElementsSameLog(y, b[..j]);
    }
  }

  /** What the reader has seen are exactly the task's events up to its cursor, in order and once each. */
  ghost predicate SeenUpTo(log: seq<EventRow>, owner: string, task: string, seen: seq<EventRow>, cursor: int) {
    && Increasing(seen)
    && cursor >= 0
    && (forall e :: e in seen <==> e in log && Mine(e, owner, task) && e.seq_ <= cursor)
    && (cursor == 0 || exists e :: e in log && e.seq_ == cursor)
  }

  lemma SeenAfterGrowth(log: seq<EventRow>, grown: seq<EventRow>, owner: string, task: string, seen: seq<EventRow>, cursor: int)
    requires log <= grown && Increasing(grown)
    requires SeenUpTo(log, owner, task, seen, cursor)
    ensures SeenUpTo(grown, owner, task, seen, cursor)
  {
    assert forall e :: e in log ==> e in grown;
    forall e | e in grown && e !in log ensures e.seq_ > cursor {
      var i :| 0 <= i < |grown| && grown[i] == e;
      assert forall j :: 0 <= j < |log| ==> log[j] == grown[j] && log[j] in log;
      assert i >= |log|;
      if cursor > 0 {
        var c :| c in log && c.seq_ == cursor;
        var j :| 0 <= j < |log| && log[j] == c;
        assert grown[j] == c;
      }
    }
  }

  /** A prefix of a log holds exactly the events up to its last one. */
  lemma PrefixHoldsUpToLast(m: seq<EventRow>, page: seq<EventRow>)
    requires Increasing(m) && page <= m && page != []
    ensures Increasing(page)
    ensures forall e :: e in page <==> e in m && e.seq_ <= page[|page| - 1].seq_
  {
    assert forall j :: 0 <= j < |page| ==> page[j] == m[j];
    forall e | e in page ensures e in m && e.seq_ <= page[|page| - 1].seq_ {
      var j :| 0 <= j < |page| && page[j] == e;
      assert m[j] == e;
    }
    forall e | e in m && e.seq_ <= page[|page| - 1].seq_ ensures e in page {
      var j :| 0 <= j < |m| && m[j] == e;
      assert j < |page| && page[j] == e;
    }
  }

  lemma PageIsNextSlice(log: seq<EventRow>, owner: string, task: string, cursor: int, limit: int)
    requires Increasing(log) && cursor >= 0 && Page(log, owner, task, cursor, limit) != []
    ensures var page := Page(log, owner, task, cursor, limit); var next := page[|page| - 1].seq_;
            && Increasing(page) && next > cursor && page[|page| - 1] in log
            && (forall e :: e in page <==> e in log && Mine(e, owner, task) && cursor < e.seq_ <= next)
  {
    var m, page := Matching(log, owner, task, cursor), Page(log, owner, task, cursor, limit);
    MatchingIsExact(log, owner, task, cursor);
    PrefixHoldsUpToLast(m, page);
    assert page[|page| - 1] in page;
  }

  lemma SeenAfterPage(log: seq<EventRow>, owner: string, task: string, seen: seq<EventRow>, cursor: int, limit: int)
    requires Increasing(log) && SeenUpTo(log, owner, task, seen, cursor)
    ensures var page := Page(log, owner, task, cursor, limit);
            SeenUpTo(log, owner, task, seen + page, if page == [] then cursor else page[|page| - 1].seq_)
  {
    var page := Page(log, owner, task, cursor, limit);
    if page == [] {
      assert seen + page == seen;
    } else {
      PageIsNextSlice(log, owner, task, cursor, limit);
      forall i, j | 0 <= i < |seen| && 0 <= j < |page| ensures seen[i].seq_ < page[j].seq_ {
        assert seen[i] in seen && page[j] in page;
      }
      assert forall e :: e in seen + page <==> e in seen || e in page;
    }
  }

  ghost predicate Growing(logs: seq<seq<EventRow>>) {
    && (forall i :: 0 <= i < |logs| ==> Increasing(logs[i]))
    && (forall i :: 0 <= i < |logs| - 1 ==> logs[i] <= logs[i + 1])
  }

  /** Reading page by page while writers keep appending skips nothing and repeats nothing. */
  lemma {:induction false} PagingIsExact(logs: seq<seq<EventRow>>, owner: string, task: string, limit: int)
    requires logs != [] && Growing(logs)
    ensures var (seen, cursor) := Read(logs, owner, task, limit);
            SeenUpTo(logs[|logs| - 1], owner, task, seen, cursor)
  {
    var front, log := logs[..|logs| - 1], logs[|logs| - 1];
    var (seen, cursor) := Read(front, owner, task, limit);
    if front == [] {
      assert SeenUpTo(log, owner, task, [], 0);
    } else {
      PagingIsExact(front, owner, task, limit);
      SeenAfterGrowth(front[|front| - 1], log, owner, task, seen, cursor);
    }
    SeenAfterPage(log, owner, task, seen, cursor, limit);
  }

  /** An empty page means the reader has the whole log of the task. */
  lemma EmptyPageMeansComplete(log: seq<EventRow>, owner: string, task: string, seen: seq<EventRow>, cursor: int, limit: int)
    requires Increasing(log) && SeenUpTo(log, owner, task, seen, cursor)
    requires Page(log, owner, task, cursor, limit) == []
    ensures seen == Matching(log, owner, task, 0)
  {
    MatchingIsExact(log, owner, task, cursor);
    MatchingIsExact(log, owner, task, 0);
    assert Matching(log, owner, task, cursor) == [];
    assert forall e :: e in log && Mine(e, owner, task) && e.seq_ > cursor ==> e in Matching(log, owner, task, cursor);
    assert forall e :: e in log ==> e.seq_ > 0;
    SameElementsSameLog(seen, Matching(log, owner, task, 0));
  }
}
