/**
 The notification store stated on the calls as they are made: method names and parameters, with no reading of them in
 between. What each call adds to the log, to the items and to the stream of an item.
 */
module ItemStoreCalls {
  import opened Common
  import opened Utf8
  import opened ItemStore
  import opened ItemStoreRuns

  datatype Call = Call(owner: string, task: string, name: string, params: Params)

  function NoticeOf(c: Call): Notice {
    ReadNotice(c.owner, c.task, c.name, c.params)
  }

  function Notices(cs: seq<Call>): seq<Notice> {
    Map(NoticeOf, cs)
  }

  /** The tables after these calls. */
  function After(lim: Limits, cs: seq<Call>): Db {
    Run(lim, Notices(cs))
  }

  // ----- what a call says -----

  /** A text without surrounding white space, cut to its limit; a text with control characters says nothing. */
  predicate Cleaned(clean: string, value: string, limit: nat) {
    if exists i :: 0 <= i < |Strip(value)| && (Strip(value)[i] as int) < 32 then clean == ""
    else IsCut(clean, Strip(value), limit)
  }

  ghost predicate Named(c: Call, name: string) {
    exists clean :: Cleaned(clean, c.name, 240) && name == if clean == "" then "unknown" else clean
  }

  predicate HasAt(s: string, part: string, i: nat) {
    i + |part| <= |s| && s[i..i + |part|] == part
  }

  /** A method whose name contains `/delta` in any case, or ends in `Delta`. */
  ghost predicate IsDeltaName(name: string) {
    || (exists i: nat :: HasAt(Lower(name), "/delta", i))
    || (|name| >= 5 && name[|name| - 5..] == "Delta")
  }

  /** The item a call is about: all three of thread, turn and item must be given. */
  predicate About(c: Call, k: Key) {
    && k.owner == c.owner && Cleaned(k.thread, c.params.threadId, 240) && Cleaned(k.turn, c.params.turnId, 240)
    && Cleaned(k.item, if c.params.itemId != "" then c.params.itemId else c.params.item.id, 240)
    && k.thread != "" && k.turn != "" && k.item != ""
  }

  /** The first delta member that is present, even when it is empty; nothing when all are absent. */
  predicate FirstPresent(deltas: seq<Option<string>>, text: string) {
    || (text == "" && forall i :: 0 <= i < |deltas| ==> deltas[i].None?)
    || (exists i :: 0 <= i < |deltas| && deltas[i] == Some(text) && forall j :: 0 <= j < i ==> deltas[j].None?)
  }

  /** What a call adds to the stream of an item. */
  ghost predicate Adds(c: Call, k: Key, text: string) {
    if About(c, k) && (exists name :: Named(c, name) && IsDeltaName(name)) then FirstPresent(c.params.deltas, text)
    else text == ""
  }

  /** The true stream of an item: the concatenation of what the calls add to it. */
  ghost predicate IsStream(cs: seq<Call>, k: Key, stream: string) {
    if cs == [] then stream == ""
    else exists front, text ::
           IsStream(cs[..|cs| - 1], k, front) && Adds(cs[|cs| - 1], k, text) && stream == front + text
  }

  // ----- reading is what it should be -----

  lemma CleanTextCleans(value: string, limit: nat)
    ensures Cleaned(CleanText(value, limit), value, limit)
    ensures forall clean :: Cleaned(clean, value, limit) ==> clean == CleanText(value, limit)
  {
    var s := Strip(value);
    if i :| 0 <= i < |s| && (s[i] as int) < 32 {
      assert s[i] in s;
    }
  }

  lemma NameIsRead(c: Call)
    ensures Named(c, NoticeOf(c).name)
    ensures forall name :: Named(c, name) ==> name == NoticeOf(c).name
  {
    CleanTextCleans(c.name, 240);
  }

  lemma AtFront(s: string, part: string)
    ensures HasAt(s, part, 0) <==> part <= s
  {
    if |part| <= |s| {
      assert s[0..0 + |part|] == s[..|part|];
    }
  }

  lemma AfterFront(s: string, part: string, i: nat)
    requires s != ""
    ensures HasAt(s, part, i + 1) <==> HasAt(s[1..], part, i)
  {
    if i + 1 + |part| <= |s| {
      assert s[i + 1..i + 1 + |part|] == s[1..][i..i + |part|];
    }
  }

  ghost predicate HasSomewhere(s: string, part: string) {
    exists i: nat :: HasAt(s, part, i)
  }

  lemma SomewhereBehind(s: string, part: string)
    requires s != ""
    ensures HasSomewhere(s, part) <==> part <= s || HasSomewhere(s[1..], part)
  {
    AtFront(s, part);
    if HasSomewhere(s, part) {
      var i: nat :| HasAt(s, part, i);
      if i > 0 {
        AfterFront(s, part, i - 1);
      }
    }
    if HasSomewhere(s[1..], part) {
      var i: nat :| HasAt(s[1..], part, i);
      AfterFront(s, part, i);
    }
  }

  lemma {:induction false} OccursExactly(s: string, part: string)
    ensures Occurs(s, part) <==> HasSomewhere(s, part)
  {
    if s == "" {
      AtFront(s, part);
    } else {
      SomewhereBehind(s, part);
      OccursExactly(s[1..], part);
    }
  }

  lemma DeltaNameIsRead(name: string)
    ensures IsDeltaMethod(name) <==> IsDeltaName(name)
  {
    OccursExactly(Lower(name), "/delta");
  }

  /** The three names the recorder knows carry no delta. */
  lemma KnownNamesAreNoDeltas(name: string)
    requires name == "item/started" || name == "item/completed" || name == "turn/completed"
    ensures !IsDeltaName(name)
  {
    var low := Lower(name);
    assert low == name by {
      assert forall i :: 0 <= i < |name| ==> low[i] == name[i];
    }
    forall i: nat | i + 6 <= |name| ensures !HasAt(low, "/delta", i) {
      assert low[i..i + 6][0] == low[i] && low[i..i + 6][1] == low[i + 1];
      assert "/delta"[0] == '/' && "/delta"[1] == 'd';
    }
    assert name[|name| - 5..][0] != 'D';
  }

  lemma KindIsRead(c: Call, name: string)
    requires Named(c, name)
    ensures NoticeOf(c).kind.Delta? <==> IsDeltaName(name)
    ensures NoticeOf(c).kind.ItemStarted? <==> name == "item/started"
    ensures NoticeOf(c).kind.ItemCompleted? <==> name == "item/completed"
    ensures NoticeOf(c).kind.TurnCompleted? <==> name == "turn/completed"
  {
    NameIsRead(c);
    DeltaNameIsRead(name);
    if name == "item/started" || name == "item/completed" || name == "turn/completed" {
      KnownNamesAreNoDeltas(name);
    }
  }

  lemma KeyIsRead(c: Call, k: Key)
    ensures About(c, k) <==> KeyOf(NoticeOf(c)) == k && Addressed(k)
  {
    CleanTextCleans(c.params.threadId, 240);
    CleanTextCleans(c.params.turnId, 240);
    CleanTextCleans(if c.params.itemId != "" then c.params.itemId else c.params.item.id, 240);
  }

  lemma {:induction false} FirstDeltaIsFirst(deltas: seq<Option<string>>)
    ensures FirstPresent(deltas, FirstDelta(deltas))
  {
    if deltas != [] {
      FirstDeltaIsFirst(deltas[1..]);
      if deltas[0].None? {
        var text := FirstDelta(deltas[1..]);
        if i :| 0 <= i < |deltas| - 1 && deltas[1..][i] == Some(text) && forall j :: 0 <= j < i ==> deltas[1..][j].None? {
          assert deltas[i + 1] == Some(text);
          assert forall j :: 1 <= j < i + 1 ==> deltas[j] == deltas[1..][j - 1];
        } else {
          assert forall i :: 1 <= i < |deltas| ==> deltas[i] == deltas[1..][i - 1];
        }
      } else {
        assert deltas[0] == Some(FirstDelta(deltas));
      }
    }
  }

  lemma FirstPresentIsUnique(deltas: seq<Option<string>>, a: string, b: string)
    requires FirstPresent(deltas, a) && FirstPresent(deltas, b)
    ensures a == b
  {}

  /** A call adds exactly the text that the recorder appends. */
  lemma AddsExactly(c: Call, k: Key, text: string)
    ensures Adds(c, k, text) <==> text == DeltaFor(NoticeOf(c), k)
  {
    var name := NoticeOf(c).name;
    NameIsRead(c);
    KindIsRead(c, name);
    KeyIsRead(c, k);
    FirstDeltaIsFirst(c.params.deltas);
    if FirstPresent(c.params.deltas, text) {
      FirstPresentIsUnique(c.params.deltas, text, FirstDelta(c.params.deltas));
    }
  }

  lemma {:induction false} StreamIsRead(cs: seq<Call>, k: Key, stream: string)
    ensures IsStream(cs, k, stream) <==> stream == Stream(Notices(cs), k)
  {
    if cs != [] {
      var front, c := cs[..|cs| - 1], cs[|cs| - 1];
      assert Notices(cs)[..|cs| - 1] == Notices(front) && Notices(cs)[|cs| - 1] == NoticeOf(c);
      var s, d := Stream(Notices(front), k), DeltaFor(NoticeOf(c), k);
      StreamIsRead(front, k, s);
      AddsExactly(c, k, d);
      if IsStream(cs, k, stream) {
        var f, text :| IsStream(front, k, f) && Adds(c, k, text) && stream == f + text;
        StreamIsRead(front, k, f);
        AddsExactly(c, k, text);
      }
    }
  }

  /** Every item has exactly one true stream. */
  lemma StreamIsUnique(cs: seq<Call>, k: Key)
    ensures exists stream :: IsStream(cs, k, stream)
    ensures forall a, b :: IsStream(cs, k, a) && IsStream(cs, k, b) ==> a == b
  {
    StreamIsRead(cs, k, Stream(Notices(cs), k));
    forall a, b | IsStream(cs, k, a) && IsStream(cs, k, b) ensures a == b {
      StreamIsRead(cs, k, a);
      StreamIsRead(cs, k, b);
    }
  }

  // ----- the text of an item -----

  /**
   For any calls about any items in any interleaving: the stored text of an item is the exact concatenation of its
   deltas while that fits the limit, and contains its aligned prefix ever after.
   */
  lemma TextRepresentsStream(lim: Limits, cs: seq<Call>, k: Key, stream: string)
    requires lim.Valid() && IsStream(cs, k, stream)
    ensures ByteLen(TextOf(After(lim, cs).items, k)) <= lim.maxDelta
    ensures if ByteLen(stream) <= lim.maxDelta then TextOf(After(lim, cs).items, k) == stream
            else AlignedPrefix(stream, lim.Budget()) <= TextOf(After(lim, cs).items, k)
  {
    StreamIsRead(cs, k, stream);
    TextRepresentsNotices(lim, Notices(cs), k);
  }

  /** After the first overflow the same prefix, at most three bytes short of the budget, is in the text for good. */
  lemma OverflowPrefixIsForever(lim: Limits, cs: seq<Call>, more: seq<Call>, k: Key, stream: string)
    requires lim.Valid() && IsStream(cs, k, stream) && ByteLen(stream) > lim.maxDelta
    ensures AlignedPrefix(stream, lim.Budget()) <= stream
    ensures lim.Budget() - 3 <= ByteLen(AlignedPrefix(stream, lim.Budget())) <= lim.Budget()
    ensures AlignedPrefix(stream, lim.Budget()) <= TextOf(After(lim, cs + more).items, k)
    ensures ByteLen(TextOf(After(lim, cs + more).items, k)) <= lim.maxDelta
  {
    StreamIsRead(cs, k, stream);
    MapOfConcat(NoticeOf, cs, more);
    OverflowOfNotices(lim, Notices(cs), Notices(more), k);
  }

  // ----- the log -----

  /** JSON text is stored whole up to its limit, and then as its size and its first 200000 characters. */
  predicate StoredJson(stored: Stored, raw: string, limit: nat) {
    if ByteLen(raw) <= limit then stored == Whole(raw)
    else stored.Envelope? && stored.originalBytes == ByteLen(raw) && IsCut(stored.preview, raw, 200000)
  }

  ghost predicate IsEventOf(e: EventRow, c: Call) {
    && e.owner == c.owner && e.task == c.task && Named(c, e.name)
    && Cleaned(e.thread, c.params.threadId, 240) && Cleaned(e.turn, c.params.turnId, 240)
    && Cleaned(e.item, if c.params.itemId != "" then c.params.itemId else c.params.item.id, 240)
    && StoredJson(e.params, c.params.json, 1048576)
  }

  lemma EventIsOfCall(c: Call, n: nat)
    ensures IsEventOf(EventOf(n, NoticeOf(c)), c)
  {
    NameIsRead(c);
    CleanTextCleans(c.params.threadId, 240);
    CleanTextCleans(c.params.turnId, 240);
    CleanTextCleans(if c.params.itemId != "" then c.params.itemId else c.params.item.id, 240);
  }

  /** The log has one row per call, in order, and each row says what its call said. */
  lemma {:induction false} LogHoldsCalls(lim: Limits, cs: seq<Call>)
    ensures LogHolds(After(lim, cs).events, cs)
  {
    if cs != [] {
      var front, c := cs[..|cs| - 1], cs[|cs| - 1];
      assert cs == front + [c];
      LogHoldsCalls(lim, front);
      LogOfMore(lim, front, c);
      LogHoldsMore(After(lim, front).events, After(lim, cs).events, front, c);
    }
  }

  ghost predicate LogHolds(events: seq<EventRow>, cs: seq<Call>) {
    |events| == |cs| && forall i :: 0 <= i < |cs| ==> IsEventOf(events[i], cs[i])
  }

  lemma LogHoldsMore(events: seq<EventRow>, more: seq<EventRow>, cs: seq<Call>, c: Call)
    requires LogHolds(events, cs) && events <= more && |more| == |events| + 1 && IsEventOf(more[|events|], c)
    ensures LogHolds(more, cs + [c])
  {
    forall i | 0 <= i <= |cs| ensures IsEventOf(more[i], (cs + [c])[i]) {
      if i < |cs| {
        assert more[i] == events[i] && (cs + [c])[i] == cs[i];
      }
    }
  }

  lemma LogOfMore(lim: Limits, cs: seq<Call>, c: Call)
    ensures |After(lim, cs + [c]).events| == |After(lim, cs).events| + 1
    ensures After(lim, cs).events <= After(lim, cs + [c]).events
    ensures IsEventOf(After(lim, cs + [c]).events[|After(lim, cs).events|], c)
  {
    var events := After(lim, cs).events;
    assert Notices(cs + [c])[..|cs|] == Notices(cs) && Notices(cs + [c])[|cs|] == NoticeOf(c);
    EventIsOfCall(c, NextSeq(events));
    assert After(lim, cs + [c]).events == events + [EventOf(NextSeq(events), NoticeOf(c))];
  }

  // ----- the items -----

  /** The type that is stored: the last one given that is not empty or `unknown`. */
  ghost predicate TypeRead(t: ItemType, text: string) {
    exists clean :: Cleaned(clean, text, 120) && t == if clean == "" || clean == "unknown" then UnknownType else NamedType(clean)
  }

  ghost predicate StatusRead(s: ItemStatus, text: string, fallback: ItemStatus) {
    exists clean :: Cleaned(clean, text, 120)
                    && s == if clean == "" then fallback else if clean == "inProgress" then InProgress
                            else if clean == "completed" then Completed else NamedStatus(clean)
  }

  lemma TypeIsRead(text: string)
    ensures TypeRead(TypeOf(text), text)
  {
    CleanTextCleans(text, 120);
  }

  lemma StatusIsRead(text: string, fallback: ItemStatus)
    ensures StatusRead(StatusOf(text, fallback), text, fallback)
    ensures forall s :: StatusRead(s, text, fallback) ==> s == StatusOf(text, fallback)
  {
    CleanTextCleans(text, 120);
  }

  /** Every other item is as it was. */
  ghost predicate OnlyItem(before: Items, after: Items, k: Key) {
    k in after && after.Keys == before.Keys + {k} && forall i :: i in before && i != k ==> after[i] == before[i]
  }

  /** An item starts: in progress unless it says otherwise; the first start time counts, and its text is left alone. */
  lemma StartedItem(lim: Limits, db: Db, c: Call, k: Key)
    requires Named(c, "item/started") && About(c, k)
    ensures var after, n := RecordSpec(lim, db, NoticeOf(c)).items, NextSeq(db.events);
            && OnlyItem(db.items, after, k)
            && var row := after[k];
               && row.task == c.task && StatusRead(row.status, c.params.item.status, InProgress)
               && StoredJson(row.payload, c.params.item.json, 2097152) && row.lastSeq == n
               && if k in db.items then
                    var was := db.items[k];
                    && (TypeRead(row.itemType, c.params.item.itemType)
                        || (TypeRead(UnknownType, c.params.item.itemType) && row.itemType == was.itemType))
                    && row.delta == was.delta && row.firstSeq == was.firstSeq && row.completedAtMs == was.completedAtMs
                    && row.startedAtMs == (if was.startedAtMs.Some? then was.startedAtMs else c.params.startedAtMs)
                  else
                    && TypeRead(row.itemType, c.params.item.itemType) && row.delta == "" && row.firstSeq == n
                    && row.startedAtMs == c.params.startedAtMs && row.completedAtMs.None?
  {
    NameIsRead(c);
    KindIsRead(c, "item/started");
    KeyIsRead(c, k);
    TypeIsRead(c.params.item.itemType);
    StatusIsRead(c.params.item.status, InProgress);
  }

  /** An item ends: completed unless it says otherwise; the last completion time counts, and its text is left alone. */
  lemma CompletedItem(lim: Limits, db: Db, c: Call, k: Key)
    requires Named(c, "item/completed") && About(c, k)
    ensures var after, n := RecordSpec(lim, db, NoticeOf(c)).items, NextSeq(db.events);
            && OnlyItem(db.items, after, k)
            && var row := after[k];
               && row.task == c.task && StatusRead(row.status, c.params.item.status, Completed)
               && StoredJson(row.payload, c.params.item.json, 2097152) && row.lastSeq == n
               && if k in db.items then
                    var was := db.items[k];
                    && (TypeRead(row.itemType, c.params.item.itemType)
                        || (TypeRead(UnknownType, c.params.item.itemType) && row.itemType == was.itemType))
                    && row.delta == was.delta && row.firstSeq == was.firstSeq && row.startedAtMs == was.startedAtMs
                    && row.completedAtMs == (if c.params.completedAtMs.Some? then c.params.completedAtMs else was.completedAtMs)
                  else
                    && TypeRead(row.itemType, c.params.item.itemType) && row.delta == "" && row.firstSeq == n
                    && row.startedAtMs.None? && row.completedAtMs == c.params.completedAtMs
  {
    NameIsRead(c);
    KindIsRead(c, "item/completed");
    KeyIsRead(c, k);
    TypeIsRead(c.params.item.itemType);
    StatusIsRead(c.params.item.status, Completed);
  }

  /** A delta for an item that nobody announced makes a stream item in progress; for a known item it changes the text only. */
  lemma DeltaItem(lim: Limits, db: Db, c: Call, k: Key, text: string)
    requires About(c, k) && Adds(c, k, text) && text != ""
    ensures var after, n := RecordSpec(lim, db, NoticeOf(c)).items, NextSeq(db.events);
            && OnlyItem(db.items, after, k)
            && var row := after[k];
               if k in db.items then row == db.items[k].(delta := row.delta, lastSeq := n)
               else row == Item(c.task, StreamType, InProgress, StreamPlaceholder(k.item), row.delta, None, None, n, n)
  {
    AddsExactly(c, k, text);
    KeyIsRead(c, k);
  }

  /** The turn that a `turn/completed` ends, when it ends one. */
  ghost predicate EndsTurn(c: Call, thread: string, turn: string) {
    && Named(c, "turn/completed") && Cleaned(thread, c.params.threadId, 240) && thread != "" && turn != ""
    && !StatusRead(InProgress, c.params.turnStatus, Completed)
    && if c.params.completedTurnId != "" then Cleaned(turn, c.params.completedTurnId, 240)
       else exists own :: Cleaned(own, c.params.turnId, 240) && Cleaned(turn, own, 240)
  }

  /** The end of a turn orphans its items that are still in progress, and touches no other. */
  lemma EndedTurnOrphans(lim: Limits, db: Db, c: Call, thread: string, turn: string)
    requires EndsTurn(c, thread, turn)
    ensures var after, n := RecordSpec(lim, db, NoticeOf(c)).items, NextSeq(db.events);
            && after.Keys == db.items.Keys
            && forall k :: k in db.items ==>
                 after[k] == if k.owner == c.owner && k.thread == thread && k.turn == turn && db.items[k].status.InProgress?
                             then db.items[k].(status := Orphaned, lastSeq := n) else db.items[k]
  {
    NameIsRead(c);
    KindIsRead(c, "turn/completed");
    CleanTextCleans(c.params.threadId, 240);
    CleanTextCleans(c.params.turnId, 240);
    CleanTextCleans(c.params.completedTurnId, 240);
    CleanTextCleans(CleanText(c.params.turnId, 240), 240);
    StatusIsRead(c.params.turnStatus, Completed);
  }

  /** Any other call leaves the items as they are. */
  lemma OtherCallsLeaveItems(lim: Limits, db: Db, c: Call, name: string)
    requires Named(c, name) && name != "item/started" && name != "item/completed"
    requires forall thread, turn :: !EndsTurn(c, thread, turn)
    requires forall k :: About(c, k) ==> Adds(c, k, "")
    ensures RecordSpec(lim, db, NoticeOf(c)).items == db.items
  {
    NameIsRead(c);
    KindIsRead(c, name);
    var k := KeyOf(NoticeOf(c));
    KeyIsRead(c, k);
    AddsExactly(c, k, "");
    if name == "turn/completed" {
      UnendedTurn(c);
    }
  }

  lemma UnendedTurn(c: Call)
    requires Named(c, "turn/completed") && forall thread, turn :: !EndsTurn(c, thread, turn)
    ensures var k := KeyOf(NoticeOf(c));
            var turn := CleanText(OrElse(c.params.completedTurnId, k.turn), MAX_PROTOCOL_ID);
            k.thread == "" || turn == "" || StatusOf(c.params.turnStatus, Completed).InProgress?
  {
    var k := KeyOf(NoticeOf(c));
    CleanTextCleans(c.params.threadId, 240);
    CleanTextCleans(c.params.turnId, 240);
    CleanTextCleans(c.params.completedTurnId, 240);
    CleanTextCleans(k.turn, 240);
    StatusIsRead(c.params.turnStatus, Completed);
    assert !EndsTurn(c, k.thread, CleanText(OrElse(c.params.completedTurnId, k.turn), MAX_PROTOCOL_ID));
  }
}
