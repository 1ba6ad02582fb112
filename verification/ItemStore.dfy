/**
 The durable notification log and the current-item projection of `server/app/codex_item_store.py`.
 `CodexItemStore.RecordNotification` is one SQLite transaction.
 */
module ItemStore {
  import opened Common
  import opened Utf8

  const MAX_EVENT_BYTES := 1024 * 1024
  const MAX_ITEM_BYTES := 2 * 1024 * 1024
  const MAX_METHOD := 240
  const MAX_PROTOCOL_ID := 240

  // ----- the delta accumulator -----

  /** The byte limit of a stored delta stream and the text that marks a cut. */
  datatype Limits = Limits(maxDelta: nat, marker: string) {
    function Budget(): nat {
      Max(0, maxDelta - ByteLen(marker))
    }

    predicate Valid() {
      ByteLen(marker) <= maxDelta
    }
  }

  const FDEX_LIMITS := Limits(1024 * 1024, "\n\U{2026} FDEX persisted delta stream truncated at 1 MiB \U{2026}")

  lemma {:induction false} FourBytesEach(s: string)
    ensures ByteLen(s) <= 4 * |s|
  {
    if s != "" {
      FourBytesEach(s[1..]);
    }
  }

  lemma FdexLimitsAreValid()
    ensures FDEX_LIMITS.Valid()
  {
    FourBytesEach(FDEX_LIMITS.marker);
  }

  /** `_append_delta`: past the limit, cut the bytes, drop the torn character and append the marker. */
  function AppendDelta(lim: Limits, existing: string, delta: string): string {
    if delta == "" then existing
    else
      var combined := existing + delta;
      if ByteLen(combined) <= lim.maxDelta then combined
      else DecodeIgnore(Take(Encode(combined), lim.Budget())) + lim.marker
  }

  /** `text` is what may be stored for a stream: all of it while it fits, and its aligned prefix afterwards. */
  ghost predicate Represents(lim: Limits, text: string, stream: string) {
    && ByteLen(text) <= lim.maxDelta
    && if ByteLen(stream) <= lim.maxDelta then text == stream
       else AlignedPrefix(stream, lim.Budget()) <= text
  }

  /** A text that exceeds the limit is replaced by its aligned prefix and the marker. */
  lemma AppendCuts(lim: Limits, text: string, delta: string)
    requires lim.Valid() && delta != "" && ByteLen(text + delta) > lim.maxDelta
    ensures AppendDelta(lim, text, delta) == AlignedPrefix(text + delta, lim.Budget()) + lim.marker
    ensures ByteLen(AppendDelta(lim, text, delta)) <= lim.maxDelta
  {
    var cut := AlignedPrefix(text + delta, lim.Budget());
    CutIsAlignedPrefix(text + delta, lim.Budget());
    AlignedPrefixFits(text + delta, lim.Budget());
    EncodeConcat(cut, lim.marker);
  }

  /** Appending a delta to the stored text matches appending it to the true stream. */
  lemma AppendRepresents(lim: Limits, text: string, stream: string, delta: string)
    requires lim.Valid() && Represents(lim, text, stream)
    ensures Represents(lim, AppendDelta(lim, text, delta), stream + delta)
  {
    var combined, budget := text + delta, lim.Budget();
    EncodeConcat(stream, delta);
    if delta == "" {
      assert stream + delta == stream;
    } else if ByteLen(stream) <= lim.maxDelta {
      if ByteLen(combined) > lim.maxDelta {
        AppendCuts(lim, text, delta);
      }
    } else {
      var p := AlignedPrefix(stream, budget);
      AlignedPrefixIsStable(stream, delta, budget);
      AlignedPrefixFits(stream, budget);
      assert p <= combined;
      if ByteLen(combined) > lim.maxDelta {
        AppendCuts(lim, text, delta);
        assert p + combined[|p|..] == combined;
        AlignedPrefixIsLongest(p, combined[|p|..], budget);
      }
    }
  }

  /** After the first overflow at most three bytes of the budget are lost, and later deltas do not move the prefix. */
  lemma OverflowKeepsBudget(lim: Limits, stream: string, more: string)
    requires lim.Valid() && ByteLen(stream) > lim.maxDelta
    ensures AlignedPrefix(stream, lim.Budget()) <= stream
    ensures lim.Budget() - 3 <= ByteLen(AlignedPrefix(stream, lim.Budget())) <= lim.Budget()
    ensures AlignedPrefix(stream + more, lim.Budget()) == AlignedPrefix(stream, lim.Budget())
    ensures ByteLen(stream + more) > lim.maxDelta
  {
    AlignedPrefixFits(stream, lim.Budget());
    AlignedPrefixIsStable(stream, more, lim.Budget());
    EncodeConcat(stream, more);
  }

  // ----- the tables -----

  /** JSON text as stored: whole, or an envelope that keeps the byte size and a preview. */
  datatype Stored = Whole(raw: string) | Envelope(originalBytes: nat, preview: string) | StreamPlaceholder(id: string)

  /** What the recorder does with a method name. */
  datatype MethodKind = ItemStarted | ItemCompleted | TurnCompleted | Delta | Other

  datatype ItemType = UnknownType | StreamType | NamedType(text: string)

  datatype ItemStatus = InProgress | Completed | Orphaned | NamedStatus(text: string)

  /** The `item` object of a notification; an absent object has empty members. */
  datatype ItemObject = ItemObject(id: string, itemType: string, status: string, json: string)

  /** The parameters of a notification; an absent JSON member is the empty string or `None`. */
  datatype Params = Params(
    threadId: string,
    turnId: string,
    itemId: string,
    item: ItemObject,
    json: string,
    deltas: seq<Option<string>>,
    startedAtMs: Option<int>,
    completedAtMs: Option<int>,
    completedTurnId: string,
    turnStatus: string)

  datatype Notice = Notice(owner: string, task: string, name: string, kind: MethodKind, params: Params)

  datatype EventRow = EventRow(
    seq_: nat, owner: string, task: string, thread: string, turn: string, item: string, name: string, params: Stored)

  datatype Key = Key(owner: string, thread: string, turn: string, item: string)

  datatype Item = Item(
    task: string,
    itemType: ItemType,
    status: ItemStatus,
    payload: Stored,
    delta: string,
    startedAtMs: Option<int>,
    completedAtMs: Option<int>,
    firstSeq: nat,
    lastSeq: nat)

  type Items = map<Key, Item>

  datatype Db = Db(events: seq<EventRow>, items: Items)

  // ----- reading a notification -----

  /** `_text`: strip, refuse control characters, truncate. */
  function CleanText(value: string, limit: nat): string {
    var clean := Strip(value);
    if exists c :: c in clean && (c as int) < 32 then "" else Take(clean, limit)
  }

  function OrElse(value: string, fallback: string): string {
    if value == "" then fallback else value
  }

  function JsonBounded(raw: string, limit: nat): Stored {
    if ByteLen(raw) <= limit then Whole(raw)
    else Envelope(ByteLen(raw), Take(raw, Min(200_000, Max(4_096, limit / 4))))
  }

  predicate Occurs(s: string, part: string) {
    part <= s || (s != "" && Occurs(s[1..], part))
  }

  predicate IsDeltaMethod(name: string) {
    Occurs(Lower(name), "/delta") || (|name| >= 5 && name[|name| - 5..] == "Delta")
  }

  function Classify(name: string): MethodKind {
    if name == "item/started" then ItemStarted
    else if name == "item/completed" then ItemCompleted
    else if name == "turn/completed" then TurnCompleted
    else if IsDeltaMethod(name) then Delta
    else Other
  }

  function ReadNotice(owner: string, task: string, rawName: string, p: Params): Notice {
    var name := OrElse(CleanText(rawName, MAX_METHOD), "unknown");
    Notice(owner, task, name, Classify(name), p)
  }

  function TypeOf(text: string): ItemType {
    var clean := CleanText(text, 120);
    if clean == "" || clean == "unknown" then UnknownType else NamedType(clean)
  }

  function StatusOf(text: string, fallback: ItemStatus): ItemStatus {
    var clean := CleanText(text, 120);
    if clean == "" then fallback
    else if clean == "inProgress" then InProgress
    else if clean == "completed" then Completed
    else NamedStatus(clean)
  }

  /** `_notification_delta`: the first delta member that is present, even when it is empty. */
  function FirstDelta(deltas: seq<Option<string>>): string {
    if deltas == [] then ""
    else if deltas[0].Some? then deltas[0].value
    else FirstDelta(deltas[1..])
  }

  function KeyOf(m: Notice): Key {
    var p := m.params;
    Key(m.owner,
        CleanText(p.threadId, MAX_PROTOCOL_ID),
        CleanText(p.turnId, MAX_PROTOCOL_ID),
        CleanText(OrElse(p.itemId, p.item.id), MAX_PROTOCOL_ID))
  }

  predicate Addressed(k: Key) {
    k.item != "" && k.thread != "" && k.turn != ""
  }

  // ----- the transaction -----

  /** The sequence number AUTOINCREMENT gives to the next event. */
  function NextSeq(events: seq<EventRow>): nat {
    if events == [] then 1 else events[|events| - 1].seq_ + 1
  }

  function EventOf(n: nat, m: Notice): EventRow {
    var k := KeyOf(m);
    EventRow(n, m.owner, m.task, k.thread, k.turn, k.item, m.name, JsonBounded(m.params.json, MAX_EVENT_BYTES))
  }

  /** The upsert for item/started and item/completed; it never writes the delta text of an existing row. */
  function Upserted(items: Items, k: Key, m: Notice, n: nat): Items {
    var p, started := m.params, m.kind.ItemStarted?;
    var itemType := TypeOf(p.item.itemType);
    var status := StatusOf(p.item.status, if started then InProgress else Completed);
    var payload := JsonBounded(p.item.json, MAX_ITEM_BYTES);
    var startedAt := if started then p.startedAtMs else None;
    var completedAt := if started then None else p.completedAtMs;
    if k in items then
      var o := items[k];
      items[k := Item(
                   m.task,
                   if itemType.UnknownType? then o.itemType else itemType,
                   status,
                   payload,
                   o.delta,
                   if o.startedAtMs.Some? then o.startedAtMs else startedAt,
                   if completedAt.Some? then completedAt else o.completedAtMs,
                   o.firstSeq,
                   n)]
    else items[k := Item(m.task, itemType, status, payload, "", startedAt, completedAt, n, n)]
  }

  function WithDelta(lim: Limits, items: Items, k: Key, task: string, delta: string, n: nat): Items {
    if k in items then items[k := items[k].(delta := AppendDelta(lim, items[k].delta, delta), lastSeq := n)]
    else
      items[k := Item(task, StreamType, InProgress, StreamPlaceholder(k.item), AppendDelta(lim, "", delta),
                      None, None, n, n)]
  }

  /** A completed turn orphans its items that are still in progress. */
  function OrphanedItems(items: Items, owner: string, thread: string, turn: string, n: nat): Items {
    map k | k in items ::
      if k.owner == owner && k.thread == thread && k.turn == turn && items[k].status.InProgress?
      then items[k].(status := Orphaned, lastSeq := n)
      else items[k]
  }

  function DeltaOf(m: Notice): string {
    if m.kind.Delta? then FirstDelta(m.params.deltas) else ""
  }

  function ItemsAfter(lim: Limits, items: Items, m: Notice, n: nat): Items {
    var k := KeyOf(m);
    match m.kind
    case ItemStarted | ItemCompleted => if Addressed(k) then Upserted(items, k, m, n) else items
    case Delta => if DeltaOf(m) != "" && Addressed(k) then WithDelta(lim, items, k, m.task, DeltaOf(m), n) else items
    case TurnCompleted =>
      var turn := CleanText(OrElse(m.params.completedTurnId, k.turn), MAX_PROTOCOL_ID);
      var status := StatusOf(m.params.turnStatus, Completed);
      if k.thread != "" && turn != "" && !status.InProgress? then OrphanedItems(items, m.owner, k.thread, turn, n)
      else items
    case Other => items
  }

  /** Both tables after one `record_notification`. */
  function RecordSpec(lim: Limits, db: Db, m: Notice): Db {
    var n := NextSeq(db.events);
    Db(db.events + [EventOf(n, m)], ItemsAfter(lim, db.items, m, n))
  }

  // ----- reading the log -----

  function Matching(events: seq<EventRow>, owner: string, task: string, after: int): seq<EventRow> {
    if events == [] then []
    else
      var e, front := events[|events| - 1], Matching(events[..|events| - 1], owner, task, after);
      if e.owner == owner && e.task == task && e.seq_ > after then front + [e] else front
  }

  /** One page: the events of a task behind the cursor, oldest first, at most `limit` clamped to 1..500. */
  function Page(events: seq<EventRow>, owner: string, task: string, after: int, limit: int): seq<EventRow> {
    Take(Matching(events, owner, task, Max(0, after)), Max(1, Min(limit, 500)))
  }

  class CodexItemStore {
    const limits: Limits
    var events: seq<EventRow>
    var items: Items

    ghost function Tables(): Db
      reads this
    {
      Db(events, items)
    }

    constructor (limits: Limits)
      ensures this.limits == limits && Tables() == Db([], map[])
    {
      this.limits := limits;
      events, items := [], map[];
    }

    method RecordNotification(owner: string, task: string, rawName: string, p: Params) returns (row: EventRow)
      modifies this
      ensures Tables() == RecordSpec(limits, old(Tables()), ReadNotice(owner, task, rawName, p))
      ensures row == events[|events| - 1]
    {
      var m := ReadNotice(owner, task, rawName, p);
      row := Record(m);
    }

    method Record(m: Notice) returns (row: EventRow)
      modifies this
      ensures Tables() == RecordSpec(limits, old(Tables()), m)
      ensures events == old(events) + [row]
    {
      var key, n := KeyOf(m), NextSeq(events);
      row := EventOf(n, m);
      events := events + [row];
      if (m.kind.ItemStarted? || m.kind.ItemCompleted?) && Addressed(key) {
        items := Upserted(items, key, m, n);
      }
      var delta := DeltaOf(m);
      if delta != "" && Addressed(key) {
        items := WithDelta(limits, items, key, m.task, delta, n);
      }
      if m.kind.TurnCompleted? && key.thread != "" {
        var completedTurn := CleanText(OrElse(m.params.completedTurnId, key.turn), MAX_PROTOCOL_ID);
        if completedTurn != "" && !StatusOf(m.params.turnStatus, Completed).InProgress? {
          items := OrphanedItems(items, m.owner, key.thread, completedTurn, n);
        }
      }
    }

    method ListEvents(owner: string, task: string, after: int, limit: int) returns (page: seq<EventRow>)
      ensures page == Page(events, owner, task, after, limit)
    {
      var cursor, room := Max(0, after), Max(1, Min(limit, 500));
      var found: seq<EventRow> := [];
      for i := 0 to |events|
        invariant found == Matching(events[..i], owner, task, cursor)
      {
        assert events[..i + 1][..i] == events[..i];
        var e := events[i];
        if e.owner == owner && e.task == task && e.seq_ > cursor {
          found := found + [e];
        }
      }
      assert events[..|events|] == events;
      page := Take(found, room);
    }
  }
}
