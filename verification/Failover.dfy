/**
 Streaming with failover, `server/app/client_ai.py`: providers, models and roots are tried in nested order against
 upstreams that may do anything; the frames sent to the browser must tell one story.
 */
module Failover {
  import opened Common

  datatype Provider = Provider(hasKey: bool, models: nat, roots: nat)

  /** One attempt: positions in the nested loops. */
  datatype Attempt = Attempt(provider: nat, model: nat, root: nat)

  datatype Frame =
    | Status
    | Connecting(attempt: Attempt)
    | Reasoning(attempt: Attempt, delta: string)
    | Content(attempt: Attempt, delta: string)
    | Media
    | Spoken(delta: string)
    | DoneBy(winner: Option<Attempt>)
    | Error
    | End

  // ----- upstreams -----

  /** An event line after stripping: noise, the end marker, or a chunk (empty strings are absent parts). */
  datatype Event = Noise | Stop | Chunk(status: string, reasoning: string, content: string)

  datatype Line = Line(waits: nat, event: Event)

  datatype Body =
    | Unreachable
    | HttpError
    | Unparsable
    | Plain(content: string)
    | Lines(lines: seq<Line>, lastWaits: nat, broken: bool)

  /** `waits` heartbeats before the headers; `breaks` when something raises after the body was read. */
  datatype Response = Response(waits: nat, body: Body, breaks: bool)

  type Upstream = Attempt -> Response

  // ----- one attempt -----

  function Waits(n: nat): seq<Frame> {
    seq(n, _ => Status)
  }

  function ChunkFrames(a: Attempt, c: Event): seq<Frame>
    requires c.Chunk?
  {
    (if c.status != "" then [Status] else [])
    + (if c.reasoning != "" then [Reasoning(a, c.reasoning)] else [])
    + (if c.content != "" then [Content(a, c.content)] else [])
  }

  function LineFrames(a: Attempt, l: Line): seq<Frame> {
    Waits(l.waits) + (if l.event.Chunk? then ChunkFrames(a, l.event) else [])
  }

  /** The lines that are read: up to and including the end marker. */
  function Read(ls: seq<Line>): seq<Line> {
    if ls == [] || ls[0].event.Stop? then Take(ls, 1) else [ls[0]] + Read(ls[1..])
  }

  predicate Stops(ls: seq<Line>) {
    exists l :: l in ls && l.event.Stop?
  }

  function LinesFrames(a: Attempt, ls: seq<Line>): seq<Frame> {
    if ls == [] then []
    else if ls[0].event.Stop? then Waits(ls[0].waits)
    else LineFrames(a, ls[0]) + LinesFrames(a, ls[1..])
  }

  function BodyFrames(a: Attempt, b: Body): seq<Frame> {
    match b
    case Plain(c) => if c != "" then [Content(a, c)] else []
    case Lines(ls, n, _) => LinesFrames(a, ls) + (if Stops(ls) then [] else Waits(n))
    case _ => []
  }

  function AttemptFrames(a: Attempt, r: Response): seq<Frame> {
    [Connecting(a)] + Waits(r.waits) + BodyFrames(a, r.body)
  }

  predicate HasContent(ls: seq<Line>) {
    exists l :: l in ls && l.event.Chunk? && l.event.content != ""
  }

  /** Does the attempt yield content? */
  predicate Yields(r: Response) {
    match r.body
    case Plain(c) => c != ""
    case Lines(ls, _, _) => HasContent(Read(ls))
    case _ => false
  }

  /** Does it raise? */
  predicate Fails(r: Response) {
    r.breaks || r.body.Unreachable? || (r.body.Lines? && r.body.broken && !Stops(r.body.lines))
  }

  // ----- nested order -----

  predicate Usable(p: Provider) {
    p.hasKey && p.models > 0
  }

  function FromRoot(ps: seq<Provider>, p: nat, m: nat, r: nat): seq<Attempt>
    requires p < |ps|
    decreases ps[p].roots - r
  {
    if r < ps[p].roots then [Attempt(p, m, r)] + FromRoot(ps, p, m, r + 1) else []
  }

  function FromModel(ps: seq<Provider>, p: nat, m: nat): seq<Attempt>
    requires p < |ps|
    decreases ps[p].models - m
  {
    if m < ps[p].models then FromRoot(ps, p, m, 0) + FromModel(ps, p, m + 1) else []
  }

  function FromProvider(ps: seq<Provider>, p: nat): seq<Attempt>
    decreases |ps| - p
  {
    if p < |ps| then (if Usable(ps[p]) then FromModel(ps, p, 0) else []) + FromProvider(ps, p + 1) else []
  }

  function Plan(ps: seq<Provider>): seq<Attempt> {
    FromProvider(ps, 0)
  }

  predicate Valid(ps: seq<Provider>, a: Attempt) {
    a.provider < |ps| && Usable(ps[a.provider]) && a.model < ps[a.provider].models && a.root < ps[a.provider].roots
  }

  predicate Before(a: Attempt, b: Attempt) {
    || a.provider < b.provider
    || (a.provider == b.provider && (a.model < b.model || (a.model == b.model && a.root < b.root)))
  }

  predicate Increasing(s: seq<Attempt>) {
    forall i, j :: 0 <= i < j < |s| ==> Before(s[i], s[j])
  }

  lemma IncreasingConcat(s: seq<Attempt>, t: seq<Attempt>)
    requires Increasing(s) && Increasing(t)
    requires forall a, b :: a in s && b in t ==> Before(a, b)
    ensures Increasing(s + t)
    ensures forall a :: a in s + t <==> a in s || a in t
  {}

  lemma {:induction false} RootsInOrder(ps: seq<Provider>, p: nat, m: nat, r: nat)
    requires p < |ps|
    ensures var s := FromRoot(ps, p, m, r);
            Increasing(s) && forall a :: a in s <==> a.provider == p && a.model == m && r <= a.root < ps[p].roots
    decreases ps[p].roots - r
  {
    if r < ps[p].roots {
      RootsInOrder(ps, p, m, r + 1);
      IncreasingConcat([Attempt(p, m, r)], FromRoot(ps, p, m, r + 1));
    }
  }

  lemma {:induction false} ModelsInOrder(ps: seq<Provider>, p: nat, m: nat)
    requires p < |ps|
    ensures var s := FromModel(ps, p, m);
            && Increasing(s)
            && forall a :: a in s <==> a.provider == p && m <= a.model < ps[p].models && a.root < ps[p].roots
    decreases ps[p].models - m
  {
    if m < ps[p].models {
      RootsInOrder(ps, p, m, 0);
      ModelsInOrder(ps, p, m + 1);
      IncreasingConcat(FromRoot(ps, p, m, 0), FromModel(ps, p, m + 1));
    }
  }

  lemma {:induction false} ProvidersInOrder(ps: seq<Provider>, p: nat)
    ensures var s := FromProvider(ps, p);
            Increasing(s) && forall a :: a in s <==> p <= a.provider && Valid(ps, a)
    decreases |ps| - p
  {
    if p < |ps| {
      if Usable(ps[p]) {
        ModelsInOrder(ps, p, 0);
      }
      ProvidersInOrder(ps, p + 1);
      IncreasingConcat(if Usable(ps[p]) then FromModel(ps, p, 0) else [], FromProvider(ps, p + 1));
    }
  }

  /** The plan lists every configured attempt once, providers first, then models, then roots. */
  lemma PlanIsNestedOrder(ps: seq<Provider>)
    ensures Increasing(Plan(ps))
    ensures forall a :: a in Plan(ps) <==> Valid(ps, a)
  {
    ProvidersInOrder(ps, 0);
  }

  // ----- the stream -----

  /** What an attempt shows, with the closing frames if it answered. */
  function Shown(a: Attempt, r: Response): seq<Frame> {
    AttemptFrames(a, r) + (if !Yields(r) then [] else if Fails(r) then [Error, End] else [DoneBy(Some(a)), End])
  }

  function Stream(plan: seq<Attempt>, up: Upstream): seq<Frame> {
    if plan == [] then [Error, End]
    else Shown(plan[0], up(plan[0])) + (if Yields(up(plan[0])) then [] else Stream(plan[1..], up))
  }

  function Contents(fs: seq<Frame>): seq<Frame> {
    if fs == [] then []
    else (if fs[0].Content? || fs[0].Spoken? then [fs[0]] else []) + Contents(fs[1..])
  }

  function Contacted(fs: seq<Frame>): seq<Attempt> {
    if fs == [] then []
    else (if fs[0].Connecting? then [fs[0].attempt] else []) + Contacted(fs[1..])
  }

  lemma {:induction false} ProjectionsOfConcat(fs: seq<Frame>, gs: seq<Frame>)
    ensures Contents(fs + gs) == Contents(fs) + Contents(gs)
    ensures Contacted(fs + gs) == Contacted(fs) + Contacted(gs)
  {
    if fs == [] {
      assert fs + gs == gs;
    } else {
      var rest := fs[1..];
      var said := if fs[0].Content? || fs[0].Spoken? then [fs[0]] else [];
      var contact := if fs[0].Connecting? then [fs[0].attempt] else [];
      assert (fs + gs)[0] == fs[0] && (fs + gs)[1..] == rest + gs;
      ProjectionsOfConcat(rest, gs);
      assert Contents(fs + gs) == said + Contents(rest + gs);
      assert Contacted(fs + gs) == contact + Contacted(rest + gs);
      Assoc(said, Contents(rest), Contents(gs));
      Assoc(contact, Contacted(rest), Contacted(gs));
    }
  }

  lemma {:induction false} WaitsSayNothing(n: nat)
    ensures Contents(Waits(n)) == [] && Contacted(Waits(n)) == []
  {
    if n > 0 {
      assert Waits(n)[1..] == Waits(n - 1);
      WaitsSayNothing(n - 1);
    }
  }

  /** What the upstream wrote as its answer, in order. */
  function Answer(r: Response): seq<string> {
    match r.body
    case Plain(c) => if c != "" then [c] else []
    case Lines(ls, _, _) => ChunkContents(Read(ls))
    case _ => []
  }

  /** The content of one line, if it has any. */
  function Said(l: Line): seq<string> {
    if l.event.Chunk? && l.event.content != "" then [l.event.content] else []
  }

  function ChunkContents(ls: seq<Line>): seq<string> {
    if ls == [] then [] else Said(ls[0]) + ChunkContents(ls[1..])
  }

  function Tagged(a: Attempt, ss: seq<string>): seq<Frame> {
    seq(|ss|, i requires 0 <= i < |ss| => Content(a, ss[i]))
  }

  lemma TaggedOfConcat(a: Attempt, s: seq<string>, t: seq<string>)
    ensures Tagged(a, s + t) == Tagged(a, s) + Tagged(a, t)
  {}

  lemma LineSays(a: Attempt, l: Line)
    ensures Contents(LineFrames(a, l)) == Tagged(a, Said(l))
    ensures Contacted(LineFrames(a, l)) == []
  {
    WaitsSayNothing(l.waits);
    if l.event.Chunk? {
      var c := l.event;
      var s1 := if c.status != "" then [Status] else [];
      var s2 := if c.reasoning != "" then [Reasoning(a, c.reasoning)] else [];
      var s3 := if c.content != "" then [Content(a, c.content)] else [];
      ProjectionsOfConcat(s1, s2);
      ProjectionsOfConcat(s1 + s2, s3);
      ProjectionsOfConcat(Waits(l.waits), ChunkFrames(a, c));
    } else {
      assert LineFrames(a, l) == Waits(l.waits);
    }
  }

  lemma ReadMore(head: Line, rest: seq<Line>)
    requires !head.event.Stop?
    ensures ChunkContents(Read([head] + rest)) == Said(head) + ChunkContents(Read(rest))
  {
    assert ([head] + rest)[1..] == rest;
    assert Read([head] + rest) == [head] + Read(rest);
    assert ([head] + Read(rest))[1..] == Read(rest);
  }

  /** What two parts say together. */
  lemma PartsSay(a: Attempt, x: seq<Frame>, y: seq<Frame>, s: seq<string>, t: seq<string>)
    requires Contents(x) == Tagged(a, s) && Contents(y) == Tagged(a, t) && Contacted(x) == [] && Contacted(y) == []
    ensures Contents(x + y) == Tagged(a, s + t) && Contacted(x + y) == []
  {
    ProjectionsOfConcat(x, y);
    TaggedOfConcat(a, s, t);
  }

  lemma MoreLinesSay(a: Attempt, head: Line, rest: seq<Line>)
    requires !head.event.Stop?
    requires Contents(LinesFrames(a, rest)) == Tagged(a, ChunkContents(Read(rest))) && Contacted(LinesFrames(a, rest)) == []
    ensures var ls := [head] + rest;
            Contents(LinesFrames(a, ls)) == Tagged(a, ChunkContents(Read(ls))) && Contacted(LinesFrames(a, ls)) == []
  {
    FirstFrames(a, head, rest);
    LineSays(a, head);
    ReadMore(head, rest);
    PartsSay(a, LineFrames(a, head), LinesFrames(a, rest), Said(head), ChunkContents(Read(rest)));
  }

  lemma FirstFrames(a: Attempt, l: Line, rest: seq<Line>)
    ensures LinesFrames(a, [l] + rest) == if l.event.Stop? then Waits(l.waits) else LineFrames(a, l) + LinesFrames(a, rest)
  {
    assert ([l] + rest)[1..] == rest;
  }

  lemma {:induction false} LinesSay(a: Attempt, ls: seq<Line>)
    ensures Contents(LinesFrames(a, ls)) == Tagged(a, ChunkContents(Read(ls)))
    ensures Contacted(LinesFrames(a, ls)) == []
  {
    if ls != [] {
      if ls[0].event.Stop? {
        WaitsSayNothing(ls[0].waits);
        assert Read(ls) == [ls[0]] && ChunkContents([ls[0]]) == [];
      } else {
        LinesSay(a, ls[1..]);
        MoreLinesSay(a, ls[0], ls[1..]);
        assert ls == [ls[0]] + ls[1..];
      }
    }
  }

  /** An attempt contacts its upstream once, and passes on its answer as it is. */
  lemma AttemptSays(a: Attempt, r: Response)
    ensures Contents(AttemptFrames(a, r)) == Tagged(a, Answer(r))
    ensures Contacted(AttemptFrames(a, r)) == [a]
  {
    WaitsSayNothing(r.waits);
    if r.body.Lines? {
      LinesSay(a, r.body.lines);
      WaitsSayNothing(r.body.lastWaits);
      ProjectionsOfConcat(LinesFrames(a, r.body.lines), if Stops(r.body.lines) then [] else Waits(r.body.lastWaits));
    }
    ProjectionsOfConcat([Connecting(a)], Waits(r.waits));
    ProjectionsOfConcat([Connecting(a)] + Waits(r.waits), BodyFrames(a, r.body));
  }

  lemma {:induction false} SomeChunkMeansAnswer(ls: seq<Line>)
    ensures ChunkContents(ls) != [] <==> HasContent(ls)
  {
    if ls != [] {
      SomeChunkMeansAnswer(ls[1..]);
      assert ls == [ls[0]] + ls[1..];
    }
  }

  lemma YieldsMeansAnswer(r: Response)
    ensures Yields(r) <==> Answer(r) != []
  {
    if r.body.Lines? {
      SomeChunkMeansAnswer(Read(r.body.lines));
    }
  }

  /** The first attempt whose upstream answers with content; the length of the plan if there is none. */
  function FirstAnswer(plan: seq<Attempt>, up: Upstream): nat {
    if plan == [] || Answer(up(plan[0])) != [] then 0 else 1 + FirstAnswer(plan[1..], up)
  }

  lemma {:induction false} FirstAnswerIsFirst(plan: seq<Attempt>, up: Upstream)
    ensures FirstAnswer(plan, up) <= |plan|
    ensures forall i :: 0 <= i < FirstAnswer(plan, up) ==> Answer(up(plan[i])) == []
    ensures FirstAnswer(plan, up) < |plan| ==> Answer(up(plan[FirstAnswer(plan, up)])) != []
  {
    if plan != [] && Answer(up(plan[0])) == [] {
      FirstAnswerIsFirst(plan[1..], up);
    }
  }

  /** How the stream ends: two closing frames, and none of them before. */
  predicate EndsOnce(fs: seq<Frame>) {
    && |fs| >= 2 && fs[|fs| - 1].End? && (fs[|fs| - 2].DoneBy? || fs[|fs| - 2].Error?)
    && forall i :: 0 <= i < |fs| - 2 ==> !fs[i].End? && !fs[i].DoneBy? && !fs[i].Error?
  }

  predicate Open(fs: seq<Frame>) {
    forall i :: 0 <= i < |fs| ==> !fs[i].End? && !fs[i].DoneBy? && !fs[i].Error?
  }

  lemma {:induction false} LinesAreOpen(a: Attempt, ls: seq<Line>)
    ensures Open(LinesFrames(a, ls))
  {
    if ls != [] {
      LinesAreOpen(a, ls[1..]);
    }
  }

  lemma AttemptIsOpen(a: Attempt, r: Response)
    ensures Open(AttemptFrames(a, r))
  {
    if r.body.Lines? {
      LinesAreOpen(a, r.body.lines);
    }
  }

  lemma OpenThenEnds(fs: seq<Frame>, gs: seq<Frame>)
    requires Open(fs) && EndsOnce(gs)
    ensures EndsOnce(fs + gs)
  {}

  /** The stream says this, contacts these and closes with this frame. */
  ghost predicate Told(fs: seq<Frame>, said: seq<Frame>, contacted: seq<Attempt>, last: Frame) {
    EndsOnce(fs) && Contents(fs) == said && Contacted(fs) == contacted && fs[|fs| - 2] == last
  }

  /** What a stream over a plan says when `k` is the first attempt with an answer. */
  ghost predicate OneStory(fs: seq<Frame>, k: nat, plan: seq<Attempt>, up: Upstream) {
    && k <= |plan|
    && if k == |plan| then Told(fs, [], plan, Error)
       else Told(fs, Tagged(plan[k], Answer(up(plan[k]))), plan[..k + 1], if Fails(up(plan[k])) then Error else DoneBy(Some(plan[k])))
  }

  lemma ClosingSaysNothing(f: Frame)
    requires f.Error? || f.DoneBy?
    ensures Contents([f, End]) == [] && Contacted([f, End]) == [] && EndsOnce([f, End])
  {
    assert [f, End][1..] == [End] && [End][1..] == [];
    assert Contents([End]) == [] && Contacted([End]) == [];
  }

  lemma AnswerEndsStory(plan: seq<Attempt>, up: Upstream)
    requires plan != [] && Answer(up(plan[0])) != []
    ensures OneStory(Stream(plan, up), 0, plan, up)
  {
    var a := plan[0];
    YieldsMeansAnswer(up(a));
    assert Stream(plan, up) == Shown(a, up(a));
    AnswerIsShown(a, up(a));
    assert plan[..1] == [a];
  }

  lemma AnswerIsShown(a: Attempt, r: Response)
    requires Yields(r)
    ensures var fs := Shown(a, r);
            && EndsOnce(fs) && Contents(fs) == Tagged(a, Answer(r)) && Contacted(fs) == [a]
            && fs[|fs| - 2] == if Fails(r) then Error else DoneBy(Some(a))
  {
    var head, last := AttemptFrames(a, r), if Fails(r) then Error else DoneBy(Some(a));
    AttemptSays(a, r);
    AttemptIsOpen(a, r);
    ClosingSaysNothing(last);
    OpenThenEnds(head, [last, End]);
    ProjectionsOfConcat(head, [last, End]);
    assert Shown(a, r) == head + [last, End];
  }

  lemma SilentStream(plan: seq<Attempt>, up: Upstream)
    requires plan != [] && Answer(up(plan[0])) == []
    ensures Stream(plan, up) == AttemptFrames(plan[0], up(plan[0])) + Stream(plan[1..], up)
  {
    YieldsMeansAnswer(up(plan[0]));
    assert Shown(plan[0], up(plan[0])) == AttemptFrames(plan[0], up(plan[0]));
  }

  lemma SilenceGoesOn(plan: seq<Attempt>, up: Upstream, k: nat)
    requires plan != [] && Answer(up(plan[0])) == [] && OneStory(Stream(plan[1..], up), k, plan[1..], up)
    ensures OneStory(Stream(plan, up), k + 1, plan, up)
  {
    var a, rest := plan[0], plan[1..];
    var head, tail := AttemptFrames(a, up(a)), Stream(rest, up);
    SilentStream(plan, up);
    SilentHead(a, up(a), tail);
    assert plan == [a] + rest;
    StoryExtends(head + tail, tail, a, rest, k, up);
  }

  lemma StoryExtends(fs: seq<Frame>, tail: seq<Frame>, a: Attempt, rest: seq<Attempt>, k: nat, up: Upstream)
    requires OneStory(tail, k, rest, up)
    requires forall said, contacted, last ::
               Told(tail, said, contacted, last) ==> Told(fs, said, [a] + contacted, last)
    ensures OneStory(fs, k + 1, [a] + rest, up)
  {
    var plan := [a] + rest;
    if k < |rest| {
      assert plan[k + 1] == rest[k];
      assert plan[..k + 2] == [a] + rest[..k + 1];
    }
  }

  lemma SilentHead(a: Attempt, r: Response, tail: seq<Frame>)
    requires Answer(r) == [] && EndsOnce(tail)
    ensures var fs := AttemptFrames(a, r) + tail;
            forall said, contacted, last :: Told(tail, said, contacted, last) ==> Told(fs, said, [a] + contacted, last)
  {
    var head := AttemptFrames(a, r);
    AttemptSays(a, r);
    AttemptIsOpen(a, r);
    OpenThenEnds(head, tail);
    ProjectionsOfConcat(head, tail);
  }

  /**
   No splicing, for every plan and every behaviour of the upstreams. All content comes from the first attempt that has
   any, unchanged and complete up to a failure; the attempts up to it are contacted in order and none after it; the
   stream ends once, with `done` for that attempt exactly when it does not fail.
   */
  lemma StreamTellsOneStory(plan: seq<Attempt>, up: Upstream)
    ensures var k := FirstAnswer(plan, up);
            && OneStory(Stream(plan, up), k, plan, up)
            && (forall i :: 0 <= i < k ==> Answer(up(plan[i])) == [])
            && (k < |plan| ==> Answer(up(plan[k])) != [])
  {
    PlanTellsOneStory(plan, up);
    FirstAnswerIsFirst(plan, up);
  }

  lemma {:induction false} PlanTellsOneStory(plan: seq<Attempt>, up: Upstream)
    ensures OneStory(Stream(plan, up), FirstAnswer(plan, up), plan, up)
  {
    if plan == [] {
      ClosingSaysNothing(Error);
    } else if Answer(up(plan[0])) != [] {
      AnswerEndsStory(plan, up);
    } else {
      PlanTellsOneStory(plan[1..], up);
      SilenceGoesOn(plan, up, FirstAnswer(plan[1..], up));
    }
  }

  /** What the first of some lines contributes. */
  lemma FirstLine(a: Attempt, l: Line, rest: seq<Line>)
    ensures var ls := [l] + rest;
            && Stops(ls) == (l.event.Stop? || Stops(rest))
            && LinesFrames(a, ls) == (if l.event.Stop? then Waits(l.waits) else LineFrames(a, l) + LinesFrames(a, rest))
            && HasContent(Read(ls)) == if l.event.Stop? then false
                                       else (l.event.Chunk? && l.event.content != "") || HasContent(Read(rest))
  {
    var ls := [l] + rest;
    assert ls[0] == l && ls[1..] == rest;
    if l.event.Stop? {
      assert Read(ls) == [l];
    } else {
      assert Read(ls) == [l] + Read(rest);
    }
  }

  // ----- parts of a plan -----

  /** The frames of a part of the plan, with the closing frames if one of its attempts answers. */
  function Tried(plan: seq<Attempt>, up: Upstream): seq<Frame> {
    if plan == [] then []
    else Shown(plan[0], up(plan[0])) + (if Yields(up(plan[0])) then [] else Tried(plan[1..], up))
  }

  predicate Settled(plan: seq<Attempt>, up: Upstream) {
    plan != [] && (Yields(up(plan[0])) || Settled(plan[1..], up))
  }

  lemma TriedFirst(a: Attempt, rest: seq<Attempt>, up: Upstream)
    ensures Tried([a] + rest, up) == Shown(a, up(a)) + (if Yields(up(a)) then [] else Tried(rest, up))
    ensures Settled([a] + rest, up) <==> Yields(up(a)) || Settled(rest, up)
  {
    assert ([a] + rest)[1..] == rest;
  }

  /** Emitting the frames of a part leaves the frames of the other part to be emitted. */
  lemma Emitted(before: seq<Frame>, part: seq<Frame>, rest: seq<Frame>)
    ensures before + (part + rest) == (before + part) + rest
  {}

  lemma {:induction false} TriedOfConcat(plan: seq<Attempt>, rest: seq<Attempt>, up: Upstream)
    ensures Tried(plan + rest, up) == Tried(plan, up) + (if Settled(plan, up) then [] else Tried(rest, up))
    ensures Settled(plan + rest, up) <==> Settled(plan, up) || Settled(rest, up)
  {
    if plan == [] {
      assert plan + rest == rest;
    } else {
      assert (plan + rest)[1..] == plan[1..] + rest;
      TriedOfConcat(plan[1..], rest, up);
    }
  }

  lemma {:induction false} StreamIsTried(plan: seq<Attempt>, up: Upstream)
    ensures Stream(plan, up) == Tried(plan, up) + (if Settled(plan, up) then [] else [Error, End])
  {
    if plan != [] {
      StreamIsTried(plan[1..], up);
    }
  }

  // ----- routes -----

  datatype Route = TextRoute | VisionRoute | ImageRoute | AudioRoute

  /** The specialised router: is a model configured, heartbeats, and its result. */
  datatype Special = Special(available: bool, waits: nat, ok: bool, media: nat, content: string)

  /** A request: frames of the preparation, the detected route, and whether audio is attached. */
  datatype Asked = Asked(prepared: nat, route: Route, explicit: bool, audio: bool, special: Special)

  function Medias(n: nat): seq<Frame> {
    seq(n, _ => Media)
  }

  function Failure(report: bool, fallback: seq<Frame>): seq<Frame> {
    if report then [Error, End] else fallback
  }

  /** `_emit_specialized`. */
  function SpecialFrames(q: Asked): seq<Frame>
    requires q.route.ImageRoute? || q.route.AudioRoute?
  {
    var sp, image := q.special, q.route.ImageRoute?;
    if !sp.available then Failure(q.explicit || (!image && q.audio), [])
    else
      var asked := [Status] + (if image then Waits(sp.waits) else []);
      if sp.ok then asked + Medias(sp.media) + (if sp.content != "" then [Spoken(sp.content)] else []) + [DoneBy(None), End]
      else asked + Failure(q.explicit || q.audio, if image then [Status] else [])
  }

  predicate Completed(fs: seq<Frame>) {
    exists f :: f in fs && (f.DoneBy? || f.End?)
  }

  /** The whole stream of `generate`. */
  function Generated(q: Asked, ps: seq<Provider>, up: Upstream): seq<Frame> {
    var head := Waits(q.prepared);
    if q.route.TextRoute? || q.route.VisionRoute? then head + Stream(Plan(ps), up)
    else
      var special := SpecialFrames(q);
      if Completed(special) || q.explicit || q.audio then head + special
      else head + special + (if q.route.AudioRoute? then [Status] else []) + Stream(Plan(ps), up)
  }

  /** An implicit image request with audio attached and no image model: the only request whose stream is left open. */
  predicate LeftOpen(q: Asked) {
    q.route.ImageRoute? && !q.explicit && q.audio && !q.special.available
  }

  lemma WaitsAreOpen(n: nat)
    ensures Open(Waits(n)) && Open(Medias(n))
  {}

  lemma OpenConcat(fs: seq<Frame>, gs: seq<Frame>)
    requires Open(fs) && Open(gs)
    ensures Open(fs + gs)
  {}

  lemma SpecialSucceeds(q: Asked)
    requires (q.route.ImageRoute? || q.route.AudioRoute?) && q.special.available && q.special.ok
    ensures Completed(SpecialFrames(q)) && EndsOnce(SpecialFrames(q))
  {
    var sp, fs := q.special, SpecialFrames(q);
    var asked := [Status] + (if q.route.ImageRoute? then Waits(sp.waits) else []);
    var told := asked + Medias(sp.media) + (if sp.content != "" then [Spoken(sp.content)] else []);
    WaitsAreOpen(sp.waits);
    WaitsAreOpen(sp.media);
    OpenThenEnds(told, [DoneBy(None), End]);
    assert fs == told + [DoneBy(None), End] && fs[|fs| - 1] == End;
  }

  function SpecialAsked(q: Asked): seq<Frame> {
    [Status] + (if q.route.ImageRoute? then Waits(q.special.waits) else [])
  }

  lemma AskedSaysNothing(q: Asked)
    ensures Open(SpecialAsked(q)) && Contents(SpecialAsked(q)) == []
  {
    WaitsAreOpen(q.special.waits);
    WaitsSayNothing(q.special.waits);
    ProjectionsOfConcat([Status], if q.route.ImageRoute? then Waits(q.special.waits) else []);
  }

  lemma SpecialFails(q: Asked)
    requires (q.route.ImageRoute? || q.route.AudioRoute?) && q.special.available && !q.special.ok
    ensures var fs := SpecialFrames(q);
            if q.explicit || q.audio then Completed(fs) && EndsOnce(fs) else !Completed(fs) && Open(fs) && Contents(fs) == []
  {
    var asked, fs := SpecialAsked(q), SpecialFrames(q);
    AskedSaysNothing(q);
    if q.explicit || q.audio {
      assert fs == asked + [Error, End] && fs[|fs| - 1] == End;
      OpenThenEnds(asked, [Error, End]);
    } else {
      var fallback := if q.route.ImageRoute? then [Status] else [];
      assert fs == asked + fallback;
      ProjectionsOfConcat(asked, fallback);
      OpenConcat(asked, fallback);
    }
  }

  lemma SpecialEndsOrStaysOpen(q: Asked)
    requires q.route.ImageRoute? || q.route.AudioRoute?
    ensures var fs := SpecialFrames(q);
            if Completed(fs) then EndsOnce(fs) else Open(fs) && Contents(fs) == []
    ensures q.explicit || q.audio ==> (Completed(SpecialFrames(q)) <==> !LeftOpen(q))
  {
    if q.special.available && q.special.ok {
      SpecialSucceeds(q);
    } else if q.special.available {
      SpecialFails(q);
    } else {
      var fs := SpecialFrames(q);
      assert fs == [Error, End] || fs == [];
      assert fs == [Error, End] ==> fs[1] == End;
    }
  }

  /** Every stream ends once, with its closing frames last, unless it is left open as described. */
  lemma StreamEndsExactly(q: Asked, ps: seq<Provider>, up: Upstream)
    ensures EndsOnce(Generated(q, ps, up)) <==> !LeftOpen(q)
  {
    var head := Waits(q.prepared);
    WaitsAreOpen(q.prepared);
    StreamTellsOneStory(Plan(ps), up);
    if q.route.TextRoute? || q.route.VisionRoute? {
      OpenThenEnds(head, Stream(Plan(ps), up));
    } else {
      var special := SpecialFrames(q);
      SpecialEndsOrStaysOpen(q);
      if Completed(special) {
        OpenThenEnds(head, special);
      } else if q.explicit || q.audio {
        OpenConcat(head, special);
      } else {
        var more := if q.route.AudioRoute? then [Status] else [];
        OpenConcat(head, special);
        OpenConcat(head + special, more);
        OpenThenEnds(head + special + more, Stream(Plan(ps), up));
      }
    }
  }

  predicate UsesLoops(q: Asked) {
    || q.route.TextRoute? || q.route.VisionRoute?
    || (!Completed(SpecialFrames(q)) && !q.explicit && !q.audio)
  }

  /** A whole stream takes its content from the loops alone, or from the specialised model alone. */
  lemma ContentHasOneSource(q: Asked, ps: seq<Provider>, up: Upstream)
    ensures var fs := Generated(q, ps, up);
            if UsesLoops(q) then Contents(fs) == Contents(Stream(Plan(ps), up)) && Contacted(fs) == Contacted(Stream(Plan(ps), up))
            else Contents(fs) == Contents(SpecialFrames(q)) && Contacted(fs) == []
  {
    var head, loops := Waits(q.prepared), Stream(Plan(ps), up);
    WaitsSayNothing(q.prepared);
    if q.route.TextRoute? || q.route.VisionRoute? {
      ProjectionsOfConcat(head, loops);
    } else {
      var special := SpecialFrames(q);
      var more := if q.route.AudioRoute? then [Status] else [];
      SpecialEndsOrStaysOpen(q);
      SpecialContactsNobody(q);
      ProjectionsOfConcat(head, special);
      if UsesLoops(q) {
        ProjectionsOfConcat(head + special, more);
        ProjectionsOfConcat(head + special + more, loops);
      }
    }
  }

  lemma {:induction false} NobodyContacted(fs: seq<Frame>)
    requires forall f :: f in fs ==> !f.Connecting?
    ensures Contacted(fs) == []
  {
    if fs != [] {
      NobodyContacted(fs[1..]);
    }
  }

  lemma SpecialContactsNobody(q: Asked)
    requires q.route.ImageRoute? || q.route.AudioRoute?
    ensures Contacted(SpecialFrames(q)) == []
  {
    NobodyContacted(SpecialFrames(q));
  }

  // ----- the generator -----

  class Generator {
    var frames: seq<Frame>
    var errors: nat

    constructor ()
      ensures frames == [] && errors == 0
    {
      frames, errors := [], 0;
    }

    method Wait(n: nat)
      modifies this
      ensures frames == old(frames) + Waits(n) && errors == old(errors)
    {
      for i := 0 to n
        invariant frames == old(frames) + Waits(i) && errors == old(errors)
      {
        frames := frames + [Status];
      }
    }

    /** One event line. True at the end marker. */
    method Follow(a: Attempt, l: Line) returns (content: bool, stop: bool)
      modifies this
      ensures stop == l.event.Stop? && errors == old(errors)
      ensures frames == old(frames) + (if stop then Waits(l.waits) else LineFrames(a, l))
      ensures content == (l.event.Chunk? && l.event.content != "")
    {
      Wait(l.waits);
      content, stop := false, l.event.Stop?;
      if l.event.Chunk? {
        var part := [];
        if l.event.status != "" {
          part := part + [Status];
        }
        if l.event.reasoning != "" {
          part := part + [Reasoning(a, l.event.reasoning)];
        }
        if l.event.content != "" {
          content, part := true, part + [Content(a, l.event.content)];
        }
        assert part == ChunkFrames(a, l.event);
        frames := frames + part;
        Emitted(old(frames), Waits(l.waits), part);
      }
    }

    /** The event lines of one response, up to the end marker. */
    method FollowLines(a: Attempt, ls: seq<Line>) returns (answerSeen: bool, stopped: bool)
      modifies this
      ensures frames == old(frames) + LinesFrames(a, ls) && errors == old(errors)
      ensures stopped == Stops(ls)
      ensures answerSeen == HasContent(Read(ls))
    {
      answerSeen, stopped := false, false;
      var i := 0;
      while i < |ls| && !stopped
        invariant 0 <= i <= |ls| && errors == old(errors)
        invariant frames + (if stopped then [] else LinesFrames(a, ls[i..])) == old(frames) + LinesFrames(a, ls)
        invariant Stops(ls) == (stopped || Stops(ls[i..]))
        invariant HasContent(Read(ls)) == (answerSeen || (!stopped && HasContent(Read(ls[i..]))))
        decreases |ls| - i, !stopped
      {
        ghost var before, rest := frames, ls[i + 1..];
        ghost var todo := LinesFrames(a, rest);
        FirstLine(a, ls[i], rest);
        assert ls[i..] == [ls[i]] + rest;
        Emitted(before, LineFrames(a, ls[i]), todo);
        var content;
        content, stopped := Follow(a, ls[i]);
        assert !stopped ==> frames + todo == before + LinesFrames(a, ls[i..]);
        answerSeen := answerSeen || content;
        i := i + 1;
      }
    }

    method FollowStream(a: Attempt, ls: seq<Line>, lastWaits: nat, broken: bool) returns (answerSeen: bool, cut: bool)
      modifies this
      ensures frames == old(frames) + BodyFrames(a, Lines(ls, lastWaits, broken)) && errors == old(errors)
      ensures answerSeen == HasContent(Read(ls))
      ensures cut == (broken && !Stops(ls))
    {
      var stopped;
      answerSeen, stopped := FollowLines(a, ls);
      cut := broken && !stopped;
      if !stopped {
        Wait(lastWaits);
      }
    }

    /** One attempt. `answerSeen` and whether it raised. */
    method Try(a: Attempt, r: Response) returns (answerSeen: bool, raised: bool)
      modifies this
      ensures frames == old(frames) + AttemptFrames(a, r) && errors == old(errors)
      ensures answerSeen == Yields(r) && raised == Fails(r)
    {
      frames := frames + [Connecting(a)];
      Wait(r.waits);
      answerSeen, raised := false, r.breaks;
      match r.body {
        case Unreachable => raised := true;
        case HttpError =>
        case Unparsable =>
        case Plain(content) =>
          if content != "" {
            answerSeen, frames := true, frames + [Content(a, content)];
          }
        case Lines(lines, lastWaits, broken) =>
          var cut;
          answerSeen, cut := FollowStream(a, lines, lastWaits, broken);
          raised := raised || cut;
      }
    }

    /** The loop over the roots of one model. True when the stream is closed. */
    method TryRoots(ps: seq<Provider>, p: nat, m: nat, up: Upstream) returns (closed: bool)
      requires p < |ps|
      modifies this
      ensures frames == old(frames) + Tried(FromRoot(ps, p, m, 0), up) && closed == Settled(FromRoot(ps, p, m, 0), up)
    {
      ghost var plan := FromRoot(ps, p, m, 0);
      var r := 0;
      while r < ps[p].roots
        invariant 0 <= r <= ps[p].roots
        invariant frames + Tried(FromRoot(ps, p, m, r), up) == old(frames) + Tried(plan, up)
        invariant Settled(FromRoot(ps, p, m, r), up) == Settled(plan, up)
      {
        var a := Attempt(p, m, r);
        ghost var before, rest := frames, FromRoot(ps, p, m, r + 1);
        assert FromRoot(ps, p, m, r) == [a] + rest;
        TriedFirst(a, rest, up);
        Emitted(before, Shown(a, up(a)), if Yields(up(a)) then [] else Tried(rest, up));
        closed := TryOne(a, up(a));
        if closed {
          return;
        }
        r := r + 1;
      }
      closed := false;
    }

    /** One attempt and, if it answered, the closing frames. */
    method TryOne(a: Attempt, r: Response) returns (closed: bool)
      modifies this
      ensures closed == Yields(r)
      ensures frames == old(frames) + Shown(a, r)
    {
      var raised;
      closed, raised := Try(a, r);
      if closed {
        frames := frames + [if raised then Error else DoneBy(Some(a))];
        frames := frames + [End];
      } else {
        errors := errors + 1;
      }
    }

    method TryModels(ps: seq<Provider>, p: nat, up: Upstream) returns (closed: bool)
      requires p < |ps|
      modifies this
      ensures frames == old(frames) + Tried(FromModel(ps, p, 0), up) && closed == Settled(FromModel(ps, p, 0), up)
    {
      ghost var plan := FromModel(ps, p, 0);
      var m := 0;
      while m < ps[p].models
        invariant 0 <= m <= ps[p].models
        invariant frames + Tried(FromModel(ps, p, m), up) == old(frames) + Tried(plan, up)
        invariant Settled(FromModel(ps, p, m), up) == Settled(plan, up)
      {
        ghost var before, part, rest := frames, FromRoot(ps, p, m, 0), FromModel(ps, p, m + 1);
        assert FromModel(ps, p, m) == part + rest;
        TriedOfConcat(part, rest, up);
        Emitted(before, Tried(part, up), if Settled(part, up) then [] else Tried(rest, up));
        closed := TryRoots(ps, p, m, up);
        if closed {
          return;
        }
        m := m + 1;
      }
      closed := false;
    }

    method TryProviders(ps: seq<Provider>, up: Upstream) returns (closed: bool)
      modifies this
      ensures frames == old(frames) + Tried(Plan(ps), up) && closed == Settled(Plan(ps), up)
    {
      var p := 0;
      while p < |ps|
        invariant 0 <= p <= |ps|
        invariant frames + Tried(FromProvider(ps, p), up) == old(frames) + Tried(Plan(ps), up)
        invariant Settled(FromProvider(ps, p), up) == Settled(Plan(ps), up)
      {
        if Usable(ps[p]) {
          ghost var before, part, rest := frames, FromModel(ps, p, 0), FromProvider(ps, p + 1);
          assert FromProvider(ps, p) == part + rest;
          TriedOfConcat(part, rest, up);
          Emitted(before, Tried(part, up), if Settled(part, up) then [] else Tried(rest, up));
          closed := TryModels(ps, p, up);
          if closed {
            return;
          }
        } else {
          assert FromProvider(ps, p) == FromProvider(ps, p + 1);
          errors := errors + 1;
        }
        p := p + 1;
      }
      closed := false;
    }

    /** The nested loops, and the closing frames when every attempt stayed silent. */
    method Failover(ps: seq<Provider>, up: Upstream)
      modifies this
      ensures frames == old(frames) + Stream(Plan(ps), up)
    {
      StreamIsTried(Plan(ps), up);
      var closed := TryProviders(ps, up);
      if !closed {
        frames := frames + [Error, End];
      }
    }

    /** `_emit_specialized`. */
    method EmitSpecialized(q: Asked)
      requires q.route.ImageRoute? || q.route.AudioRoute?
      modifies this
      ensures frames == old(frames) + SpecialFrames(q) && errors == old(errors)
    {
      var sp, image := q.special, q.route.ImageRoute?;
      if !sp.available {
        if q.explicit || (!image && q.audio) {
          frames := frames + [Error, End];
        }
        return;
      }
      frames := frames + [Status];
      if image {
        Wait(sp.waits);
      }
      if sp.ok {
        frames := frames + Medias(sp.media);
        if sp.content != "" {
          frames := frames + [Spoken(sp.content)];
        }
        frames := frames + [DoneBy(None), End];
      } else if q.explicit || q.audio {
        frames := frames + [Error, End];
      } else if image {
        frames := frames + [Status];
      }
    }

    method Generate(q: Asked, ps: seq<Provider>, up: Upstream)
      modifies this
      ensures frames == old(frames) + Generated(q, ps, up)
    {
      Wait(q.prepared);
      if q.route.TextRoute? || q.route.VisionRoute? {
        Failover(ps, up);
        Emitted(old(frames), Waits(q.prepared), Stream(Plan(ps), up));
        return;
      }
      var before := |frames|;
      EmitSpecialized(q);
      var special := frames[before..];
      assert special == SpecialFrames(q);
      ghost var more := if q.route.AudioRoute? then [Status] else [];
      assert frames == old(frames) + (Waits(q.prepared) + special);
      if Completed(special) || q.explicit || q.audio {
        return;
      }
      if q.route.AudioRoute? {
        frames := frames + [Status];
      }
      assert frames == old(frames) + (Waits(q.prepared) + special + more);
      Failover(ps, up);
      Emitted(old(frames), Waits(q.prepared) + special + more, Stream(Plan(ps), up));
    }
  }
}
