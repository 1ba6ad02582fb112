/**
 What reaches the browser, read off the upstreams' own answers: the letters that are shown, in order, and the frame
 that closes the stream (`server/app/client_ai.py`).
 */
module FailoverAnswers {
  import opened Common
  import opened Failover

  // ----- what an upstream does -----

  /** Line `i` brings content, and no end marker came before it. */
  predicate SaysAt(ls: seq<Line>, i: nat) {
    && i < |ls| && ls[i].event.Chunk? && ls[i].event.content != ""
    && forall j :: 0 <= j < i ==> !ls[j].event.Stop?
  }

  ghost predicate Answers(r: Response) {
    match r.body
    case Plain(content) => content != ""
    case Lines(lines, _, _) => exists i: nat :: SaysAt(lines, i)
    case _ => false
  }

  /** The connection breaks before any end marker, or something raises after the body was read. */
  predicate Breaks(r: Response) {
    || r.breaks
    || (r.body.Lines? && r.body.broken && forall i :: 0 <= i < |r.body.lines| ==> !r.body.lines[i].event.Stop?)
  }

  /** `k` is the first attempt of the plan whose upstream answers; the length of the plan if none does. */
  ghost predicate IsFirst(plan: seq<Attempt>, up: Upstream, k: nat) {
    && k <= |plan|
    && (forall i :: 0 <= i < k ==> !Answers(up(plan[i])))
    && (k < |plan| ==> Answers(up(plan[k])))
  }

  /** A letter on the screen: which upstream wrote it, and whether as reasoning. */
  datatype Letter = Letter(attempt: Attempt, reasoning: bool, letter: char)

  function Letters(a: Attempt, reasoning: bool, text: string): seq<Letter> {
    seq(|text|, i requires 0 <= i < |text| => Letter(a, reasoning, text[i]))
  }

  function WrittenLines(a: Attempt, ls: seq<Line>): seq<Letter> {
    if ls == [] || ls[0].event.Stop? then [] else WrittenLine(a, ls[0]) + WrittenLines(a, ls[1..])
  }

  function WrittenLine(a: Attempt, l: Line): seq<Letter> {
    if l.event.Chunk? then Letters(a, true, l.event.reasoning) + Letters(a, false, l.event.content) else []
  }

  /** All that an upstream writes up to its end marker: reasoning and content, chunk by chunk. */
  function WrittenBody(a: Attempt, b: Body): seq<Letter> {
    match b
    case Plain(content) => Letters(a, false, content)
    case Lines(lines, _, _) => WrittenLines(a, lines)
    case _ => []
  }

  function WrittenBy(plan: seq<Attempt>, up: Upstream): seq<Letter> {
    if plan == [] then [] else WrittenBody(plan[0], up(plan[0]).body) + WrittenBy(plan[1..], up)
  }

  /** What the frames put on the screen. */
  function Screen(fs: seq<Frame>): seq<Letter> {
    if fs == [] then [] else ScreenOf(fs[0]) + Screen(fs[1..])
  }

  function ScreenOf(f: Frame): seq<Letter> {
    match f
    case Reasoning(a, delta) => Letters(a, true, delta)
    case Content(a, delta) => Letters(a, false, delta)
    case _ => []
  }

  // ----- letters -----

  lemma {:induction false} ScreenOfConcat(fs: seq<Frame>, gs: seq<Frame>)
    ensures Screen(fs + gs) == Screen(fs) + Screen(gs)
  {
    if fs == [] {
      assert fs + gs == gs;
    } else {
      assert (fs + gs)[0] == fs[0] && (fs + gs)[1..] == fs[1..] + gs;
      ScreenOfConcat(fs[1..], gs);
      Assoc(ScreenOf(fs[0]), Screen(fs[1..]), Screen(gs));
    }
  }

  lemma {:induction false} BlankScreen(fs: seq<Frame>)
    requires forall i :: 0 <= i < |fs| ==> !fs[i].Reasoning? && !fs[i].Content?
    ensures Screen(fs) == []
  {
    if fs != [] {
      BlankScreen(fs[1..]);
    }
  }

  lemma ScreenOfOne(f: Frame)
    ensures Screen([f]) == ScreenOf(f)
  {
    assert [f][1..] == [];
    assert Screen([]) == [];
  }

  lemma ChunkIsShown(a: Attempt, c: Event)
    requires c.Chunk?
    ensures Screen(ChunkFrames(a, c)) == Letters(a, true, c.reasoning) + Letters(a, false, c.content)
  {
    var s1 := if c.status != "" then [Status] else [];
    var s2 := if c.reasoning != "" then [Reasoning(a, c.reasoning)] else [];
    var s3 := if c.content != "" then [Content(a, c.content)] else [];
    BlankScreen(s1);
    ScreenOfOne(Reasoning(a, c.reasoning));
    ScreenOfOne(Content(a, c.content));
    ScreenOfConcat(s1, s2);
    ScreenOfConcat(s1 + s2, s3);
    assert Screen(s2) == Letters(a, true, c.reasoning);
    assert Screen(s3) == Letters(a, false, c.content);
  }

  lemma LineIsShown(a: Attempt, l: Line)
    ensures Screen(LineFrames(a, l)) == WrittenLine(a, l)
  {
    BlankScreen(Waits(l.waits));
    if l.event.Chunk? {
      ChunkIsShown(a, l.event);
      ScreenOfConcat(Waits(l.waits), ChunkFrames(a, l.event));
    } else {
      assert LineFrames(a, l) == Waits(l.waits);
    }
  }

  lemma {:induction false} LinesAreShown(a: Attempt, ls: seq<Line>)
    ensures Screen(LinesFrames(a, ls)) == WrittenLines(a, ls)
  {
    if ls != [] {
      var l, rest := ls[0], ls[1..];
      assert ls == [l] + rest;
      FirstFrames(a, l, rest);
      if l.event.Stop? {
        BlankScreen(Waits(l.waits));
      } else {
        LineIsShown(a, l);
        LinesAreShown(a, rest);
        ScreenOfConcat(LineFrames(a, l), LinesFrames(a, rest));
      }
    }
  }

  lemma AttemptIsShown(a: Attempt, r: Response)
    ensures Screen(AttemptFrames(a, r)) == WrittenBody(a, r.body)
  {
    BodyIsShown(a, r.body);
    BlankScreen([Connecting(a)] + Waits(r.waits));
    ScreenOfConcat([Connecting(a)] + Waits(r.waits), BodyFrames(a, r.body));
  }

  lemma BodyIsShown(a: Attempt, b: Body)
    ensures Screen(BodyFrames(a, b)) == WrittenBody(a, b)
  {
    match b {
      case Plain(content) => ScreenOfOne(Content(a, content));
      case Lines(ls, n, _) =>
        LinesAreShown(a, ls);
        BlankScreen(Waits(n));
        ScreenOfConcat(LinesFrames(a, ls), if Stops(ls) then [] else Waits(n));
      case _ =>
    }
  }

  // ----- which attempt answers -----

  lemma {:induction false} ContentSeenExactly(ls: seq<Line>)
    ensures HasContent(Read(ls)) <==> exists i: nat :: SaysAt(ls, i)
  {
    if ls != [] {
      var l, rest := ls[0], ls[1..];
      assert ls == [l] + rest;
      FirstLine(Attempt(0, 0, 0), l, rest);
      ContentSeenExactly(rest);
      if l.event.Stop? {
        assert forall i: nat :: SaysAt(ls, i) ==> i == 0;
      } else {
        assert forall i: nat :: SaysAt(rest, i) ==> SaysAt(ls, i + 1);
        assert l.event.Chunk? && l.event.content != "" ==> SaysAt(ls, 0);
        assert forall i: nat :: SaysAt(ls, i) && i > 0 ==> SaysAt(rest, i - 1);
      }
    }
  }

  lemma YieldsExactly(r: Response)
    ensures Yields(r) <==> Answers(r)
  {
    if r.body.Lines? {
      ContentSeenExactly(r.body.lines);
    }
  }

  lemma FailsExactly(r: Response)
    requires Answers(r)
    ensures Fails(r) <==> Breaks(r)
  {
    if r.body.Lines? {
      var ls := r.body.lines;
      assert Stops(ls) <==> exists i :: 0 <= i < |ls| && ls[i].event.Stop?;
    }
  }

  // ----- the stream -----

  /** The frame before the last. */
  function Closing(fs: seq<Frame>): Frame
    requires |fs| >= 2
  {
    fs[|fs| - 2]
  }

  /** How the loops end a stream. */
  function Verdict(plan: seq<Attempt>, up: Upstream, k: nat): Frame {
    if k < |plan| && !Breaks(up(plan[k])) then DoneBy(Some(plan[k])) else Error
  }

  lemma ClosingShowsNothing(f: Frame)
    requires f.Error? || f.DoneBy?
    ensures Screen([f, End]) == []
  {
    BlankScreen([f, End]);
  }

  lemma AnswerIsWritten(a: Attempt, r: Response)
    requires Answers(r)
    ensures var fs := Shown(a, r);
            Screen(fs) == WrittenBody(a, r.body) && |fs| >= 2 && Closing(fs) == if Breaks(r) then Error else DoneBy(Some(a))
  {
    var last := if Fails(r) then Error else DoneBy(Some(a));
    YieldsExactly(r);
    FailsExactly(r);
    AttemptIsShown(a, r);
    ClosingShowsNothing(last);
    ScreenOfConcat(AttemptFrames(a, r), [last, End]);
    assert Shown(a, r) == AttemptFrames(a, r) + [last, End];
  }

  lemma WrittenByMore(a: Attempt, rest: seq<Attempt>, up: Upstream)
    ensures WrittenBy([a] + rest, up) == WrittenBody(a, up(a).body) + WrittenBy(rest, up)
  {
    assert ([a] + rest)[1..] == rest;
  }

  /** A silent attempt shows what it writes, and leaves the rest of the stream as it is. */
  lemma SilentIsWritten(plan: seq<Attempt>, up: Upstream)
    requires plan != [] && !Answers(up(plan[0])) && |Stream(plan[1..], up)| >= 2
    ensures var fs := Stream(plan, up);
            && Screen(fs) == WrittenBody(plan[0], up(plan[0]).body) + Screen(Stream(plan[1..], up))
            && |fs| >= 2 && Closing(fs) == Closing(Stream(plan[1..], up))
  {
    var a, r := plan[0], up(plan[0]);
    YieldsExactly(r);
    YieldsMeansAnswer(r);
    SilentStream(plan, up);
    AttemptIsShown(a, r);
    ScreenOfConcat(AttemptFrames(a, r), Stream(plan[1..], up));
  }

  /**
   Every letter of the attempts up to the first answer is shown as it was written, reasoning of silent attempts
   included; nothing of the later ones is; and the closing frame is `done` exactly when there is an answer that did not
   break off.
   */
  lemma {:induction false} LoopsShowWhatIsWritten(plan: seq<Attempt>, up: Upstream, k: nat)
    requires IsFirst(plan, up, k)
    ensures var fs := Stream(plan, up);
            && Screen(fs) == WrittenBy(Take(plan, k + 1), up)
            && |fs| >= 2 && Closing(fs) == Verdict(plan, up, k)
  {
    if plan == [] {
      ClosingShowsNothing(Error);
    } else {
      var a, rest := plan[0], plan[1..];
      if k == 0 {
        AnswerIsWritten(a, up(a));
        YieldsExactly(up(a));
        assert Stream(plan, up) == Shown(a, up(a));
        WrittenByMore(a, [], up);
        assert Take(plan, 1) == [a] + [];
      } else {
        RestIsFirst(plan, up, k);
        LoopsShowWhatIsWritten(rest, up, k - 1);
        SilentIsWritten(plan, up);
        WrittenByMore(a, Take(rest, k), up);
        assert Take(plan, k + 1) == [a] + Take(rest, k);
      }
    }
  }

  lemma RestIsFirst(plan: seq<Attempt>, up: Upstream, k: nat)
    requires IsFirst(plan, up, k) && k > 0
    ensures IsFirst(plan[1..], up, k - 1) && Verdict(plan[1..], up, k - 1) == Verdict(plan, up, k)
    ensures !Answers(up(plan[0]))
  {
    assert forall i :: 0 <= i < |plan| - 1 ==> plan[1..][i] == plan[i + 1];
  }

  /** The specialised router hands over to the loops exactly for an implicit request without audio that it cannot serve. */
  predicate HandsOver(q: Asked) {
    || q.route.TextRoute? || q.route.VisionRoute?
    || (!q.explicit && !q.audio && !(q.special.available && q.special.ok))
  }

  lemma LoopsAreUsedExactly(q: Asked)
    ensures UsesLoops(q) <==> HandsOver(q)
  {
    if q.route.ImageRoute? || q.route.AudioRoute? {
      if q.special.available && q.special.ok {
        SpecialSucceeds(q);
      } else if q.special.available {
        SpecialFails(q);
      }
    }
  }

  /** The whole stream of a request that reaches the loops. */
  lemma StreamShowsWhatIsWritten(q: Asked, ps: seq<Provider>, up: Upstream, k: nat)
    requires HandsOver(q) && IsFirst(Plan(ps), up, k)
    ensures var fs := Generated(q, ps, up);
            && Screen(fs) == WrittenBy(Take(Plan(ps), k + 1), up)
            && |fs| >= 2 && Closing(fs) == Verdict(Plan(ps), up, k)
  {
    var head, loops := BeforeLoops(q), Stream(Plan(ps), up);
    LoopsShowWhatIsWritten(Plan(ps), up, k);
    GeneratedByLoops(q, ps, up);
    ScreenOfConcat(head, loops);
  }

  /** What a request that reaches the loops shows before. */
  function BeforeLoops(q: Asked): seq<Frame> {
    if q.route.TextRoute? || q.route.VisionRoute? then Waits(q.prepared)
    else Waits(q.prepared) + SpecialFrames(q) + (if q.route.AudioRoute? then [Status] else [])
  }

  lemma GeneratedByLoops(q: Asked, ps: seq<Provider>, up: Upstream)
    requires HandsOver(q)
    ensures Generated(q, ps, up) == BeforeLoops(q) + Stream(Plan(ps), up) && Screen(BeforeLoops(q)) == []
  {
    LoopsAreUsedExactly(q);
    BlankScreen(Waits(q.prepared));
    if q.route.ImageRoute? || q.route.AudioRoute? {
      var special, more := SpecialFrames(q), if q.route.AudioRoute? then [Status] else [];
      BlankScreen(special);
      BlankScreen(more);
      ScreenOfConcat(Waits(q.prepared), special);
      ScreenOfConcat(Waits(q.prepared) + special, more);
    }
  }

  /** A specialised request that does not reach the loops closes with `done` exactly when its model served it. */
  lemma SpecialClosesExactly(q: Asked, ps: seq<Provider>, up: Upstream)
    requires !HandsOver(q) && !LeftOpen(q)
    ensures var fs := Generated(q, ps, up);
            && |fs| >= 2 && Closing(fs) == if q.special.available && q.special.ok then DoneBy(None) else Error
    ensures Contents(Generated(q, ps, up))
            == if q.special.available && q.special.ok && q.special.content != "" then [Spoken(q.special.content)] else []
  {
    LoopsAreUsedExactly(q);
    SpecialEndsOrStaysOpen(q);
    ContentHasOneSource(q, ps, up);
    SpecialSays(q);
  }

  lemma SpecialSays(q: Asked)
    requires (q.route.ImageRoute? || q.route.AudioRoute?) && !HandsOver(q) && !LeftOpen(q)
    ensures var fs := SpecialFrames(q);
            && |fs| >= 2 && Closing(fs) == if q.special.available && q.special.ok then DoneBy(None) else Error
    ensures Contents(SpecialFrames(q))
            == if q.special.available && q.special.ok && q.special.content != "" then [Spoken(q.special.content)] else []
  {
    if q.special.available && q.special.ok {
      ServedSays(q);
      Closes(Served(q), DoneBy(None));
    } else if q.special.available {
      AskedSaysNothing(q);
      Closes(SpecialAsked(q), Error);
      assert SpecialFrames(q) == SpecialAsked(q) + [Error, End];
    } else {
      Closes([], Error);
      assert SpecialFrames(q) == [] + [Error, End];
    }
  }

  lemma Closes(head: seq<Frame>, f: Frame)
    requires f.Error? || f.DoneBy?
    ensures Closing(head + [f, End]) == f && Contents(head + [f, End]) == Contents(head)
  {
    ClosingSaysNothing(f);
    ProjectionsOfConcat(head, [f, End]);
  }

  function Served(q: Asked): seq<Frame> {
    SpecialAsked(q) + Medias(q.special.media) + (if q.special.content != "" then [Spoken(q.special.content)] else [])
  }

  lemma ServedSays(q: Asked)
    requires (q.route.ImageRoute? || q.route.AudioRoute?) && q.special.available && q.special.ok
    ensures SpecialFrames(q) == Served(q) + [DoneBy(None), End]
    ensures Contents(Served(q)) == if q.special.content != "" then [Spoken(q.special.content)] else []
  {
    var asked, media := SpecialAsked(q), Medias(q.special.media);
    var said := if q.special.content != "" then [Spoken(q.special.content)] else [];
    AskedSaysNothing(q);
    MediaSayNothing(q.special.media);
    ProjectionsOfConcat(asked, media);
    ProjectionsOfConcat(asked + media, said);
    SpokenSays(said);
  }

  lemma SpokenSays(said: seq<Frame>)
    requires said == [] || (|said| == 1 && said[0].Spoken?)
    ensures Contents(said) == said
  {
    if said != [] {
      assert said[1..] == [];
      assert Contents([]) == [];
    }
  }

  lemma {:induction false} MediaSayNothing(n: nat)
    ensures Contents(Medias(n)) == []
  {
    if n > 0 {
      assert Medias(n)[1..] == Medias(n - 1);
      MediaSayNothing(n - 1);
    }
  }
}
