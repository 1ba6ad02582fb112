/**
 How the flows of `server/app/agent_projects_core.py` end, told from what happened in the run: GitHub's answers to the
 polls that were granted, clocks past the end of a flow, and newer flows of the same owner.
 */
module DeviceOutcome {
  import opened Common
  import opened DeviceFlow

  predicate Asks(s: State, pid: nat, id: FlowId) {
    && pid in s.pollers && s.pollers[pid].phase.Asking? && s.pollers[pid].flow == id
    && id in s.flows && s.flows[id].owner == s.pollers[pid].owner
  }

  /** A poller that comes to claim this flow. */
  predicate Comes(s: State, pid: nat, id: FlowId) {
    && pid in s.pollers && s.pollers[pid].phase.Arrived? && s.pollers[pid].flow == id
    && id in s.flows && s.flows[id].owner == s.pollers[pid].owner
  }

  /** Of the pending flows of its owner this is one of the newest. */
  predicate Newest(s: State, owner: string, id: FlowId) {
    && id in s.flows && s.flows[id].owner == owner && s.flows[id].status.Pending?
    && forall o :: o in s.flows && s.flows[o].owner == owner && s.flows[o].status.Pending? ==>
         s.flows[o].created <= s.flows[id].created
  }

  /** What GitHub's answer means for a flow; the first two leave it as it is. */
  function Meaning(a: Answer): Option<Status> {
    match a
    case AuthorizationPending => None
    case SlowDown => None
    case ExpiredToken => Some(Expired)
    case AccessDenied => Some(Denied)
    case OtherError => Some(Failed)
    case Token(_) => Some(Authorized)
  }

  /** A flow is over because its time has passed, its client is another, or a newer flow takes its place. */
  ghost predicate RunsOut(s: State, c: Choice, id: FlowId) {
    && id in s.flows && s.flows[id].status.Pending?
    && match c
       case TryClaim(pid) => Comes(s, pid, id) && s.flows[id].expires <= s.pollers[pid].stamp
       case CheckStart(owner, client, active) =>
         active == id && Newest(s, owner, id) && (s.flows[id].expires <= s.clock || s.flows[id].client != client)
       case Insert(_, _, _, _, _, _, _) => c.owner == s.flows[id].owner && Begins(s, c)
       case _ => false
  }

  /** The insertion goes through: a new id, and the rows dropped are the oldest beyond twenty. */
  ghost predicate Begins(s: State, c: Choice)
    requires c.Insert?
  {
    Step(s, c).used != s.used
  }

  /** What a step says about how a flow stands. */
  ghost function Said(s: State, c: Choice, id: FlowId): Option<Status> {
    if c.Reply? && Asks(s, c.pid, id) then Meaning(c.answer)
    else if RunsOut(s, c, id) then Some(Expired)
    else None
  }

  ghost function LastSaid(clock: int, cs: seq<Choice>, id: FlowId): Option<Status> {
    if cs == [] then None
    else
      var front, c := cs[..|cs| - 1], cs[|cs| - 1];
      var said := Said(Exec(Init(clock), front), c, id);
      if said.Some? then said else LastSaid(clock, front, id)
  }

  /** The connection of the last token GitHub handed out for a flow. */
  ghost function LastToken(clock: int, cs: seq<Choice>, id: FlowId): Option<nat> {
    if cs == [] then None
    else
      var front, c := cs[..|cs| - 1], cs[|cs| - 1];
      if c.Reply? && c.answer.Token? && Asks(Exec(Init(clock), front), c.pid, id) then Some(c.answer.connection)
      else LastToken(clock, front, id)
  }

  /** A flow is what some insertion asked for. */
  ghost predicate Begun(clock: int, cs: seq<Choice>, id: FlowId, f: Flow) {
    exists i :: 0 <= i < |cs| && BegunAt(Exec(Init(clock), cs[..i]), cs[i], id, f)
  }

  ghost predicate BegunAt(s: State, c: Choice, id: FlowId, f: Flow) {
    && c.Insert? && c.id == id && c.owner == f.owner && c.client == f.client && f.created == s.clock
    && (f.code.Some? ==> f.code.value == c.code)
  }

  // ----- one step -----

  lemma BegunMore(clock: int, cs: seq<Choice>, id: FlowId, f: Flow)
    requires cs != []
    ensures var front, c := cs[..|cs| - 1], cs[|cs| - 1];
            Begun(clock, cs, id, f) <==> Begun(clock, front, id, f) || BegunAt(Exec(Init(clock), front), c, id, f)
  {
    var front := cs[..|cs| - 1];
    assert forall i :: 0 <= i < |front| ==> front[..i] == cs[..i];
  }

  /** What a step leaves of a flow that was there. */
  lemma FlowStep(s: State, c: Choice, id: FlowId)
    requires Inv(s) && id in s.flows && id in Step(s, c).flows
    ensures var f, g := s.flows[id], Step(s, c).flows[id];
            && g.status == (if Said(s, c, id).Some? then Said(s, c, id).value else f.status)
            && g.connection == (if c.Reply? && c.answer.Token? && Asks(s, c.pid, id) then Some(c.answer.connection) else f.connection)
            && g.owner == f.owner && g.client == f.client && g.created == f.created
            && (g.code.Some? ==> g.code == f.code)
  {
    assert FlowOk(s.flows[id]);
  }

  lemma FlowAppears(s: State, c: Choice, id: FlowId)
    requires Inv(s) && id !in s.flows && id in Step(s, c).flows
    ensures BegunAt(s, c, id, Step(s, c).flows[id]) && id !in s.used
    ensures Step(s, c).flows[id].status.Pending? && Step(s, c).flows[id].connection.None?
    ensures Said(s, c, id).None?
  {}

  lemma UsedGrows(s: State, c: Choice)
    ensures s.used <= Step(s, c).used
  {}

  lemma {:induction false} NothingSaidBefore(clock: int, cs: seq<Choice>, id: FlowId)
    requires id !in Exec(Init(clock), cs).used
    ensures LastSaid(clock, cs, id).None? && LastToken(clock, cs, id).None?
  {
    if cs != [] {
      var front := cs[..|cs| - 1];
      InvAlways(clock, front);
      UsedGrows(Exec(Init(clock), front), cs[|cs| - 1]);
      NothingSaidBefore(clock, front, id);
    }
  }

  /**
   How every flow of every interleaving stands: as the last thing said about it, by GitHub or by time and its owner, and
   pending if nothing was said; its connection is the one of the last token, whatever was said after it.
   */
  lemma {:induction false} FlowStandsExactly(clock: int, cs: seq<Choice>, id: FlowId)
    requires id in Exec(Init(clock), cs).flows
    ensures var f := Exec(Init(clock), cs).flows[id];
            && f.status == (if LastSaid(clock, cs, id).Some? then LastSaid(clock, cs, id).value else Pending)
            && f.connection == LastToken(clock, cs, id)
            && Begun(clock, cs, id, f)
  {
    if cs != [] {
      var front, c := cs[..|cs| - 1], cs[|cs| - 1];
      var s := Exec(Init(clock), front);
      var g := Step(s, c).flows[id];
      InvAlways(clock, front);
      BegunMore(clock, cs, id, g);
      if id in s.flows {
        FlowStandsExactly(clock, front, id);
        FlowStep(s, c, id);
        BegunStays(clock, front, id, s.flows[id], g);
      } else {
        FlowAppears(s, c, id);
        NothingSaidBefore(clock, front, id);
      }
    }
  }

  lemma BegunStays(clock: int, cs: seq<Choice>, id: FlowId, f: Flow, g: Flow)
    requires Begun(clock, cs, id, f)
    requires g.owner == f.owner && g.client == f.client && g.created == f.created && (g.code.Some? ==> g.code == f.code)
    ensures Begun(clock, cs, id, g)
  {
    var i :| 0 <= i < |cs| && BegunAt(Exec(Init(clock), cs[..i]), cs[i], id, f);
    assert BegunAt(Exec(Init(clock), cs[..i]), cs[i], id, g);
  }

  /** A poll is granted, with the interval of its row, exactly for a pending flow whose time has come and not passed. */
  lemma PollIsGrantedExactly(clock: int, cs: seq<Choice>, pid: nat, id: FlowId)
    requires var s := Exec(Init(clock), cs); pid in s.pollers && s.pollers[pid].phase.Arrived? && s.pollers[pid].flow == id
    ensures var s := Exec(Init(clock), cs);
            var t, stamp := Step(s, TryClaim(pid)), s.pollers[pid].stamp;
            if Comes(s, pid, id) && s.flows[id].status.Pending? && s.flows[id].nextPoll <= stamp < s.flows[id].expires then
              var interval := s.flows[id].interval;
              && t.claims == s.claims + [Claim(id, stamp, s.clock, interval)]
              && pid in t.pollers && t.pollers[pid].phase == Asking(interval)
              && t.flows == s.flows[id := s.flows[id].(nextPoll := stamp + interval)]
            else t.claims == s.claims && pid !in t.pollers
  {
    InvAlways(clock, cs);
    var s := Exec(Init(clock), cs);
    assert id in s.flows ==> FlowOk(s.flows[id]);
  }
}
