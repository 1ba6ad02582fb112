/**
 The GitHub Device Flow of `server/app/agent_projects_core.py`: flows as rows, pollers of several workers that read the
 clock, claim a poll in one transaction, ask GitHub, and write the answer in another. Times are whole seconds.
 */
module DeviceFlow {
  import opened Common

  type FlowId = nat

  datatype Status = Pending | Expired | Denied | Failed | Authorized

  datatype Flow = Flow(
    owner: string, client: string, code: Option<string>, status: Status,
    interval: int, nextPoll: int, expires: int, created: int, connection: Option<nat>)

  type Flows = map<FlowId, Flow>

  const MIN_INTERVAL := 5
  const MAX_INTERVAL := 300
  const STEP_INTERVAL := 5
  const KEPT_FLOWS := 20

  // ----- start_device_flow -----

  predicate PendingOf(flows: Flows, owner: string, id: FlowId) {
    id in flows && flows[id].owner == owner && flows[id].status.Pending?
  }

  /** The newest pending flow of the owner. */
  predicate Active(flows: Flows, owner: string, id: FlowId) {
    PendingOf(flows, owner, id) && forall o :: o in flows && PendingOf(flows, owner, o) ==> flows[o].created <= flows[id].created
  }

  predicate Usable(f: Flow, client: string, now: int) {
    f.expires > now && f.client == client
  }

  function Closed(f: Flow, status: Status): Flow {
    f.(status := status, code := None)
  }

  /** First transaction: a pending flow that can no longer be used is superseded. */
  function Checked(flows: Flows, id: FlowId, client: string, now: int): Flows
    requires id in flows
  {
    if Usable(flows[id], client, now) then flows else flows[id := Closed(flows[id], Expired)]
  }

  function NewFlow(owner: string, client: string, code: string, expiresIn: int, interval: int, now: int): Flow {
    var cadence := Max(5, Min(interval, 60));
    Flow(owner, client, Some(code), Pending, cadence, now + cadence, now + Max(60, Min(expiresIn, 1800)), now, None)
  }

  function Superseded(flows: Flows, owner: string): Flows {
    map i | i in flows :: if PendingOf(flows, owner, i) then Closed(flows[i], Expired) else flows[i]
  }

  function OfOwner(flows: Flows, owner: string): set<FlowId> {
    set i | i in flows && flows[i].owner == owner
  }

  /** Nothing but the oldest rows beyond the twenty newest of the owner. */
  ghost predicate DropsOldest(flows: Flows, owner: string, drop: set<FlowId>) {
    && drop <= OfOwner(flows, owner)
    && |drop| == Max(0, |OfOwner(flows, owner)| - KEPT_FLOWS)
    && forall o, k :: o in drop && k in OfOwner(flows, owner) - drop ==> flows[o].created <= flows[k].created
  }

  /** Second transaction: supersede, insert, trim. */
  function Inserted(flows: Flows, id: FlowId, row: Flow, drop: set<FlowId>): Flows {
    Superseded(flows, row.owner)[id := row] - drop
  }

  // ----- poll_device_flow -----

  datatype ClaimResult = Gone | Closing | TooEarly | Granted(interval: int)

  function ClaimAnswer(flows: Flows, owner: string, id: FlowId, stamp: int): ClaimResult {
    if id !in flows || flows[id].owner != owner then Gone
    else if !flows[id].status.Pending? then Closing
    else if flows[id].expires <= stamp then Closing
    else if flows[id].nextPoll > stamp then TooEarly
    else Granted(Max(MIN_INTERVAL, flows[id].interval))
  }

  /** The claim transaction; the clock was read before it began. */
  function Claimed(flows: Flows, owner: string, id: FlowId, stamp: int): Flows {
    var answer := ClaimAnswer(flows, owner, id, stamp);
    if answer.Granted? then flows[id := flows[id].(nextPoll := stamp + answer.interval)]
    else if answer.Closing? && flows[id].status.Pending? then flows[id := Closed(flows[id], Expired)]
    else flows
  }

  datatype Answer = AuthorizationPending | SlowDown | ExpiredToken | AccessDenied | OtherError | Token(connection: nat)

  /** What GitHub's answer does to the row; no branch looks at the row's status again. */
  function Answered(flows: Flows, owner: string, id: FlowId, interval: int, answer: Answer, now: int): Flows {
    if id !in flows || flows[id].owner != owner then flows
    else
      match answer
      case AuthorizationPending => flows
      case SlowDown =>
        flows[id := flows[id].(interval := Min(flows[id].interval + STEP_INTERVAL, MAX_INTERVAL),
                               nextPoll := now + Min(interval + STEP_INTERVAL, MAX_INTERVAL))]
      case ExpiredToken => flows[id := Closed(flows[id], Expired)]
      case AccessDenied => flows[id := Closed(flows[id], Denied)]
      case OtherError => flows[id := Closed(flows[id], Failed)]
      case Token(c) => flows[id := Closed(flows[id], Authorized).(connection := Some(c))]
  }

  // ----- interleavings -----

  datatype Phase = Arrived | Asking(interval: int)

  datatype Poller = Poller(owner: string, flow: FlowId, stamp: int, phase: Phase)

  /** A claimed poll: the clock reading it was granted for, the time of the claim itself, and the interval in force. */
  datatype Claim = Claim(flow: FlowId, stamp: int, at: int, interval: int)

  datatype State = State(clock: int, flows: Flows, used: set<FlowId>, pollers: map<nat, Poller>, claims: seq<Claim>)

  datatype Choice =
    | Advance(seconds: nat)
    | CheckStart(owner: string, client: string, active: FlowId)
    | Insert(id: FlowId, owner: string, client: string, code: string, expiresIn: int, interval: int, drop: set<FlowId>)
    | Arrive(pid: nat, owner: string, flow: FlowId)
    | TryClaim(pid: nat)
    | Reply(pid: nat, answer: Answer)
    | Abandon(pid: nat)

  function StepClaim(s: State, pid: nat): State
    requires pid in s.pollers && s.pollers[pid].phase.Arrived?
  {
    var p := s.pollers[pid];
    var answer := ClaimAnswer(s.flows, p.owner, p.flow, p.stamp);
    var s1 := s.(flows := Claimed(s.flows, p.owner, p.flow, p.stamp));
    if answer.Granted?
    then s1.(pollers := s.pollers[pid := p.(phase := Asking(answer.interval))],
             claims := s.claims + [Claim(p.flow, p.stamp, s.clock, answer.interval)])
    else s1.(pollers := s.pollers - {pid})
  }

  function StepReply(s: State, pid: nat, answer: Answer): State
    requires pid in s.pollers && s.pollers[pid].phase.Asking?
  {
    var p := s.pollers[pid];
    s.(flows := Answered(s.flows, p.owner, p.flow, p.phase.interval, answer, s.clock), pollers := s.pollers - {pid})
  }

  ghost function Step(s: State, c: Choice): State {
    match c
    case Advance(n) => s.(clock := s.clock + n)
    case CheckStart(owner, client, id) =>
      if Active(s.flows, owner, id) then s.(flows := Checked(s.flows, id, client, s.clock)) else s
    case Insert(id, owner, client, code, expiresIn, interval, drop) =>
      var row := NewFlow(owner, client, code, expiresIn, interval, s.clock);
      if id !in s.used && id !in s.flows && DropsOldest(Superseded(s.flows, owner)[id := row], owner, drop)
      then s.(flows := Inserted(s.flows, id, row, drop), used := s.used + {id})
      else s
    case Arrive(pid, owner, flow) =>
      if pid !in s.pollers && PendingOf(s.flows, owner, flow)
      then s.(pollers := s.pollers[pid := Poller(owner, flow, s.clock, Arrived)]) else s
    case TryClaim(pid) => if pid in s.pollers && s.pollers[pid].phase.Arrived? then StepClaim(s, pid) else s
    case Reply(pid, answer) => if pid in s.pollers && s.pollers[pid].phase.Asking? then StepReply(s, pid, answer) else s
    case Abandon(pid) => s.(pollers := s.pollers - {pid})
  }

  ghost function Exec(s: State, cs: seq<Choice>): State {
    if cs == [] then s else Step(Exec(s, cs[..|cs| - 1]), cs[|cs| - 1])
  }

  function Init(clock: int): State {
    State(clock, map[], {}, map[], [])
  }

  // ----- invariant -----

  predicate FlowOk(f: Flow) {
    MIN_INTERVAL <= f.interval <= MAX_INTERVAL && (f.code.Some? <==> f.status.Pending?)
  }

  ghost predicate FlowsOk(s: State) {
    && (forall i {:trigger FlowOk(s.flows[i])} :: i in s.flows ==> FlowOk(s.flows[i]))
    && s.flows.Keys <= s.used
    && forall i, j, o ::
         PendingOf(s.flows, o, i) && PendingOf(s.flows, o, j) ==> i == j
  }

  predicate PollerOk(s: State, p: Poller) {
    p.stamp <= s.clock && (p.phase.Asking? ==> MIN_INTERVAL <= p.phase.interval <= MAX_INTERVAL)
  }

  ghost predicate PollersOk(s: State) {
    forall p {:trigger PollerOk(s, s.pollers[p])} :: p in s.pollers ==> PollerOk(s, s.pollers[p])
  }

  /** The next clock reading a claim leaves room for: its interval later, or ten seconds from now, after a `slow_down`. */
  function Soonest(c: Claim): int {
    Min(c.stamp + c.interval, c.at + MIN_INTERVAL + STEP_INTERVAL)
  }

  predicate ClaimOk(s: State, c: Claim) {
    && c.stamp <= c.at <= s.clock && c.flow in s.used && c.interval >= MIN_INTERVAL
    && (c.flow in s.flows ==> Soonest(c) <= s.flows[c.flow].nextPoll)
  }

  predicate After(a: Claim, b: Claim) {
    a.flow == b.flow ==> Soonest(a) <= b.stamp
  }

  predicate Spaced(a: Claim, b: Claim, gap: int) {
    a.flow == b.flow ==> a.stamp + gap <= b.stamp
  }

  ghost predicate ClaimsOk(s: State) {
    && (forall i {:trigger ClaimOk(s, s.claims[i])} :: 0 <= i < |s.claims| ==> ClaimOk(s, s.claims[i]))
    && forall i, j {:trigger After(s.claims[i], s.claims[j])} :: 0 <= i < j < |s.claims| ==> After(s.claims[i], s.claims[j])
  }

  ghost predicate Inv(s: State) {
    FlowsOk(s) && PollersOk(s) && ClaimsOk(s)
  }

  lemma AdvanceKeeps(s: State, n: nat)
    requires Inv(s)
    ensures Inv(s.(clock := s.clock + n))
  {
    var t := s.(clock := s.clock + n);
    forall p | p in t.pollers ensures PollerOk(t, t.pollers[p]) {
      assert PollerOk(s, s.pollers[p]);
    }
    forall i | 0 <= i < |t.claims| ensures ClaimOk(t, t.claims[i]) {
      assert ClaimOk(s, s.claims[i]);
    }
  }

  /** A row that changes without a claim is no new pending row, and is not polled earlier than before or than ten seconds from now. */
  predicate RowFollows(now: int, f: Flow, g: Flow) {
    && FlowOk(g) && g.owner == f.owner
    && (g.status.Pending? ==> f.status.Pending?)
    && (g.nextPoll >= f.nextPoll || g.nextPoll >= now + MIN_INTERVAL + STEP_INTERVAL)
  }

  ghost predicate RowsFollow(s: State, t: State) {
    && t == s.(flows := t.flows, pollers := t.pollers)
    && t.pollers.Keys <= s.pollers.Keys && (forall p :: p in t.pollers ==> t.pollers[p] == s.pollers[p])
    && t.flows.Keys <= s.flows.Keys
    && (forall i {:trigger t.flows[i]} :: i in t.flows ==> RowFollows(s.clock, s.flows[i], t.flows[i]))
  }

  lemma RowsKeep(s: State, t: State)
    requires Inv(s) && RowsFollow(s, t)
    ensures Inv(t)
  {
    forall i, j, o | PendingOf(t.flows, o, i) && PendingOf(t.flows, o, j) ensures i == j {
      assert PendingOf(s.flows, o, i) && PendingOf(s.flows, o, j);
    }
    forall p | p in t.pollers ensures PollerOk(t, t.pollers[p]) {
      assert PollerOk(s, s.pollers[p]);
    }
    forall i | 0 <= i < |t.claims| ensures ClaimOk(t, t.claims[i]) {
      assert ClaimOk(s, s.claims[i]);
    }
  }

  lemma InsertKeeps(s: State, c: Choice)
    requires Inv(s) && c.Insert?
    ensures Inv(Step(s, c))
  {
    var t := Step(s, c);
    if t != s {
      assert FlowOk(NewFlow(c.owner, c.client, c.code, c.expiresIn, c.interval, s.clock));
      forall i | i in t.flows ensures FlowOk(t.flows[i]) {
        assert i != c.id ==> FlowOk(s.flows[i]);
      }
      forall i, j, o | PendingOf(t.flows, o, i) && PendingOf(t.flows, o, j) ensures i == j {
        assert i != c.id ==> PendingOf(s.flows, o, i) && o != c.owner;
        assert j != c.id ==> PendingOf(s.flows, o, j) && o != c.owner;
      }
      forall p | p in t.pollers ensures PollerOk(t, t.pollers[p]) {
        assert PollerOk(s, s.pollers[p]);
      }
      forall i | 0 <= i < |t.claims| ensures ClaimOk(t, t.claims[i]) {
        assert ClaimOk(s, s.claims[i]);
      }
    }
  }

  lemma ClaimKeeps(s: State, pid: nat)
    requires Inv(s) && pid in s.pollers && s.pollers[pid].phase.Arrived?
    ensures Inv(StepClaim(s, pid))
  {
    var p, t := s.pollers[pid], StepClaim(s, pid);
    assert PollerOk(s, p);
    assert p.flow in s.flows ==> FlowOk(s.flows[p.flow]);
    if ClaimAnswer(s.flows, p.owner, p.flow, p.stamp).Granted? {
      GrantKeeps(s, pid);
    } else {
      forall i | i in t.flows ensures FlowOk(t.flows[i]) {
        assert FlowOk(s.flows[i]);
      }
      RowsKeep(s, t);
    }
  }

  lemma GrantKeeps(s: State, pid: nat)
    requires Inv(s) && pid in s.pollers && s.pollers[pid].phase.Arrived?
    requires var p := s.pollers[pid]; ClaimAnswer(s.flows, p.owner, p.flow, p.stamp).Granted?
    ensures Inv(StepClaim(s, pid))
  {
    var p, t := s.pollers[pid], StepClaim(s, pid);
    assert PollerOk(s, p) && FlowOk(s.flows[p.flow]);
    forall i | i in t.flows ensures FlowOk(t.flows[i]) {
      assert FlowOk(s.flows[i]);
    }
    forall i, j, o | PendingOf(t.flows, o, i) && PendingOf(t.flows, o, j) ensures i == j {
      assert PendingOf(s.flows, o, i) && PendingOf(s.flows, o, j);
    }
    forall q | q in t.pollers ensures PollerOk(t, t.pollers[q]) {
      assert q != pid ==> PollerOk(s, s.pollers[q]);
    }
    forall i | 0 <= i < |t.claims| ensures ClaimOk(t, t.claims[i]) {
      assert i < |s.claims| ==> ClaimOk(s, s.claims[i]);
    }
    forall i, j | 0 <= i < j < |t.claims| ensures After(t.claims[i], t.claims[j]) {
      assert ClaimOk(s, s.claims[i]);
      assert j < |s.claims| ==> After(s.claims[i], s.claims[j]);
    }
  }

  lemma ReplyKeeps(s: State, pid: nat, answer: Answer)
    requires Inv(s) && pid in s.pollers && s.pollers[pid].phase.Asking?
    ensures Inv(StepReply(s, pid, answer))
  {
    var t := StepReply(s, pid, answer);
    assert PollerOk(s, s.pollers[pid]);
    forall i | i in t.flows ensures FlowOk(t.flows[i]) {
      assert FlowOk(s.flows[i]);
    }
    RowsKeep(s, t);
  }

  lemma CheckKeeps(s: State, id: FlowId, client: string)
    requires Inv(s) && id in s.flows
    ensures Inv(s.(flows := Checked(s.flows, id, client, s.clock)))
  {
    var t := s.(flows := Checked(s.flows, id, client, s.clock));
    forall i | i in t.flows ensures FlowOk(t.flows[i]) {
      assert FlowOk(s.flows[i]);
    }
    RowsKeep(s, t);
  }

  lemma ArriveKeeps(s: State, pid: nat, p: Poller)
    requires Inv(s) && p.phase.Arrived? && p.stamp == s.clock
    ensures Inv(s.(pollers := s.pollers[pid := p]))
  {
    var t := s.(pollers := s.pollers[pid := p]);
    forall q | q in t.pollers ensures PollerOk(t, t.pollers[q]) {
      assert q != pid ==> PollerOk(s, s.pollers[q]);
    }
    forall i | 0 <= i < |t.claims| ensures ClaimOk(t, t.claims[i]) {
      assert ClaimOk(s, s.claims[i]);
    }
  }

  lemma StepKeeps(s: State, c: Choice)
    requires Inv(s)
    ensures Inv(Step(s, c))
  {
    match c
    case Advance(n) => AdvanceKeeps(s, n);
    case CheckStart(owner, client, id) =>
      if Active(s.flows, owner, id) {
        CheckKeeps(s, id, client);
      }
    case Insert(_, _, _, _, _, _, _) => InsertKeeps(s, c);
    case Arrive(pid, owner, flow) => ArriveKeeps(s, pid, Poller(owner, flow, s.clock, Arrived));
    case TryClaim(pid) =>
      if pid in s.pollers && s.pollers[pid].phase.Arrived? {
        ClaimKeeps(s, pid);
      }
    case Reply(pid, answer) =>
      if pid in s.pollers && s.pollers[pid].phase.Asking? {
        ReplyKeeps(s, pid, answer);
      }
    case Abandon(pid) => RowsKeep(s, Step(s, c));
  }

  lemma {:induction false} InvAlways(clock: int, cs: seq<Choice>)
    ensures Inv(Exec(Init(clock), cs))
  {
    if cs != [] {
      InvAlways(clock, cs[..|cs| - 1]);
      StepKeeps(Exec(Init(clock), cs[..|cs| - 1]), cs[|cs| - 1]);
    }
  }

  // ----- what holds in every interleaving -----

  /** An owner has one pending flow at most, and a device code is stored exactly while its flow is pending. */
  lemma PendingFlows(clock: int, cs: seq<Choice>, i: FlowId, j: FlowId)
    requires var s := Exec(Init(clock), cs); i in s.flows && j in s.flows
    ensures var s := Exec(Init(clock), cs);
            && (s.flows[i].owner == s.flows[j].owner && s.flows[i].status.Pending? && s.flows[j].status.Pending? ==> i == j)
            && (s.flows[i].code.Some? <==> s.flows[i].status.Pending?)
            && MIN_INTERVAL <= s.flows[i].interval <= MAX_INTERVAL
  {
    var s := Exec(Init(clock), cs);
    InvAlways(clock, cs);
    assert FlowOk(s.flows[i]);
    assert PendingOf(s.flows, s.flows[i].owner, i) <==> s.flows[i].status.Pending?;
    assert PendingOf(s.flows, s.flows[i].owner, j) <==> s.flows[j].owner == s.flows[i].owner && s.flows[j].status.Pending?;
  }

  /**
   Section 3.5 of RFC 8628: polls of one flow are granted for clock readings at least five seconds apart, and a whole
   interval apart unless a `slow_down` came in between. Between the claims themselves the age of the earlier reading
   is missing from that interval.
   */
  lemma PollCadence(clock: int, cs: seq<Choice>, i: nat, j: nat)
    requires var s := Exec(Init(clock), cs); i < j < |s.claims| && s.claims[i].flow == s.claims[j].flow
    ensures var s := Exec(Init(clock), cs);
            var a, b := s.claims[i], s.claims[j];
            && b.stamp - a.stamp >= MIN_INTERVAL
            && b.stamp >= Min(a.stamp + a.interval, a.at + MIN_INTERVAL + STEP_INTERVAL)
            && b.at - a.at >= Min(a.interval - (a.at - a.stamp), MIN_INTERVAL + STEP_INTERVAL)
  {
    var s := Exec(Init(clock), cs);
    InvAlways(clock, cs);
    assert After(s.claims[i], s.claims[j]);
    assert ClaimOk(s, s.claims[i]) && ClaimOk(s, s.claims[j]);
  }

  // ----- five real seconds -----

  predicate GrantedTo(s: State, pid: nat) {
    && pid in s.pollers && s.pollers[pid].phase.Arrived?
    && ClaimAnswer(s.flows, s.pollers[pid].owner, s.pollers[pid].flow, s.pollers[pid].stamp).Granted?
  }

  /** What was claimed of this flow from the n-th claim on was claimed at this time or later. */
  predicate ClaimedFrom(s: State, n: nat, id: FlowId, time: int) {
    forall i :: n <= i < |s.claims| && s.claims[i].flow == id ==> s.claims[i].at >= time
  }

  ghost predicate NoneClaimedBefore(t: State, id: FlowId, time: int) {
    forall later :: ClaimedFrom(Exec(t, later), |t.claims|, id, time)
  }

  /** A poller of this flow has read the clock, at a time that the flow would grant. */
  predicate Waits(s: State, q: nat, owner: string, id: FlowId, from: int, expires: int) {
    && q in s.pollers && s.pollers[q].phase.Arrived? && s.pollers[q].owner == owner && s.pollers[q].flow == id
    && from <= s.pollers[q].stamp < expires
  }

  /** After this claim a poll could be granted within five seconds: to a later reading, or to one that already waits. */
  predicate TooEarlyPossible(s: State, pid: nat)
    requires GrantedTo(s, pid)
  {
    var p, f := s.pollers[pid], s.flows[s.pollers[pid].flow];
    var next := p.stamp + f.interval;
    && next < Min(s.clock + MIN_INTERVAL, f.expires)
    && (s.clock < f.expires || exists q :: q in s.pollers && q != pid && Waits(s, q, p.owner, p.flow, next, f.expires))
  }

  /** No claim of this flow can come before this time. */
  predicate Spared(s: State, id: FlowId, owner: string, from: int, expires: int, time: int) {
    && id in s.used && time <= s.clock + MIN_INTERVAL && from < time
    && (id in s.flows ==>
          && s.flows[id].owner == owner && s.flows[id].expires == expires
          && (|| s.flows[id].nextPoll >= Min(time, expires)
              || (&& expires <= s.clock && s.flows[id].nextPoll >= from
                  && forall q :: q in s.pollers ==> !Waits(s, q, owner, id, from, expires))))
  }

  lemma ReplySpares(s: State, pid: nat, answer: Answer, id: FlowId, owner: string, from: int, expires: int, time: int)
    requires Inv(s) && Spared(s, id, owner, from, expires, time) && pid in s.pollers && s.pollers[pid].phase.Asking?
    ensures Spared(StepReply(s, pid, answer), id, owner, from, expires, time)
  {
    var t := StepReply(s, pid, answer);
    assert PollerOk(s, s.pollers[pid]);
    forall q | q in t.pollers && Waits(t, q, owner, id, from, expires) ensures Waits(s, q, owner, id, from, expires) {}
  }

  /** Every claim of this flow that is granted now comes in time. */
  lemma ClaimSpares(s: State, pid: nat, id: FlowId, owner: string, from: int, expires: int, time: int)
    requires Inv(s) && Spared(s, id, owner, from, expires, time) && pid in s.pollers && s.pollers[pid].phase.Arrived?
    ensures Spared(StepClaim(s, pid), id, owner, from, expires, time)
    ensures ClaimedFrom(StepClaim(s, pid), |s.claims|, id, time)
  {
    var p, t := s.pollers[pid], StepClaim(s, pid);
    assert PollerOk(s, p) && (p.flow in s.flows ==> FlowOk(s.flows[p.flow]));
    forall q | q in t.pollers && Waits(t, q, owner, id, from, expires) ensures Waits(s, q, owner, id, from, expires) {}
    if p.flow == id && GrantedTo(s, pid) {
      assert !Waits(s, pid, owner, id, from, expires) || s.flows[id].nextPoll >= Min(time, expires);
      assert p.stamp >= time;
    }
  }

  lemma InsertSpares(s: State, c: Choice, id: FlowId, owner: string, from: int, expires: int, time: int)
    requires Inv(s) && Spared(s, id, owner, from, expires, time) && c.Insert?
    ensures Spared(Step(s, c), id, owner, from, expires, time)
  {
    var t := Step(s, c);
    assert t.pollers == s.pollers;
    forall q | q in t.pollers && Waits(t, q, owner, id, from, expires) ensures Waits(s, q, owner, id, from, expires) {}
  }

  lemma StepSpares(s: State, c: Choice, id: FlowId, owner: string, from: int, expires: int, time: int)
    requires Inv(s) && Spared(s, id, owner, from, expires, time)
    ensures Spared(Step(s, c), id, owner, from, expires, time) && ClaimedFrom(Step(s, c), |s.claims|, id, time)
    ensures s.claims <= Step(s, c).claims
  {
    if c.Reply? && c.pid in s.pollers && s.pollers[c.pid].phase.Asking? {
      ReplySpares(s, c.pid, c.answer, id, owner, from, expires, time);
    } else if c.TryClaim? && c.pid in s.pollers && s.pollers[c.pid].phase.Arrived? {
      ClaimSpares(s, c.pid, id, owner, from, expires, time);
    } else if c.Insert? {
      InsertSpares(s, c, id, owner, from, expires, time);
    } else {
      var t := Step(s, c);
      forall q | q in t.pollers && Waits(t, q, owner, id, from, expires)
        ensures Waits(s, q, owner, id, from, expires) || s.clock < expires {}
    }
  }

  lemma {:induction false} SparedAlways(t: State, later: seq<Choice>, id: FlowId, owner: string, from: int, expires: int, time: int)
    requires Inv(t) && Spared(t, id, owner, from, expires, time)
    ensures var u := Exec(t, later);
            && Inv(u) && Spared(u, id, owner, from, expires, time)
            && t.claims <= u.claims && ClaimedFrom(u, |t.claims|, id, time)
  {
    if later != [] {
      var u, c := Exec(t, later[..|later| - 1]), later[|later| - 1];
      SparedAlways(t, later[..|later| - 1], id, owner, from, expires, time);
      StepSpares(u, c, id, owner, from, expires, time);
      StepKeeps(u, c);
    }
  }

  lemma SparedMeansNone(t: State, id: FlowId, owner: string, from: int, expires: int, time: int)
    requires Inv(t) && Spared(t, id, owner, from, expires, time)
    ensures NoneClaimedBefore(t, id, time)
  {
    forall later ensures ClaimedFrom(Exec(t, later), |t.claims|, id, time) {
      SparedAlways(t, later, id, owner, from, expires, time);
    }
  }

  /** One more claim, within the five seconds. */
  lemma EarlyClaim(t: State, later: seq<Choice>, id: FlowId, time: int, c: Claim)
    requires Exec(t, later).claims == t.claims + [c] && c.flow == id && c.at < time
    ensures !NoneClaimedBefore(t, id, time)
  {
    assert Exec(t, later).claims[|t.claims|] == c;
    assert !ClaimedFrom(Exec(t, later), |t.claims|, id, time);
  }

  /**
   For every claim in every run: all later polls of the flow, whatever happens, are claimed at least five real seconds
   after it, if and only if none is possible within them. On a flow that does not expire by then, that is if and only
   if the clock reading of the claim was no older than its interval less five seconds.
   */
  lemma FiveRealSecondsExactly(clock: int, cs: seq<Choice>, s: State, pid: nat)
    requires s == Exec(Init(clock), cs) && GrantedTo(s, pid)
    ensures var p := s.pollers[pid];
            var f, kept := s.flows[p.flow], NoneClaimedBefore(Step(s, TryClaim(pid)), p.flow, s.clock + MIN_INTERVAL);
            && (kept <==> !TooEarlyPossible(s, pid))
            && (f.expires >= s.clock + MIN_INTERVAL ==> (kept <==> s.clock - p.stamp <= f.interval - MIN_INTERVAL))
  {
    InvAlways(clock, cs);
    var p, t := s.pollers[pid], Step(s, TryClaim(pid));
    var f := s.flows[p.flow];
    assert FlowOk(f) && PollerOk(s, p);
    if TooEarlyPossible(s, pid) {
      EarlyPollHappens(s, pid);
    } else {
      StepKeeps(s, TryClaim(pid));
      var from := Min(p.stamp + f.interval, s.clock);
      forall q | q in t.pollers && Waits(t, q, p.owner, p.flow, from, f.expires) && f.expires <= s.clock && p.stamp + f.interval < f.expires
        ensures Waits(s, q, p.owner, p.flow, p.stamp + f.interval, f.expires) {}
      SparedMeansNone(t, p.flow, p.owner, from, f.expires, s.clock + MIN_INTERVAL);
    }
  }

  lemma EarlyPollHappens(s: State, pid: nat)
    requires Inv(s) && GrantedTo(s, pid) && TooEarlyPossible(s, pid)
    ensures !NoneClaimedBefore(Step(s, TryClaim(pid)), s.pollers[pid].flow, s.clock + MIN_INTERVAL)
  {
    var p, t := s.pollers[pid], Step(s, TryClaim(pid));
    var id := p.flow;
    assert FlowOk(s.flows[id]) && PollerOk(s, p);
    var next := p.stamp + s.flows[id].interval;
    if s.clock < s.flows[id].expires {
      var newcomer := FreshNat(t.pollers.Keys);
      var wait := Max(0, next - s.clock);
      EarlyPoll(t, newcomer, p.owner, id, wait);
      EarlyClaim(t, [Advance(wait), Arrive(newcomer, p.owner, id), TryClaim(newcomer)], id, s.clock + MIN_INTERVAL,
                 Claim(id, t.clock + wait, t.clock + wait, t.flows[id].interval));
    } else {
      var q :| q in s.pollers && q != pid && Waits(s, q, p.owner, id, next, s.flows[id].expires);
      var later := [TryClaim(q)];
      OneMore(t, [], later[0]);
      assert [] + later == later;
      EarlyClaim(t, later, id, s.clock + MIN_INTERVAL, Claim(id, s.pollers[q].stamp, s.clock, t.flows[id].interval));
    }
  }

  /** A fresh poller that reads the clock and claims at once. */
  lemma EarlyPoll(t: State, pid: nat, owner: string, id: FlowId, wait: nat)
    requires pid !in t.pollers && PendingOf(t.flows, owner, id) && FlowOk(t.flows[id])
    requires t.flows[id].nextPoll <= t.clock + wait < t.flows[id].expires
    ensures Exec(t, [Advance(wait), Arrive(pid, owner, id), TryClaim(pid)]).claims
         == t.claims + [Claim(id, t.clock + wait, t.clock + wait, t.flows[id].interval)]
  {
    ThreeSteps(t, [], Advance(wait), Arrive(pid, owner, id), TryClaim(pid));
    assert [] + [Advance(wait), Arrive(pid, owner, id), TryClaim(pid)] == [Advance(wait), Arrive(pid, owner, id), TryClaim(pid)];
    var u := Step(Step(t, Advance(wait)), Arrive(pid, owner, id));
    assert u.pollers[pid] == Poller(owner, id, t.clock + wait, Arrived);
  }

  lemma ThreeSteps(s: State, cs: seq<Choice>, a: Choice, b: Choice, c: Choice)
    ensures Exec(s, cs + [a, b, c]) == Step(Step(Step(Exec(s, cs), a), b), c)
  {
    AppendThree(cs, a, b, c);
    OneMore(s, cs, a);
    OneMore(s, cs + [a], b);
    OneMore(s, (cs + [a]) + [b], c);
  }

  lemma OneMore(s: State, cs: seq<Choice>, c: Choice)
    ensures Exec(s, cs + [c]) == Step(Exec(s, cs), c)
  {
    assert (cs + [c])[..|cs|] == cs;
  }

  /** One pending flow of one owner, started at time 0 with the shortest interval. */
  function OneFlow(): State {
    State(0, map[0 := NewFlow("", "", "", 900, 5, 0)], {0}, map[], [])
  }

  function Opening(): seq<Choice> {
    [Insert(0, "", "", "", 900, 5, {})]
  }

  lemma OneFlowIsReachable()
    ensures Exec(Init(0), Opening()) == OneFlow()
  {
    var row := NewFlow("", "", "", 900, 5, 0);
    assert OfOwner(map[0 := row], "") == {0};
    assert Superseded(map[], "") == map[];
    OneMore(Init(0), [], Insert(0, "", "", "", 900, 5, {}));
  }

  lemma {:induction false} RunAfter(s: State, cs: seq<Choice>, ds: seq<Choice>)
    ensures Exec(s, cs + ds) == Exec(Exec(s, cs), ds)
  {
    if ds == [] {
      assert cs + ds == cs;
    } else {
      RunAfter(s, cs, ds[..|ds| - 1]);
      assert cs + ds == (cs + ds[..|ds| - 1]) + [ds[|ds| - 1]];
      OneMore(s, cs + ds[..|ds| - 1], ds[|ds| - 1]);
    }
  }

  /** Two polls, the first claimed `d` seconds after its clock reading. */
  function LateRun(d: nat): seq<Choice>
    requires d <= 5
  {
    [Advance(5), Arrive(1, "", 0), Advance(d), TryClaim(1), Advance(5 - d), Arrive(2, "", 0), TryClaim(2)]
  }

  /** The clock is read before the transaction, so every second of delay is a second less between two real polls. */
  lemma LateClaimShortensCadence(d: nat)
    requires d <= 5
    ensures var s := Exec(Init(0), Opening() + LateRun(d));
            && |s.claims| == 2 && s.claims[0].at - s.claims[0].stamp == d
            && s.claims[1].at - s.claims[0].at == MIN_INTERVAL - d
  {
    OneFlowIsReachable();
    RunAfter(Init(0), Opening(), LateRun(d));
    SecondClaim(d);
  }

  lemma SecondClaim(d: nat)
    requires d <= 5
    ensures Exec(OneFlow(), LateRun(d)).claims == [Claim(0, 5, 5 + d, 5), Claim(0, 10, 10, 5)]
  {
    var r := LateRun(d);
    FirstClaim(d);
    assert r == r[..4] + [Advance(5 - d), Arrive(2, "", 0), TryClaim(2)];
    RunAfter(OneFlow(), r[..4], [Advance(5 - d), Arrive(2, "", 0), TryClaim(2)]);
    EarlyPoll(Exec(OneFlow(), r[..4]), 2, "", 0, 5 - d);
  }

  lemma FirstClaim(d: nat)
    requires d <= 5
    ensures Exec(OneFlow(), LateRun(d)[..4])
         == State(5 + d, map[0 := NewFlow("", "", "", 900, 5, 0).(nextPoll := 10)], {0},
                  map[1 := Poller("", 0, 5, Asking(5))], [Claim(0, 5, 5 + d, 5)])
  {
    var s0 := OneFlow();
    var r := LateRun(d);
    OneMore(s0, [], r[0]);
    OneMore(s0, r[..1], r[1]);
    OneMore(s0, r[..2], r[2]);
    OneMore(s0, r[..3], r[3]);
    assert [] + [r[0]] == r[..1] && r[..1] + [r[1]] == r[..2] && r[..2] + [r[2]] == r[..3] && r[..3] + [r[3]] == r[..4];
  }

  // ----- slow_down -----

  /** Intervals only grow, and a flow that is no longer pending never is again. */
  ghost predicate Later(s: State, t: State) {
    && s.used <= t.used && s.clock <= t.clock
    && (forall i :: i in s.used && i in t.flows ==>
          && i in s.flows && s.flows[i].interval <= t.flows[i].interval
          && (t.flows[i].status.Pending? ==> s.flows[i].status.Pending?))
  }

  lemma ReplyIsLater(s: State, pid: nat, answer: Answer)
    requires Inv(s) && pid in s.pollers && s.pollers[pid].phase.Asking?
    ensures Later(s, StepReply(s, pid, answer))
  {
    var id := s.pollers[pid].flow;
    assert id in s.flows ==> FlowOk(s.flows[id]);
  }

  lemma ClaimIsLater(s: State, pid: nat)
    requires Inv(s) && pid in s.pollers && s.pollers[pid].phase.Arrived?
    ensures Later(s, StepClaim(s, pid))
  {}

  lemma StepIsLater(s: State, c: Choice)
    requires Inv(s)
    ensures Later(s, Step(s, c))
  {
    if c.Reply? {
      if c.pid in s.pollers && s.pollers[c.pid].phase.Asking? {
        ReplyIsLater(s, c.pid, c.answer);
      }
    } else if c.TryClaim? {
      if c.pid in s.pollers && s.pollers[c.pid].phase.Arrived? {
        ClaimIsLater(s, c.pid);
      }
    }
  }

  lemma {:induction false} RunIsLater(clock: int, cs: seq<Choice>, ds: seq<Choice>)
    ensures Later(Exec(Init(clock), cs), Exec(Init(clock), cs + ds))
  {
    if ds == [] {
      assert cs + ds == cs;
    } else {
      var n := |ds| - 1;
      RunIsLater(clock, cs, ds[..n]);
      InvAlways(clock, cs + ds[..n]);
      StepIsLater(Exec(Init(clock), cs + ds[..n]), ds[n]);
      assert cs + ds == cs + ds[..n] + [ds[n]];
      OneMore(Init(clock), cs + ds[..n], ds[n]);
    }
  }

  /** A poller that asks about a flow that is still there. */
  predicate Asks(s: State, pid: nat) {
    && pid in s.pollers && s.pollers[pid].phase.Asking?
    && s.pollers[pid].flow in s.flows && s.flows[s.pollers[pid].flow].owner == s.pollers[pid].owner
  }

  /** The interval of this poll is no shorter than the one stored now, unless both are at the cap. */
  predicate UpToDate(s: State, pid: nat)
    requires Asks(s, pid)
  {
    var claimed := s.pollers[pid].phase.interval;
    claimed >= s.flows[s.pollers[pid].flow].interval || claimed >= MAX_INTERVAL - STEP_INTERVAL
  }

  /** Every `slow_down` is written for a poll whose interval is up to date. */
  ghost predicate Prompt(s: State, c: Choice) {
    c.Reply? && c.answer.SlowDown? && Asks(s, c.pid) ==> UpToDate(s, c.pid)
  }

  /** A `slow_down` puts the next poll a whole, increased interval away if and only if its poll was up to date. */
  lemma SlowDownBacksOffExactly(clock: int, cs: seq<Choice>, s: State, pid: nat)
    requires s == Exec(Init(clock), cs) && Asks(s, pid)
    ensures var id, t := s.pollers[pid].flow, Step(s, Reply(pid, SlowDown));
            t.flows[id].nextPoll >= s.clock + t.flows[id].interval <==> UpToDate(s, pid)
  {
    InvAlways(clock, cs);
    assert FlowOk(s.flows[s.pollers[pid].flow]) && PollerOk(s, s.pollers[pid]);
  }

  /** Otherwise a poll can be granted too early: before the increased interval has passed since the answer. */
  lemma StaleSlowDownAllowsEarlyPoll(clock: int, cs: seq<Choice>, s: State, pid: nat)
    returns (later: seq<Choice>)
    requires s == Exec(Init(clock), cs) && Asks(s, pid) && !UpToDate(s, pid)
    requires s.flows[s.pollers[pid].flow].status.Pending?
    requires s.flows[s.pollers[pid].flow].expires > s.clock + MAX_INTERVAL
    ensures var t := Exec(Step(s, Reply(pid, SlowDown)), later);
            && |t.claims| == |s.claims| + 1
            && var c := t.claims[|s.claims|];
               c.flow == s.pollers[pid].flow && s.clock <= c.stamp < s.clock + c.interval
  {
    InvAlways(clock, cs);
    var id, owner := s.pollers[pid].flow, s.pollers[pid].owner;
    assert FlowOk(s.flows[id]) && PollerOk(s, s.pollers[pid]);
    var wait: nat := s.pollers[pid].phase.interval + STEP_INTERVAL;
    var t := Step(s, Reply(pid, SlowDown));
    later := [Advance(wait), Arrive(pid, owner, id), TryClaim(pid)];
    EarlyPoll(t, pid, owner, id, wait);
  }

  ghost predicate PromptRun(s: State, cs: seq<Choice>) {
    forall i {:trigger cs[i]} :: 0 <= i < |cs| ==> Prompt(Exec(s, cs[..i]), cs[i])
  }

  predicate PacedClaim(s: State, c: Claim) {
    c.flow in s.flows ==> c.stamp + s.flows[c.flow].interval <= s.flows[c.flow].nextPoll
  }

  ghost predicate Paced(s: State) {
    && (forall i {:trigger PacedClaim(s, s.claims[i])} :: 0 <= i < |s.claims| ==> PacedClaim(s, s.claims[i]))
    && forall i, j {:trigger Spaced(s.claims[i], s.claims[j], s.claims[j].interval)} :: 0 <= i < j < |s.claims| ==>
         Spaced(s.claims[i], s.claims[j], s.claims[j].interval)
  }

  lemma StepKeepsPace(s: State, c: Choice)
    requires Inv(s) && Paced(s) && Prompt(s, c)
    ensures Paced(Step(s, c))
  {
    var t := Step(s, c);
    forall i | 0 <= i < |t.claims| ensures PacedClaim(t, t.claims[i]) {
      if i < |s.claims| {
        assert PacedClaim(s, s.claims[i]) && ClaimOk(s, s.claims[i]);
        assert s.claims[i].flow in s.flows ==> FlowOk(s.flows[s.claims[i].flow]);
      } else {
        assert FlowOk(s.flows[t.claims[i].flow]);
      }
    }
    forall i, j | 0 <= i < j < |t.claims| ensures Spaced(t.claims[i], t.claims[j], t.claims[j].interval) {
      assert PacedClaim(s, s.claims[i]);
      assert t.claims[i] == s.claims[i];
      if j < |s.claims| {
        assert Spaced(s.claims[i], s.claims[j], s.claims[j].interval);
      } else {
        assert FlowOk(s.flows[t.claims[j].flow]);
      }
    }
  }

  /**
   Section 3.5 of RFC 8628 on `slow_down`: if every such answer is written for a poll whose interval is up to date,
   each poll keeps the whole interval in force, with all increases, from every earlier poll of that flow.
   */
  lemma {:induction false} SlowDownIsObeyed(clock: int, cs: seq<Choice>)
    requires PromptRun(Init(clock), cs)
    ensures Paced(Exec(Init(clock), cs))
  {
    if cs != [] {
      var n := |cs| - 1;
      var before := cs[..n];
      forall i | 0 <= i < n ensures Prompt(Exec(Init(clock), before[..i]), before[i]) {
        assert before[..i] == cs[..i] && before[i] == cs[i];
      }
      SlowDownIsObeyed(clock, before);
      InvAlways(clock, before);
      assert Prompt(Exec(Init(clock), cs[..n]), cs[n]);
      StepKeepsPace(Exec(Init(clock), before), cs[n]);
    }
  }

  function FlowAt(interval: int, nextPoll: int): map<FlowId, Flow> {
    map[0 := NewFlow("", "", "", 900, 5, 0).(interval := interval, nextPoll := nextPoll)]
  }

  /** Two polls that overlap. */
  function OverlapStart(): seq<Choice> {
    [Advance(5), Arrive(1, "", 0), TryClaim(1)] + [Advance(5), Arrive(2, "", 0), TryClaim(2)]
  }

  /** Both are answered `slow_down`, and a third follows. */
  function OverlapRun(): seq<Choice> {
    OverlapStart() + [Advance(1), Reply(1, SlowDown), Advance(1)]
    + [Reply(2, SlowDown)] + [Advance(10), Arrive(3, "", 0), TryClaim(3)]
  }

  /** The two are asking. */
  function BothAsk(): State {
    State(10, FlowAt(5, 15), {0}, map[1 := Poller("", 0, 5, Asking(5)), 2 := Poller("", 0, 10, Asking(5))],
          [Claim(0, 5, 5, 5), Claim(0, 10, 10, 5)])
  }

  lemma OverlapBegins()
    ensures Exec(OneFlow(), OverlapStart()) == BothAsk()
  {
    var s := OneFlow();
    ThreeSteps(s, [], Advance(5), Arrive(1, "", 0), TryClaim(1));
    assert [] + [Advance(5), Arrive(1, "", 0), TryClaim(1)] == [Advance(5), Arrive(1, "", 0), TryClaim(1)];
    var s1 := Exec(s, [Advance(5), Arrive(1, "", 0), TryClaim(1)]);
    assert s1 == State(5, FlowAt(5, 10), {0}, map[1 := Poller("", 0, 5, Asking(5))], [Claim(0, 5, 5, 5)]);
    ThreeSteps(s, [Advance(5), Arrive(1, "", 0), TryClaim(1)], Advance(5), Arrive(2, "", 0), TryClaim(2));
  }

  lemma FirstAnswer()
    ensures Step(Step(BothAsk(), Advance(1)), Reply(1, SlowDown))
         == State(11, FlowAt(10, 21), {0}, map[2 := Poller("", 0, 10, Asking(5))], BothAsk().claims)
  {
    assert BothAsk().pollers - {1} == map[2 := Poller("", 0, 10, Asking(5))];
  }

  lemma OverlapMiddle()
    ensures Exec(OneFlow(), OverlapStart() + [Advance(1), Reply(1, SlowDown), Advance(1)])
         == State(12, FlowAt(10, 21), {0}, map[2 := Poller("", 0, 10, Asking(5))], BothAsk().claims)
  {
    OverlapBegins();
    ThreeSteps(OneFlow(), OverlapStart(), Advance(1), Reply(1, SlowDown), Advance(1));
    FirstAnswer();
  }

  lemma OverlapEnds()
    ensures Exec(OneFlow(), OverlapRun()).claims == BothAsk().claims + [Claim(0, 22, 22, 15)]
  {
    var c2 := OverlapStart() + [Advance(1), Reply(1, SlowDown), Advance(1)];
    OverlapMiddle();
    var s2 := Exec(OneFlow(), c2);
    OneMore(OneFlow(), c2, Reply(2, SlowDown));
    var s3 := State(12, FlowAt(15, 22), {0}, map[], BothAsk().claims);
    assert Step(s2, Reply(2, SlowDown)).pollers == map[];
    assert Step(s2, Reply(2, SlowDown)) == s3;
    assert OverlapRun() == (c2 + [Reply(2, SlowDown)]) + [Advance(10), Arrive(3, "", 0), TryClaim(3)];
    RunAfter(OneFlow(), c2 + [Reply(2, SlowDown)], [Advance(10), Arrive(3, "", 0), TryClaim(3)]);
    EarlyPoll(s3, 3, "", 0, 10);
  }

  lemma OverlapIsNotPrompt()
    ensures !PromptRun(Init(0), Opening() + OverlapRun())
  {
    var c2 := OverlapStart() + [Advance(1), Reply(1, SlowDown), Advance(1)];
    var run := Opening() + OverlapRun();
    OneFlowIsReachable();
    OverlapMiddle();
    RunAfter(Init(0), Opening(), c2);
    assert run[..10] == Opening() + c2 && run[10] == Reply(2, SlowDown);
    assert !Prompt(Exec(Init(0), run[..10]), run[10]);
  }

  /** It happens: the third poll comes twelve seconds after the second, with fifteen seconds in force. */
  lemma OverlappingSlowDownIsNotObeyed()
    ensures var s := Exec(Init(0), Opening() + OverlapRun());
            && |s.claims| == 3 && s.claims[2].stamp - s.claims[1].stamp == 12 && s.claims[2].interval == 15
            && !Paced(s) && !PromptRun(Init(0), Opening() + OverlapRun())
  {
    OneFlowIsReachable();
    RunAfter(Init(0), Opening(), OverlapRun());
    OverlapEnds();
    var s := Exec(OneFlow(), OverlapRun());
    assert !Spaced(s.claims[1], s.claims[2], s.claims[2].interval);
    OverlapIsNotPrompt();
  }

  // ----- new flows -----

  /** A flow starts pending, with an interval of 5 to 60 seconds, a lifetime of 1 to 30 minutes and one interval to the first poll. */
  lemma NewFlowsAreClamped(s: State, c: Choice)
    requires c.Insert? && Step(s, c) != s && c.id in Step(s, c).flows
    ensures var f := Step(s, c).flows[c.id];
            && f.status.Pending? && f.owner == c.owner
            && 5 <= f.interval <= 60 && f.nextPoll == s.clock + f.interval && 60 <= f.expires - s.clock <= 1800
            && (5 <= c.interval <= 60 ==> f.interval == c.interval)
  {}

  class AgentProjectStore {
    var flows: Flows

    constructor ()
      ensures flows == map[]
    {
      flows := map[];
    }

    /** The first transaction of `start_device_flow`: reuse the newest pending flow or close it. */
    method CheckStart(owner: string, client: string, now: int) returns (reused: Option<FlowId>)
      modifies this
      ensures reused.Some? ==> Active(old(flows), owner, reused.value) && Usable(old(flows)[reused.value], client, now)
      ensures reused.Some? ==> flows == old(flows)
      ensures reused.None? ==>
                || ((forall i :: i in old(flows) ==> !PendingOf(old(flows), owner, i)) && flows == old(flows))
                || exists i :: Active(old(flows), owner, i) && !Usable(old(flows)[i], client, now)
                               && flows == Checked(old(flows), i, client, now)
    {
      reused := None;
      if exists i :: i in flows && PendingOf(flows, owner, i) {
        var i := NewestPending(owner);
        if Usable(flows[i], client, now) {
          reused := Some(i);
        }
        flows := Checked(flows, i, client, now);
      }
    }

    method NewestPending(owner: string) returns (newest: FlowId)
      requires exists i :: i in flows && PendingOf(flows, owner, i)
      ensures Active(flows, owner, newest)
    {
      newest :| newest in flows && PendingOf(flows, owner, newest);
      var rest := flows.Keys;
      while rest != {}
        invariant rest <= flows.Keys
        invariant PendingOf(flows, owner, newest)
        invariant forall o :: o in flows.Keys - rest && PendingOf(flows, owner, o) ==> flows[o].created <= flows[newest].created
        decreases |rest|
      {
        var o :| o in rest;
        if PendingOf(flows, owner, o) && flows[o].created > flows[newest].created {
          newest := o;
        }
        rest := rest - {o};
      }
    }

    /** The second transaction: supersede what is pending, insert, keep the twenty newest. */
    method Insert(id: FlowId, owner: string, client: string, code: string, expiresIn: int, interval: int, now: int)
      returns (drop: set<FlowId>)
      requires id !in flows
      modifies this
      ensures var row := NewFlow(owner, client, code, expiresIn, interval, now);
              && DropsOldest(Superseded(old(flows), owner)[id := row], owner, drop)
              && flows == Inserted(old(flows), id, row, drop)
    {
      flows := Superseded(flows, owner)[id := NewFlow(owner, client, code, expiresIn, interval, now)];
      drop := Oldest(owner);
      flows := flows - drop;
    }

    method Oldest(owner: string) returns (drop: set<FlowId>)
      ensures DropsOldest(flows, owner, drop)
    {
      var all := set i | i in flows && flows[i].owner == owner;
      assert all == OfOwner(flows, owner);
      drop := {};
      var kept := all;
      while |kept| > KEPT_FLOWS
        invariant drop + kept == all && drop !! kept
        invariant |drop| == |all| - |kept| && |kept| >= Min(KEPT_FLOWS, |all|)
        invariant forall o, k :: o in drop && k in kept ==> flows[o].created <= flows[k].created
        decreases |kept|
      {
        var o := OldestOf(kept);
        drop, kept := drop + {o}, kept - {o};
      }
      assert all - drop == kept;
    }

    method OldestOf(ids: set<FlowId>) returns (oldest: FlowId)
      requires ids != {} && ids <= flows.Keys
      ensures oldest in ids && forall k :: k in ids ==> flows[oldest].created <= flows[k].created
    {
      oldest :| oldest in ids;
      var rest := ids;
      while rest != {}
        invariant rest <= ids && oldest in ids
        invariant forall k :: k in ids - rest ==> flows[oldest].created <= flows[k].created
        decreases |rest|
      {
        var k :| k in rest;
        if flows[k].created < flows[oldest].created {
          oldest := k;
        }
        rest := rest - {k};
      }
    }

    /** The claim transaction of `poll_device_flow`. */
    method ClaimPoll(owner: string, id: FlowId, stamp: int) returns (answer: ClaimResult)
      modifies this
      ensures answer == ClaimAnswer(old(flows), owner, id, stamp)
      ensures flows == Claimed(old(flows), owner, id, stamp)
    {
      if id !in flows || flows[id].owner != owner {
        return Gone;
      }
      var row := flows[id];
      if !row.status.Pending? {
        return Closing;
      }
      if row.expires <= stamp {
        flows := flows[id := row.(status := Expired, code := None)];
        return Closing;
      }
      if row.nextPoll > stamp {
        return TooEarly;
      }
      var interval := Max(MIN_INTERVAL, row.interval);
      flows := flows[id := row.(nextPoll := stamp + interval)];
      return Granted(interval);
    }

    /** The transaction that follows GitHub's answer. */
    method Settle(owner: string, id: FlowId, interval: int, answer: Answer, now: int)
      modifies this
      ensures flows == Answered(old(flows), owner, id, interval, answer, now)
    {
      if id !in flows || flows[id].owner != owner {
        return;
      }
      var row := flows[id];
      match answer {
        case AuthorizationPending =>
        case SlowDown =>
          row := row.(interval := Min(row.interval + STEP_INTERVAL, MAX_INTERVAL));
          flows := flows[id := row.(nextPoll := now + Min(interval + STEP_INTERVAL, MAX_INTERVAL))];
        case ExpiredToken => flows := flows[id := row.(status := Expired, code := None)];
        case AccessDenied => flows := flows[id := row.(status := Denied, code := None)];
        case OtherError => flows := flows[id := row.(status := Failed, code := None)];
        case Token(c) => flows := flows[id := row.(status := Authorized, connection := Some(c), code := None)];
      }
    }

    /** One poller alone, from its clock reading to the answer. */
    method PollDeviceFlow(owner: string, id: FlowId, stamp: int, answer: Answer, answered: int) returns (result: ClaimResult)
      modifies this
      ensures result == ClaimAnswer(old(flows), owner, id, stamp)
      ensures flows == if result.Granted?
                       then Answered(Claimed(old(flows), owner, id, stamp), owner, id, result.interval, answer, answered)
                       else Claimed(old(flows), owner, id, stamp)
    {
      result := ClaimPoll(owner, id, stamp);
      if result.Granted? {
        Settle(owner, id, result.interval, answer, answered);
      }
    }
  }
}
