/**
 The fence between task creation and account deletion: the per-account file lock and tombstone of
 `server/app/account_operations.py`, taken by `create_task` (`server/app/agent_runtime.py`) and by account deletion
 (`server/app/auth_routes.py`, `server/app/account_cleanup.py`). Requests interleave at will and may die at any point;
 the kernel then releases their lock. Workers may hold copies of tasks and save them at any time, under no lock.
 */
module AccountFence {
  import opened Common

  type Owner = nat

  type RequestId = nat

  datatype Task = Task(owner: Owner, active: bool)

  datatype Request =
    | Creating(owner: Owner, step: CreatePc, task: nat)
    | Deleting(owner: Owner, stage: DeletePc)
    | Exporting(owner: Owner, held: bool)

  datatype CreatePc = CreateStart | CreateHeld | CreateCleared | CreateDone

  datatype DeletePc = DeleteStart | DeleteHeld | DeleteChecked | DeletePurged | DeleteGone | DeleteMarked

  datatype Event =
    | Committed(owner: Owner)
    | CheckPassed(owner: Owner, rid: RequestId)
    | Released(owner: Owner, rid: RequestId)
    | Tombstoned(owner: Owner)
    | Erased(owner: Owner)
    | Reinserted(owner: Owner)

  /** `copies` are the tasks that some worker has in memory; `used` are the task ids ever given out. */
  datatype State = State(
    locks: map<Owner, RequestId>,
    tombstones: set<Owner>,
    accounts: set<Owner>,
    tasks: map<nat, Task>,
    copies: map<nat, Owner>,
    used: set<nat>,
    requests: map<RequestId, Request>,
    log: seq<Event>)

  datatype Choice =
    | StartCreate(rid: RequestId, owner: Owner, task: nat)
    | StartDelete(rid: RequestId, owner: Owner)
    | StartExport(rid: RequestId, owner: Owner)
    | Advance(rid: RequestId, allowed: bool)
    | Die(rid: RequestId)
    | Settle(task: nat)
    | LoadCopy(task: nat)
    | DropCopy(task: nat)
    | SaveCopy(task: nat, active: bool)

  /** The lock is freed and the request is over: normally, with an exception, or by a crash. */
  function Ended(s: State, rid: RequestId): State
    requires rid in s.requests
  {
    var owner := s.requests[rid].owner;
    var s1 := s.(requests := s.requests - {rid});
    if owner in s.locks && s.locks[owner] == rid
    then s1.(locks := s.locks - {owner}, log := s.log + [Released(owner, rid)])
    else s1
  }

  /** Non-blocking exclusive lock; busy means the request is refused. */
  function Locked(s: State, rid: RequestId, next: Request): State
    requires rid in s.requests
  {
    var owner := s.requests[rid].owner;
    if owner in s.locks then Ended(s, rid) else s.(locks := s.locks[owner := rid], requests := s.requests[rid := next])
  }

  predicate HasActive(tasks: map<nat, Task>, owner: Owner) {
    exists t :: t in tasks && tasks[t].owner == owner && tasks[t].active
  }

  function Purged(tasks: map<nat, Task>, owner: Owner): map<nat, Task> {
    map t | t in tasks && tasks[t].owner != owner :: tasks[t]
  }

  function StepCreate(s: State, rid: RequestId, allowed: bool): State
    requires rid in s.requests && s.requests[rid].Creating?
  {
    var r := s.requests[rid];
    match r.step
    case CreateStart => Locked(s, rid, r.(step := CreateHeld))
    case CreateHeld =>
      if r.owner in s.tombstones then Ended(s, rid) else s.(requests := s.requests[rid := r.(step := CreateCleared)])
    case CreateCleared =>
      if !allowed || r.task in s.used then Ended(s, rid)
      else s.(tasks := s.tasks[r.task := Task(r.owner, true)], log := s.log + [Committed(r.owner)],
              copies := s.copies[r.task := r.owner], used := s.used + {r.task},
              requests := s.requests[rid := r.(step := CreateDone)])
    case CreateDone => Ended(s, rid)
  }

  function StepDelete(s: State, rid: RequestId, allowed: bool): State
    requires rid in s.requests && s.requests[rid].Deleting?
  {
    var r := s.requests[rid];
    match r.stage
    case DeleteStart => Locked(s, rid, r.(stage := DeleteHeld))
    case DeleteHeld =>
      if !allowed || HasActive(s.tasks, r.owner) then Ended(s, rid)
      else s.(requests := s.requests[rid := r.(stage := DeleteChecked)], log := s.log + [CheckPassed(r.owner, rid)])
    case DeleteChecked =>
      if !allowed then Ended(s, rid)
      else s.(tasks := Purged(s.tasks, r.owner), log := s.log + [Erased(r.owner)], requests := s.requests[rid := r.(stage := DeletePurged)])
    case DeletePurged =>
      if !allowed then Ended(s, rid)
      else s.(accounts := s.accounts - {r.owner}, requests := s.requests[rid := r.(stage := DeleteGone)])
    case DeleteGone =>
      s.(tombstones := s.tombstones + {r.owner}, log := s.log + [Tombstoned(r.owner)],
         requests := s.requests[rid := r.(stage := DeleteMarked)])
    case DeleteMarked => Ended(s, rid)
  }

  /** `AgentTaskStore.save` of a copy: a terminal row stays terminal, and a missing row is inserted. */
  function Saved(tasks: map<nat, Task>, task: nat, owner: Owner, active: bool): map<nat, Task> {
    if task in tasks then tasks[task := tasks[task].(active := tasks[task].active && active)]
    else tasks[task := Task(owner, active)]
  }

  function StepSave(s: State, task: nat, active: bool): State
    requires task in s.copies
  {
    s.(tasks := Saved(s.tasks, task, s.copies[task], active),
       log := if task in s.tasks then s.log else s.log + [Reinserted(s.copies[task])])
  }

  function StepAdvance(s: State, rid: RequestId, allowed: bool): State
    requires rid in s.requests
  {
    match s.requests[rid]
    case Creating(_, _, _) => StepCreate(s, rid, allowed)
    case Deleting(_, _) => StepDelete(s, rid, allowed)
    case Exporting(o, held) => if held then Ended(s, rid) else Locked(s, rid, Exporting(o, true))
  }

  function Started(s: State, rid: RequestId, r: Request): State {
    if rid in s.requests then s else s.(requests := s.requests[rid := r])
  }

  function Step(s: State, c: Choice): State {
    match c
    case StartCreate(rid, o, t) => Started(s, rid, Creating(o, CreateStart, t))
    case StartDelete(rid, o) => Started(s, rid, Deleting(o, DeleteStart))
    case StartExport(rid, o) => Started(s, rid, Exporting(o, false))
    case Advance(rid, allowed) => if rid in s.requests then StepAdvance(s, rid, allowed) else s
    case Die(rid) => if rid in s.requests then Ended(s, rid) else s
    case Settle(t) => if t in s.tasks then s.(tasks := s.tasks[t := s.tasks[t].(active := false)]) else s
    case LoadCopy(t) => if t in s.tasks then s.(copies := s.copies[t := s.tasks[t].owner]) else s
    case DropCopy(t) => s.(copies := s.copies - {t})
    case SaveCopy(t, active) => if t in s.copies then StepSave(s, t, active) else s
  }

  function Exec(s: State, cs: seq<Choice>): State {
    if cs == [] then s else Step(Exec(s, cs[..|cs| - 1]), cs[|cs| - 1])
  }

  function Init(accounts: set<Owner>): State {
    State(map[], {}, accounts, map[], map[], {}, map[], [])
  }

  // ----- invariant -----

  /** Requests past their first step hold the lock. */
  predicate Holding(r: Request) {
    match r
    case Creating(_, at, _) => !at.CreateStart?
    case Deleting(_, at) => !at.DeleteStart?
    case Exporting(_, held) => held
  }

  predicate Holds(s: State, rid: RequestId, owner: Owner) {
    owner in s.locks && s.locks[owner] == rid
  }

  ghost predicate LocksOk(s: State) {
    && (forall o {:trigger s.locks[o]} :: o in s.locks ==>
          s.locks[o] in s.requests && s.requests[s.locks[o]].owner == o && Holding(s.requests[s.locks[o]]))
    && (forall rid {:trigger s.requests[rid]} :: rid in s.requests && Holding(s.requests[rid]) ==> Holds(s, rid, s.requests[rid].owner))
  }

  predicate NoRows(s: State, owner: Owner) {
    forall t :: t in s.tasks ==> s.tasks[t].owner != owner
  }

  /** What a request knows while it holds the lock: a creation past its check, that there is no tombstone. */
  predicate Knows(s: State, r: Request) {
    r.Creating? && (r.step.CreateCleared? || r.step.CreateDone?) ==> r.owner !in s.tombstones
  }

  ghost predicate Inv(s: State) {
    && LocksOk(s)
    && (forall rid {:trigger s.requests[rid]} :: rid in s.requests && Holding(s.requests[rid]) ==> Knows(s, s.requests[rid]))
  }

  lemma EndedKeeps(s: State, rid: RequestId)
    requires Inv(s) && rid in s.requests
    ensures Inv(Ended(s, rid))
  {}

  /** The other requests stay: what they know still holds. */
  lemma HolderKeeps(s: State, t: State, rid: RequestId)
    requires Inv(s) && rid in s.requests && Holding(s.requests[rid]) && rid in t.requests
    requires t.locks == s.locks && t.requests == s.requests[rid := t.requests[rid]]
    requires t.requests[rid].owner == s.requests[rid].owner && Holding(t.requests[rid]) && Knows(t, t.requests[rid])
    requires s.tombstones <= t.tombstones <= s.tombstones + {s.requests[rid].owner}
    ensures Inv(t)
  {
    var mine := s.requests[rid].owner;
    assert Holds(s, rid, mine);
    forall q | q in t.requests && Holding(t.requests[q]) ensures Knows(t, t.requests[q]) && Holds(t, q, t.requests[q].owner) {
      if q != rid {
        assert Holds(s, q, s.requests[q].owner) && s.requests[q].owner != mine;
        assert Knows(s, s.requests[q]);
      }
    }
  }

  lemma LockedKeeps(s: State, rid: RequestId, next: Request)
    requires Inv(s) && rid in s.requests && !Holding(s.requests[rid])
    requires next.owner == s.requests[rid].owner && Holding(next) && Knows(s, next)
    ensures Inv(Locked(s, rid, next))
  {
    if s.requests[rid].owner in s.locks {
      EndedKeeps(s, rid);
    } else {
      var t := Locked(s, rid, next);
      forall q | q in t.requests && Holding(t.requests[q]) ensures Knows(t, t.requests[q]) && Holds(t, q, t.requests[q].owner) {
        if q != rid {
          assert Holds(s, q, s.requests[q].owner) && Knows(s, s.requests[q]);
        }
      }
    }
  }

  lemma CreateKeeps(s: State, rid: RequestId, allowed: bool)
    requires Inv(s) && rid in s.requests && s.requests[rid].Creating?
    ensures Inv(StepCreate(s, rid, allowed))
  {
    var r, t := s.requests[rid], StepCreate(s, rid, allowed);
    EndedKeeps(s, rid);
    if r.step.CreateStart? {
      LockedKeeps(s, rid, r.(step := CreateHeld));
    } else if rid in t.requests {
      HolderKeeps(s, t, rid);
    }
  }

  lemma DeleteKeeps(s: State, rid: RequestId, allowed: bool)
    requires Inv(s) && rid in s.requests && s.requests[rid].Deleting?
    ensures Inv(StepDelete(s, rid, allowed))
  {
    var r, t := s.requests[rid], StepDelete(s, rid, allowed);
    EndedKeeps(s, rid);
    if r.stage.DeleteStart? {
      LockedKeeps(s, rid, r.(stage := DeleteHeld));
    } else if rid in t.requests {
      HolderKeeps(s, t, rid);
    }
  }

  lemma StartedKeeps(s: State, rid: RequestId, r: Request)
    requires Inv(s) && !Holding(r)
    ensures Inv(Started(s, rid, r))
  {
    var t := Started(s, rid, r);
    forall q | q in t.requests && Holding(t.requests[q]) ensures Knows(t, t.requests[q]) && Holds(t, q, t.requests[q].owner) {
      assert Holds(s, q, s.requests[q].owner) && Knows(s, s.requests[q]);
    }
  }

  /** Rows and copies change under no lock. */
  lemma SavesKeep(s: State, t: State)
    requires Inv(s) && t.locks == s.locks && t.requests == s.requests && t.tombstones == s.tombstones
    ensures Inv(t)
  {}

  lemma StepKeeps(s: State, c: Choice)
    requires Inv(s)
    ensures Inv(Step(s, c))
  {
    match c
    case StartCreate(rid, o, task) => StartedKeeps(s, rid, Creating(o, CreateStart, task));
    case StartDelete(rid, o) => StartedKeeps(s, rid, Deleting(o, DeleteStart));
    case StartExport(rid, o) => StartedKeeps(s, rid, Exporting(o, false));
    case Advance(rid, allowed) =>
      if rid in s.requests {
        match s.requests[rid]
        case Creating(_, _, _) => CreateKeeps(s, rid, allowed);
        case Deleting(_, _) => DeleteKeeps(s, rid, allowed);
        case Exporting(o, held) =>
          if held {
            EndedKeeps(s, rid);
          } else {
            LockedKeeps(s, rid, Exporting(o, true));
          }
      }
    case Die(rid) =>
      if rid in s.requests {
        EndedKeeps(s, rid);
      }
    case Settle(_) => SavesKeep(s, Step(s, c));
    case LoadCopy(_) => SavesKeep(s, Step(s, c));
    case DropCopy(_) => SavesKeep(s, Step(s, c));
    case SaveCopy(_, _) => SavesKeep(s, Step(s, c));
  }

  // ----- the log -----

  ghost predicate ReleasedAfter(log: seq<Event>, i: nat, o: Owner, d: RequestId) {
    exists r :: i < r < |log| && log[r] == Released(o, d)
  }

  predicate Past(r: Request, o: Owner) {
    r.Deleting? && r.owner == o && !r.stage.DeleteStart? && !r.stage.DeleteHeld?
  }

  /** A passed check was followed by a release, or its deletion still runs. */
  ghost predicate ChecksOpen(s: State) {
    forall i {:trigger s.log[i]} :: 0 <= i < |s.log| && s.log[i].CheckPassed? ==>
      || ReleasedAfter(s.log, i, s.log[i].owner, s.log[i].rid)
      || (s.log[i].rid in s.requests && Past(s.requests[s.log[i].rid], s.log[i].owner))
  }

  /** Between a passed check and the release of that lock no task of the owner is committed. */
  ghost predicate NoCommitInside(log: seq<Event>) {
    forall i, j :: 0 <= i < j < |log| && log[i].CheckPassed? && log[j] == Committed(log[i].owner) ==>
      exists r :: i < r < j && log[r] == Released(log[i].owner, log[i].rid)
  }

  ghost predicate NoCommitAfterTombstone(log: seq<Event>) {
    forall i, j :: 0 <= i < j < |log| && log[i].Tombstoned? ==> log[j] != Committed(log[i].owner)
  }

  ghost predicate TombstonesLogged(s: State) {
    forall i {:trigger s.log[i]} :: 0 <= i < |s.log| && s.log[i].Tombstoned? ==> s.log[i].owner in s.tombstones
  }

  ghost predicate LogOk(s: State) {
    ChecksOpen(s) && NoCommitInside(s.log) && NoCommitAfterTombstone(s.log) && TombstonesLogged(s)
  }

  /** At most one more event, no tombstone less, and every other request as it was. */
  ghost predicate OwnBusiness(s: State, t: State, rid: RequestId) {
    && (t.log == s.log || (|t.log| == |s.log| + 1 && t.log[..|s.log|] == s.log))
    && s.tombstones <= t.tombstones
    && t.requests.Keys <= s.requests.Keys
    && (forall d :: d in s.requests && d != rid ==> d in t.requests && t.requests[d] == s.requests[d])
  }

  lemma EndedIsOwn(s: State, rid: RequestId)
    requires rid in s.requests
    ensures OwnBusiness(s, Ended(s, rid), rid)
  {}

  lemma CreateIsOwn(s: State, rid: RequestId, allowed: bool)
    requires rid in s.requests && s.requests[rid].Creating?
    ensures OwnBusiness(s, StepCreate(s, rid, allowed), rid)
  {
    EndedIsOwn(s, rid);
  }

  lemma EarlyStageIsOwn(s: State, rid: RequestId, allowed: bool)
    requires rid in s.requests && s.requests[rid].Deleting?
    requires s.requests[rid].stage.DeleteStart? || s.requests[rid].stage.DeleteHeld? || s.requests[rid].stage.DeleteChecked?
    ensures OwnBusiness(s, StepDelete(s, rid, allowed), rid)
  {
    EndedIsOwn(s, rid);
  }

  lemma LateStageIsOwn(s: State, rid: RequestId, allowed: bool)
    requires rid in s.requests && s.requests[rid].Deleting?
    requires s.requests[rid].stage.DeletePurged? || s.requests[rid].stage.DeleteGone? || s.requests[rid].stage.DeleteMarked?
    ensures OwnBusiness(s, StepDelete(s, rid, allowed), rid)
  {
    EndedIsOwn(s, rid);
  }

  lemma DeleteIsOwn(s: State, rid: RequestId, allowed: bool)
    requires rid in s.requests && s.requests[rid].Deleting?
    ensures OwnBusiness(s, StepDelete(s, rid, allowed), rid)
  {
    if s.requests[rid].stage.DeleteStart? || s.requests[rid].stage.DeleteHeld? || s.requests[rid].stage.DeleteChecked? {
      EarlyStageIsOwn(s, rid, allowed);
    } else {
      LateStageIsOwn(s, rid, allowed);
    }
  }

  lemma AdvanceIsOwn(s: State, rid: RequestId, allowed: bool)
    requires rid in s.requests
    ensures OwnBusiness(s, StepAdvance(s, rid, allowed), rid)
  {
    match s.requests[rid]
    case Creating(_, _, _) => CreateIsOwn(s, rid, allowed);
    case Deleting(_, _) => DeleteIsOwn(s, rid, allowed);
    case Exporting(_, _) => EndedIsOwn(s, rid);
  }

  /** A step adds at most one event. */
  lemma StepAddsOne(s: State, c: Choice)
    ensures var t := Step(s, c); t.log == s.log || (|t.log| == |s.log| + 1 && t.log[..|s.log|] == s.log)
    ensures s.tombstones <= Step(s, c).tombstones
  {
    if c.Advance? && c.rid in s.requests {
      AdvanceIsOwn(s, c.rid, c.allowed);
    } else if c.Die? && c.rid in s.requests {
      EndedIsOwn(s, c.rid);
    }
  }

  /** Only its own steps and its death change a request. */
  lemma OthersLeaveRequest(s: State, c: Choice, d: RequestId)
    requires d in s.requests && !(c.Advance? && c.rid == d) && !(c.Die? && c.rid == d)
    ensures d in Step(s, c).requests && Step(s, c).requests[d] == s.requests[d]
  {
    if c.Advance? && c.rid in s.requests {
      AdvanceIsOwn(s, c.rid, c.allowed);
    }
  }

  /** A deletion past its check goes on, or releases the lock. */
  lemma PastStaysOrReleases(s: State, c: Choice, o: Owner, d: RequestId)
    requires Inv(s) && d in s.requests && Past(s.requests[d], o)
    ensures var t := Step(s, c);
            (d in t.requests && Past(t.requests[d], o)) || t.log == s.log + [Released(o, d)]
  {
    assert Holds(s, d, o);
    if c.Advance? && c.rid == d {
      assert Step(s, c) == StepDelete(s, d, c.allowed);
    } else if c.Die? && c.rid == d {
      assert Step(s, c) == Ended(s, d);
    } else {
      OthersLeaveRequest(s, c, d);
    }
  }

  /** Requests that are past their check stay so until they release the lock. */
  lemma ChecksStayOpen(s: State, c: Choice)
    requires Inv(s) && ChecksOpen(s)
    ensures ChecksOpen(Step(s, c))
  {
    var t := Step(s, c);
    StepAddsOne(s, c);
    forall i | 0 <= i < |t.log| && t.log[i].CheckPassed?
      ensures ReleasedAfter(t.log, i, t.log[i].owner, t.log[i].rid)
              || (t.log[i].rid in t.requests && Past(t.requests[t.log[i].rid], t.log[i].owner))
    {
      if i < |s.log| {
        var o, d := s.log[i].owner, s.log[i].rid;
        assert t.log[i] == s.log[i];
        if ReleasedAfter(s.log, i, o, d) {
          var r :| i < r < |s.log| && s.log[r] == Released(o, d);
          assert t.log[r] == Released(o, d);
        } else {
          PastStaysOrReleases(s, c, o, d);
          assert t.log == s.log + [Released(o, d)] ==> t.log[|s.log|] == Released(o, d);
        }
      }
    }
  }

  lemma CommitIsOutside(s: State, rid: RequestId, i: nat)
    requires Inv(s) && ChecksOpen(s) && rid in s.requests && s.requests[rid].Creating? && Holding(s.requests[rid])
    requires i < |s.log| && s.log[i].CheckPassed? && s.log[i].owner == s.requests[rid].owner
    ensures ReleasedAfter(s.log, i, s.log[i].owner, s.log[i].rid)
  {
    assert Holds(s, rid, s.log[i].owner);
    assert s.log[i].rid in s.requests && Past(s.requests[s.log[i].rid], s.log[i].owner) ==>
        Holds(s, s.log[i].rid, s.log[i].owner);
  }

  lemma CommitKeepsLog(s: State, rid: RequestId)
    requires Inv(s) && LogOk(s) && rid in s.requests && s.requests[rid].Creating? && s.requests[rid].step.CreateCleared?
    ensures NoCommitInside(s.log + [Committed(s.requests[rid].owner)])
    ensures NoCommitAfterTombstone(s.log + [Committed(s.requests[rid].owner)])
  {
    var o := s.requests[rid].owner;
    var log := s.log + [Committed(o)];
    assert Knows(s, s.requests[rid]);
    forall i, j | 0 <= i < j < |log| && log[i].CheckPassed? && log[j] == Committed(log[i].owner)
      ensures exists r :: i < r < j && log[r] == Released(log[i].owner, log[i].rid)
    {
      assert log[i] == s.log[i];
      if j < |s.log| {
        assert log[j] == s.log[j];
        var r :| i < r < j && s.log[r] == Released(s.log[i].owner, s.log[i].rid);
        assert log[r] == s.log[r];
      } else {
        CommitIsOutside(s, rid, i);
        var r :| i < r < |s.log| && s.log[r] == Released(s.log[i].owner, s.log[i].rid);
        assert log[r] == s.log[r];
      }
    }
    forall i, j | 0 <= i < j < |log| && log[i].Tombstoned? ensures log[j] != Committed(log[i].owner) {
      assert log[i] == s.log[i];
      assert j < |s.log| ==> log[j] == s.log[j];
    }
  }

  lemma OtherEventsKeepLog(log: seq<Event>, e: Event)
    requires NoCommitInside(log) && NoCommitAfterTombstone(log) && !e.Committed?
    ensures NoCommitInside(log + [e]) && NoCommitAfterTombstone(log + [e])
  {
    var more := log + [e];
    forall i, j | 0 <= i < j < |more| && more[i].CheckPassed? && more[j] == Committed(more[i].owner)
      ensures exists r :: i < r < j && more[r] == Released(more[i].owner, more[i].rid)
    {
      assert more[i] == log[i] && more[j] == log[j];
      var r :| i < r < j && log[r] == Released(log[i].owner, log[i].rid);
      assert more[r] == log[r];
    }
    forall i, j | 0 <= i < j < |more| && more[i].Tombstoned? ensures more[j] != Committed(more[i].owner) {
      assert more[i] == log[i];
      assert j < |log| ==> more[j] == log[j];
    }
  }

  /** Which step commits. */
  predicate Commits(s: State, c: Choice) {
    && c.Advance? && c.allowed && c.rid in s.requests && s.requests[c.rid].Creating?
    && s.requests[c.rid].step.CreateCleared? && s.requests[c.rid].task !in s.used
  }

  lemma NewEvent(s: State, c: Choice)
    ensures var t := Step(s, c);
            if Commits(s, c) then t.log == s.log + [Committed(s.requests[c.rid].owner)]
            else t.log == s.log || exists e: Event :: !e.Committed? && t.log == s.log + [e]
    ensures var t := Step(s, c);
            |t.log| > |s.log| && t.log[|s.log|].Tombstoned? ==> t.log[|s.log|].owner in t.tombstones
  {}

  lemma StepKeepsLog(s: State, c: Choice)
    requires Inv(s) && LogOk(s)
    ensures LogOk(Step(s, c))
  {
    var t := Step(s, c);
    ChecksStayOpen(s, c);
    StepAddsOne(s, c);
    NewEvent(s, c);
    if Commits(s, c) {
      CommitKeepsLog(s, c.rid);
    } else if t.log != s.log {
      var e: Event :| !e.Committed? && t.log == s.log + [e];
      OtherEventsKeepLog(s.log, e);
    }
    forall i | 0 <= i < |t.log| && t.log[i].Tombstoned? ensures t.log[i].owner in t.tombstones {
      if i < |s.log| {
        assert t.log[i] == s.log[i];
      }
    }
  }

  // ----- what holds in every interleaving -----

  lemma {:induction false} InvAlways(accounts: set<Owner>, cs: seq<Choice>)
    ensures Inv(Exec(Init(accounts), cs)) && LogOk(Exec(Init(accounts), cs))
  {
    if cs != [] {
      InvAlways(accounts, cs[..|cs| - 1]);
      StepKeeps(Exec(Init(accounts), cs[..|cs| - 1]), cs[|cs| - 1]);
      StepKeepsLog(Exec(Init(accounts), cs[..|cs| - 1]), cs[|cs| - 1]);
    }
  }

  /**
   The fence. No task of an account is committed between the active check of its deletion and the release of that
   lock, and none ever after the tombstone.
   */
  lemma NoCommitBehindTheFence(accounts: set<Owner>, cs: seq<Choice>)
    ensures var log := Exec(Init(accounts), cs).log;
            NoCommitInside(log) && NoCommitAfterTombstone(log)
  {
    InvAlways(accounts, cs);
  }

  /** One request at a time is inside the critical section of an account. */
  lemma OneHolder(accounts: set<Owner>, cs: seq<Choice>, a: RequestId, b: RequestId)
    requires var s := Exec(Init(accounts), cs);
             && a in s.requests && b in s.requests && Holding(s.requests[a]) && Holding(s.requests[b])
             && s.requests[a].owner == s.requests[b].owner
    ensures a == b
  {
    var s := Exec(Init(accounts), cs);
    InvAlways(accounts, cs);
    assert Holds(s, a, s.requests[a].owner) && Holds(s, b, s.requests[b].owner);
  }

  // ----- requests alone -----

  lemma OneMore(s: State, cs: seq<Choice>, c: Choice)
    ensures Exec(s, cs + [c]) == Step(Exec(s, cs), c)
  {
    assert (cs + [c])[..|cs|] == cs;
  }

  /** The state without the log, the requests and the copies in memory. */
  datatype Tables = Tables(
    locks: map<Owner, RequestId>, tombstones: set<Owner>, accounts: set<Owner>, tasks: map<nat, Task>, used: set<nat>)

  function TablesOf(s: State): Tables {
    Tables(s.locks, s.tombstones, s.accounts, s.tasks, s.used)
  }

  predicate MayCreate(t: Tables, owner: Owner, task: nat, allowed: bool) {
    owner !in t.locks && owner !in t.tombstones && allowed && task !in t.used
  }

  function Created(t: Tables, owner: Owner, task: nat): Tables {
    t.(tasks := t.tasks[task := Task(owner, true)], used := t.used + {task})
  }

  predicate MayDelete(t: Tables, owner: Owner, allowed: bool) {
    owner !in t.locks && allowed && !HasActive(t.tasks, owner)
  }

  function Steps(rid: RequestId, n: nat, allowed: bool): seq<Choice> {
    if n == 0 then [] else Steps(rid, n - 1, allowed) + [Advance(rid, allowed)]
  }

  lemma FourSteps(s: State, rid: RequestId, allowed: bool)
    ensures var c := Advance(rid, allowed);
            Exec(s, Steps(rid, 4, allowed)) == Step(Step(Step(Step(s, c), c), c), c)
  {
    var c := Advance(rid, allowed);
    OneMore(s, Steps(rid, 0, allowed), c);
    OneMore(s, Steps(rid, 1, allowed), c);
    OneMore(s, Steps(rid, 2, allowed), c);
    OneMore(s, Steps(rid, 3, allowed), c);
  }

  /** `create_task` undisturbed is a run of the machine, and commits exactly when the account is neither locked nor deleted. */
  lemma CreateAlone(s: State, rid: RequestId, owner: Owner, task: nat, allowed: bool)
    requires Inv(s) && rid !in s.requests
    ensures var t := Exec(Started(s, rid, Creating(owner, CreateStart, task)), Steps(rid, 4, allowed));
            && t.requests == s.requests
            && TablesOf(t) == if MayCreate(TablesOf(s), owner, task, allowed)
                              then Created(TablesOf(s), owner, task) else TablesOf(s)
  {
    var c, s0 := Advance(rid, allowed), Started(s, rid, Creating(owner, CreateStart, task));
    FourSteps(s0, rid, allowed);
    assert s0.requests - {rid} == s.requests;
    assert owner in s.locks ==> Step(s0, c) == s;
    if owner !in s.locks {
      var s1 := Inside(s, rid, owner, CreateHeld, task);
      assert Step(s0, c) == s1;
      CreateUnderLock(s, s1, rid, owner, task, allowed);
    }
  }

  /** The state in which this creation holds the lock and stands at this step. */
  function Inside(s: State, rid: RequestId, owner: Owner, step: CreatePc, task: nat): State {
    s.(locks := s.locks[owner := rid], requests := s.requests[rid := Creating(owner, step, task)])
  }

  lemma EndedInside(s: State, rid: RequestId, owner: Owner, step: CreatePc, task: nat)
    requires rid !in s.requests && owner !in s.locks
    ensures Ended(Inside(s, rid, owner, step, task), rid) == s.(log := s.log + [Released(owner, rid)])
  {
    assert s.locks[owner := rid] - {owner} == s.locks;
    assert s.requests[rid := Creating(owner, step, task)] - {rid} == s.requests;
  }

  lemma CreateUnderLock(s: State, s1: State, rid: RequestId, owner: Owner, task: nat, allowed: bool)
    requires rid !in s.requests && owner !in s.locks && s1 == Inside(s, rid, owner, CreateHeld, task)
    ensures var c := Advance(rid, allowed);
            var t := Step(Step(Step(s1, c), c), c);
            && t.requests == s.requests
            && TablesOf(t) == if MayCreate(TablesOf(s), owner, task, allowed)
                              then Created(TablesOf(s), owner, task) else TablesOf(s)
  {
    var c := Advance(rid, allowed);
    if owner in s.tombstones {
      EndedInside(s, rid, owner, CreateHeld, task);
      assert Step(s1, c) == s.(log := s.log + [Released(owner, rid)]);
    } else {
      assert Step(s1, c) == Inside(s, rid, owner, CreateCleared, task);
      CommitUnderLock(s, Step(s1, c), rid, owner, task, allowed);
    }
  }

  lemma CommitUnderLock(s: State, s2: State, rid: RequestId, owner: Owner, task: nat, allowed: bool)
    requires rid !in s.requests && owner !in s.locks && owner !in s.tombstones
    requires s2 == Inside(s, rid, owner, CreateCleared, task)
    ensures var c := Advance(rid, allowed);
            var t := Step(Step(s2, c), c);
            && t.requests == s.requests
            && TablesOf(t) == if MayCreate(TablesOf(s), owner, task, allowed)
                              then Created(TablesOf(s), owner, task) else TablesOf(s)
  {
    var c := Advance(rid, allowed);
    if allowed && task !in s.used {
      var u := s.(tasks := s.tasks[task := Task(owner, true)], copies := s.copies[task := owner],
                  used := s.used + {task}, log := s.log + [Committed(owner)]);
      assert Step(s2, c) == Inside(u, rid, owner, CreateDone, task);
      EndedInside(u, rid, owner, CreateDone, task);
    } else {
      EndedInside(s, rid, owner, CreateCleared, task);
      assert Step(s2, c) == s.(log := s.log + [Released(owner, rid)]);
    }
  }

  lemma SixSteps(s: State, rid: RequestId, allowed: bool)
    ensures var c := Advance(rid, allowed);
            Exec(s, Steps(rid, 6, allowed)) == Step(Step(Exec(s, Steps(rid, 4, allowed)), c), c)
  {
    OneMore(s, Steps(rid, 4, allowed), Advance(rid, allowed));
    OneMore(s, Steps(rid, 5, allowed), Advance(rid, allowed));
  }

  /** The state in which this deletion holds the lock and stands at this stage. */
  function Within(s: State, rid: RequestId, owner: Owner, stage: DeletePc): State {
    s.(locks := s.locks[owner := rid], requests := s.requests[rid := Deleting(owner, stage)])
  }

  lemma EndedWithin(s: State, rid: RequestId, owner: Owner, stage: DeletePc)
    requires rid !in s.requests && owner !in s.locks
    ensures Ended(Within(s, rid, owner, stage), rid) == s.(log := s.log + [Released(owner, rid)])
  {
    assert s.locks[owner := rid] - {owner} == s.locks;
    assert s.requests[rid := Deleting(owner, stage)] - {rid} == s.requests;
  }

  /** The tables without this account: no row, no identity, and a tombstone. */
  ghost predicate IsDeleted(before: Tables, after: Tables, owner: Owner) {
    && after.locks == before.locks && after.used == before.used
    && after.tombstones == before.tombstones + {owner} && after.accounts == before.accounts - {owner}
    && (forall k :: k in after.tasks <==> k in before.tasks && before.tasks[k].owner != owner)
    && (forall k :: k in after.tasks ==> after.tasks[k] == before.tasks[k])
  }

  /**
   The deletion of an account, undisturbed, is a run of the machine. It deletes the account exactly when its lock is
   free, the route allows it and none of its tasks is active; otherwise it leaves the tables as they are.
   */
  lemma DeleteAlone(s: State, rid: RequestId, owner: Owner, allowed: bool)
    requires Inv(s) && rid !in s.requests
    ensures var t := Exec(Started(s, rid, Deleting(owner, DeleteStart)), Steps(rid, 6, allowed));
            && t.requests == s.requests
            && if owner !in s.locks && allowed && (forall k :: k in s.tasks && s.tasks[k].owner == owner ==> !s.tasks[k].active)
               then IsDeleted(TablesOf(s), TablesOf(t), owner) else TablesOf(t) == TablesOf(s)
    ensures MayDelete(TablesOf(s), owner, allowed) <==>
              owner !in s.locks && allowed && forall k :: k in s.tasks && s.tasks[k].owner == owner ==> !s.tasks[k].active
  {
    DeletionRuns(s, rid, owner, allowed);
  }

  lemma DeletionRuns(s: State, rid: RequestId, owner: Owner, allowed: bool)
    requires Inv(s) && rid !in s.requests
    ensures var t := Exec(Started(s, rid, Deleting(owner, DeleteStart)), Steps(rid, 6, allowed));
            && t.requests == s.requests
            && if MayDelete(TablesOf(s), owner, allowed) then IsDeleted(TablesOf(s), TablesOf(t), owner) else TablesOf(t) == TablesOf(s)
  {
    var c, s0 := Advance(rid, allowed), Started(s, rid, Deleting(owner, DeleteStart));
    SixSteps(s0, rid, allowed);
    FourSteps(s0, rid, allowed);
    DeletionLocks(s, rid, owner, allowed);
    if owner !in s.locks {
      if allowed && !HasActive(s.tasks, owner) {
        DeleteUnderLock(s, rid, owner);
      } else {
        RefusedUnderLock(s, rid, owner, allowed);
      }
    }
  }

  lemma DeletionLocks(s: State, rid: RequestId, owner: Owner, allowed: bool)
    requires Inv(s) && rid !in s.requests
    ensures Step(Started(s, rid, Deleting(owner, DeleteStart)), Advance(rid, allowed))
            == if owner in s.locks then s else Within(s, rid, owner, DeleteHeld)
  {
    var s0 := Started(s, rid, Deleting(owner, DeleteStart));
    assert s0.requests - {rid} == s.requests;
  }

  lemma RefusedUnderLock(s: State, rid: RequestId, owner: Owner, allowed: bool)
    requires rid !in s.requests && owner !in s.locks && !(allowed && !HasActive(s.tasks, owner))
    ensures Step(Within(s, rid, owner, DeleteHeld), Advance(rid, allowed)) == s.(log := s.log + [Released(owner, rid)])
  {
    EndedWithin(s, rid, owner, DeleteHeld);
  }

  lemma DeleteUnderLock(s: State, rid: RequestId, owner: Owner)
    requires rid !in s.requests && owner !in s.locks && !HasActive(s.tasks, owner)
    ensures var c := Advance(rid, true);
            var t := Step(Step(Step(Step(Step(Within(s, rid, owner, DeleteHeld), c), c), c), c), c);
            t.requests == s.requests && IsDeleted(TablesOf(s), TablesOf(t), owner)
  {
    var purged := s.(tasks := Purged(s.tasks, owner), log := s.log + [CheckPassed(owner, rid)] + [Erased(owner)]);
    DeletePurges(s, rid, owner);
    DeleteMarks(purged, rid, owner);
  }

  lemma DeletePurges(s: State, rid: RequestId, owner: Owner)
    requires rid !in s.requests && owner !in s.locks && !HasActive(s.tasks, owner)
    ensures var c := Advance(rid, true);
            Step(Step(Within(s, rid, owner, DeleteHeld), c), c)
            == Within(s.(tasks := Purged(s.tasks, owner), log := s.log + [CheckPassed(owner, rid)] + [Erased(owner)]),
                      rid, owner, DeletePurged)
  {
    var checked := s.(log := s.log + [CheckPassed(owner, rid)]);
    assert Step(Within(s, rid, owner, DeleteHeld), Advance(rid, true)) == Within(checked, rid, owner, DeleteChecked);
  }

  lemma DeleteMarks(s: State, rid: RequestId, owner: Owner)
    requires rid !in s.requests && owner !in s.locks
    ensures var c := Advance(rid, true);
            Step(Step(Step(Within(s, rid, owner, DeletePurged), c), c), c)
            == s.(accounts := s.accounts - {owner}, tombstones := s.tombstones + {owner},
                  log := s.log + [Tombstoned(owner)] + [Released(owner, rid)])
  {
    var c := Advance(rid, true);
    var gone := s.(accounts := s.accounts - {owner});
    assert Step(Within(s, rid, owner, DeletePurged), c) == Within(gone, rid, owner, DeleteGone);
    var marked := gone.(tombstones := s.tombstones + {owner}, log := gone.log + [Tombstoned(owner)]);
    assert Step(Within(gone, rid, owner, DeleteGone), c) == Within(marked, rid, owner, DeleteMarked);
    EndedWithin(marked, rid, owner, DeleteMarked);
  }

  class AccountOperations {
    var locks: map<Owner, RequestId>
    var tombstones: set<Owner>
    var accounts: set<Owner>
    var tasks: map<nat, Task>
    var used: set<nat>

    constructor (accounts: set<Owner>)
      ensures View() == TablesOf(Init(accounts))
    {
      locks, tombstones, this.accounts, tasks, used := map[], {}, accounts, map[], {};
    }

    ghost function View(): Tables
      reads this
    {
      Tables(locks, tombstones, accounts, tasks, used)
    }

    /** `account_operation`: take the file lock without waiting. */
    method Acquire(rid: RequestId, owner: Owner) returns (acquired: bool)
      modifies this`locks
      ensures acquired <==> owner !in old(locks)
      ensures locks == if acquired then old(locks)[owner := rid] else old(locks)
    {
      acquired := owner !in locks;
      if acquired {
        locks := locks[owner := rid];
      }
    }

    method Release(rid: RequestId, owner: Owner)
      requires owner in locks && locks[owner] == rid
      modifies this`locks
      ensures locks == old(locks) - {owner}
    {
      locks := locks - {owner};
    }

    method MarkAccountDeleted(owner: Owner)
      modifies this`tombstones
      ensures tombstones == old(tombstones) + {owner}
    {
      tombstones := tombstones + {owner};
    }

    /** `create_task`: lock, tombstone check, first durable write, release. */
    method CreateTask(rid: RequestId, owner: Owner, task: nat, allowed: bool) returns (created: bool)
      modifies this
      ensures created <==> MayCreate(old(View()), owner, task, allowed)
      ensures View() == if created then Created(old(View()), owner, task) else old(View())
    {
      created := false;
      var acquired := Acquire(rid, owner);
      if !acquired {
        return;
      }
      if owner !in tombstones && allowed && task !in used {
        tasks, used := tasks[task := Task(owner, true)], used + {task};
        created := true;
      }
      Release(rid, owner);
      assert locks == old(locks);
    }

    /** `save` of a copy that a worker holds: no lock is taken and no tombstone is looked at. */
    method SaveTask(owner: Owner, task: nat, active: bool)
      modifies this`tasks
      ensures tasks == Saved(old(tasks), task, owner, active)
    {
      if task in tasks {
        tasks := tasks[task := tasks[task].(active := tasks[task].active && active)];
      } else {
        tasks := tasks[task := Task(owner, active)];
      }
    }

    /** The deletion of an account: active check, purge, identity, tombstone, all under the lock. */
    method DeleteAccount(rid: RequestId, owner: Owner, allowed: bool) returns (deleted: bool)
      modifies this
      ensures deleted <==> MayDelete(old(View()), owner, allowed)
      ensures View() == if deleted
                        then Tables(old(locks), old(tombstones) + {owner}, old(accounts) - {owner},
                                    Purged(old(tasks), owner), old(used))
                        else old(View())
    {
      deleted := false;
      var acquired := Acquire(rid, owner);
      if !acquired {
        return;
      }
      var active := exists t :: t in tasks && tasks[t].owner == owner && tasks[t].active;
      if allowed && !active {
        tasks := map t | t in tasks && tasks[t].owner != owner :: tasks[t];
        accounts := accounts - {owner};
        MarkAccountDeleted(owner);
        deleted := true;
      }
      Release(rid, owner);
      assert locks == old(locks);
    }
  }
}
