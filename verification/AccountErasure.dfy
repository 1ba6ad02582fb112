/**
 What a deletion leaves behind when workers still hold copies of the account's tasks: `AgentTaskStore.save` inserts a
 missing row under no lock, so a copy that is saved after the purge brings its row back.
 */
module AccountErasure {
  import opened Common
  import opened AccountFence

  // ----- invariant -----

  /** Ids are given out once, and a copy belongs to the owner of its row. */
  ghost predicate CopiesOk(s: State) {
    && s.tasks.Keys <= s.used && s.copies.Keys <= s.used
    && forall k {:trigger s.copies[k]} :: k in s.copies && k in s.tasks ==> s.tasks[k].owner == s.copies[k]
  }

  lemma StepKeepsCopies(s: State, c: Choice)
    requires CopiesOk(s)
    ensures CopiesOk(Step(s, c))
  {}

  /** Since the last erasure, has a save brought a row of this owner back? */
  predicate BroughtBack(log: seq<Event>, o: Owner) {
    log != []
    && (log[|log| - 1] == Reinserted(o) || (log[|log| - 1] != Erased(o) && BroughtBack(log[..|log| - 1], o)))
  }

  /** Since the last passed check of a deletion? */
  predicate BroughtBackSinceCheck(log: seq<Event>, o: Owner) {
    log != []
    && (log[|log| - 1] == Reinserted(o)
        || (!(log[|log| - 1].CheckPassed? && log[|log| - 1].owner == o) && BroughtBackSinceCheck(log[..|log| - 1], o)))
  }

  lemma OneMoreEvent(log: seq<Event>, e: Event, o: Owner)
    ensures BroughtBack(log + [e], o) <==> e == Reinserted(o) || (e != Erased(o) && BroughtBack(log, o))
    ensures BroughtBackSinceCheck(log + [e], o) <==>
            e == Reinserted(o) || (!(e.CheckPassed? && e.owner == o) && BroughtBackSinceCheck(log, o))
  {
    assert (log + [e])[..|log|] == log;
  }

  predicate Holder(s: State, o: Owner, rid: RequestId) {
    rid in s.requests && Holds(s, rid, o) && s.requests[rid].Deleting? && s.requests[rid].owner == o
  }

  /** A deletion of this owner has erased its rows and goes on. */
  predicate Erasing(s: State, o: Owner) {
    o in s.locks && Holder(s, o, s.locks[o])
    && (s.requests[s.locks[o]].stage.DeletePurged? || s.requests[s.locks[o]].stage.DeleteGone?
        || s.requests[s.locks[o]].stage.DeleteMarked?)
  }

  /** A deletion of this owner has passed its active check and goes on. */
  predicate PastCheck(s: State, o: Owner) {
    o in s.locks && Holder(s, o, s.locks[o]) && Past(s.requests[s.locks[o]], o)
  }

  predicate OwnerOk(s: State, o: Owner) {
    && (o in s.tombstones || Erasing(s, o) ==> (NoRows(s, o) <==> !BroughtBack(s.log, o)))
    && (PastCheck(s, o) && HasActive(s.tasks, o) ==> BroughtBackSinceCheck(s.log, o))
  }

  /** Rows and log of this owner as they were. */
  lemma UntouchedOwner(s: State, t: State, o: Owner)
    requires OwnerOk(s, o)
    requires forall k :: (k in t.tasks && t.tasks[k].owner == o) <==> (k in s.tasks && s.tasks[k].owner == o)
    requires forall k :: k in t.tasks && t.tasks[k].owner == o ==> (t.tasks[k].active ==> s.tasks[k].active)
    requires BroughtBack(t.log, o) == BroughtBack(s.log, o)
    requires BroughtBackSinceCheck(s.log, o) ==> BroughtBackSinceCheck(t.log, o)
    requires o in t.tombstones || Erasing(t, o) ==> o in s.tombstones || Erasing(s, o)
    requires PastCheck(t, o) ==> PastCheck(s, o)
    ensures OwnerOk(t, o)
  {
    assert HasActive(t.tasks, o) ==> HasActive(s.tasks, o);
    assert NoRows(t, o) <==> NoRows(s, o);
  }

  /** A copy saved onto a missing row brings that row back. */
  lemma ReinsertKeepsOwner(s: State, k: nat, active: bool)
    requires k in s.copies && k !in s.tasks
    ensures OwnerOk(StepSave(s, k, active), s.copies[k])
  {
    var o, t := s.copies[k], StepSave(s, k, active);
    OneMoreEvent(s.log, Reinserted(o), o);
    assert k in t.tasks && t.tasks[k].owner == o;
  }

  lemma SaveKeepsOwner(s: State, k: nat, active: bool, o: Owner)
    requires CopiesOk(s) && OwnerOk(s, o) && k in s.copies
    ensures OwnerOk(StepSave(s, k, active), o)
  {
    if k !in s.tasks && s.copies[k] == o {
      ReinsertKeepsOwner(s, k, active);
    } else {
      if k !in s.tasks {
        OneMoreEvent(s.log, Reinserted(s.copies[k]), o);
      }
      UntouchedOwner(s, StepSave(s, k, active), o);
    }
  }

  lemma EndedKeepsOwner(s: State, rid: RequestId, o: Owner)
    requires Inv(s) && OwnerOk(s, o) && rid in s.requests
    ensures OwnerOk(Ended(s, rid), o)
  {
    OneMoreEvent(s.log, Released(s.requests[rid].owner, rid), o);
    UntouchedOwner(s, Ended(s, rid), o);
  }

  lemma LockedKeepsOwner(s: State, rid: RequestId, next: Request, o: Owner)
    requires Inv(s) && OwnerOk(s, o) && rid in s.requests && !Holding(s.requests[rid])
    requires next.owner == s.requests[rid].owner && !Past(next, next.owner)
    ensures OwnerOk(Locked(s, rid, next), o)
  {
    if s.requests[rid].owner in s.locks {
      EndedKeepsOwner(s, rid, o);
    } else {
      UntouchedOwner(s, Locked(s, rid, next), o);
    }
  }

  lemma CreateKeepsOwner(s: State, rid: RequestId, allowed: bool, o: Owner)
    requires Inv(s) && CopiesOk(s) && OwnerOk(s, o) && rid in s.requests && s.requests[rid].Creating?
    ensures OwnerOk(StepCreate(s, rid, allowed), o)
  {
    var r, t := s.requests[rid], StepCreate(s, rid, allowed);
    EndedKeepsOwner(s, rid, o);
    if r.step.CreateStart? {
      LockedKeepsOwner(s, rid, r.(step := CreateHeld), o);
    } else if r.step.CreateCleared? && rid in t.requests {
      OneMoreEvent(s.log, Committed(r.owner), o);
      if r.owner != o {
        UntouchedOwner(s, t, o);
      } else {
        assert Holds(s, rid, o) && Knows(s, r);
      }
    } else if rid in t.requests {
      UntouchedOwner(s, t, o);
    }
  }

  /** What a stage of a deletion that goes on reports. */
  function StageEvents(r: Request, rid: RequestId): seq<Event>
    requires r.Deleting?
  {
    match r.stage
    case DeleteHeld => [CheckPassed(r.owner, rid)]
    case DeleteChecked => [Erased(r.owner)]
    case DeleteGone => [Tombstoned(r.owner)]
    case _ => []
  }

  /** Such a stage touches rows, log and tombstone of its own account only. */
  lemma StageTouchesOwnAccount(s: State, rid: RequestId)
    requires rid in s.requests && s.requests[rid].Deleting? && !s.requests[rid].stage.DeleteStart?
    requires rid in StepDelete(s, rid, true).requests
    ensures var p, t := s.requests[rid].owner, StepDelete(s, rid, true);
            && t.locks == s.locks && t.requests == s.requests[rid := t.requests[rid]] && t.requests[rid].owner == p
            && s.tombstones <= t.tombstones <= s.tombstones + {p}
            && (t.tasks == s.tasks || t.tasks == Purged(s.tasks, p))
            && t.log == s.log + StageEvents(s.requests[rid], rid)
  {}

  /** The deletion of another account. */
  lemma OtherDeletionKeepsOwner(s: State, rid: RequestId, o: Owner)
    requires Inv(s) && OwnerOk(s, o) && rid in s.requests && s.requests[rid].Deleting? && !s.requests[rid].stage.DeleteStart?
    requires s.requests[rid].owner != o && rid in StepDelete(s, rid, true).requests
    ensures OwnerOk(StepDelete(s, rid, true), o)
  {
    StageTouchesOwnAccount(s, rid);
    OtherAccountKeepsOwner(s, StepDelete(s, rid, true), rid, o);
  }

  lemma OtherAccountKeepsOwner(s: State, t: State, rid: RequestId, o: Owner)
    requires OwnerOk(s, o) && rid in s.requests && rid in t.requests && s.requests[rid].owner != o && s.requests[rid].Deleting?
    requires t.locks == s.locks && t.requests == s.requests[rid := t.requests[rid]] && t.requests[rid].owner != o
    requires o in t.tombstones ==> o in s.tombstones
    requires t.tasks == s.tasks || t.tasks == Purged(s.tasks, s.requests[rid].owner)
    requires t.log == s.log + StageEvents(s.requests[rid], rid)
    ensures OwnerOk(t, o)
  {
    var es := StageEvents(s.requests[rid], rid);
    if es == [] {
      assert t.log == s.log;
    } else {
      assert es == [es[0]];
      OneMoreEvent(s.log, es[0], o);
    }
    UntouchedOwner(s, t, o);
  }

  lemma CheckKeepsOwner(s: State, rid: RequestId)
    requires Inv(s) && rid in s.requests && s.requests[rid].Deleting? && OwnerOk(s, s.requests[rid].owner)
    requires s.requests[rid].stage.DeleteHeld? && rid in StepDelete(s, rid, true).requests
    ensures OwnerOk(StepDelete(s, rid, true), s.requests[rid].owner)
  {
    assert Holds(s, rid, s.requests[rid].owner);
    OneMoreEvent(s.log, CheckPassed(s.requests[rid].owner, rid), s.requests[rid].owner);
  }

  lemma EraseKeepsOwner(s: State, rid: RequestId)
    requires Inv(s) && rid in s.requests && s.requests[rid].Deleting? && s.requests[rid].stage.DeleteChecked?
    ensures OwnerOk(StepDelete(s, rid, true), s.requests[rid].owner)
  {
    OneMoreEvent(s.log, Erased(s.requests[rid].owner), s.requests[rid].owner);
  }

  lemma LateStageKeepsOwner(s: State, rid: RequestId)
    requires Inv(s) && rid in s.requests && s.requests[rid].Deleting? && OwnerOk(s, s.requests[rid].owner)
    requires s.requests[rid].stage.DeletePurged? || s.requests[rid].stage.DeleteGone?
    ensures OwnerOk(StepDelete(s, rid, true), s.requests[rid].owner)
  {
    var o, t := s.requests[rid].owner, StepDelete(s, rid, true);
    assert Holds(s, rid, o);
    OneMoreEvent(s.log, Tombstoned(o), o);
    UntouchedOwner(s, t, o);
  }

  lemma DeleteKeepsOwner(s: State, rid: RequestId, allowed: bool, o: Owner)
    requires Inv(s) && OwnerOk(s, o) && rid in s.requests && s.requests[rid].Deleting?
    ensures OwnerOk(StepDelete(s, rid, allowed), o)
  {
    var r, t := s.requests[rid], StepDelete(s, rid, allowed);
    if r.stage.DeleteStart? {
      LockedKeepsOwner(s, rid, r.(stage := DeleteHeld), o);
    } else if rid !in t.requests {
      assert t == Ended(s, rid);
      EndedKeepsOwner(s, rid, o);
    } else {
      assert t == StepDelete(s, rid, true);
      if r.owner != o {
        OtherDeletionKeepsOwner(s, rid, o);
      } else if r.stage.DeleteHeld? {
        CheckKeepsOwner(s, rid);
      } else if r.stage.DeleteChecked? {
        EraseKeepsOwner(s, rid);
      } else {
        LateStageKeepsOwner(s, rid);
      }
    }
  }

  lemma StepKeepsOwner(s: State, c: Choice, o: Owner)
    requires Inv(s) && CopiesOk(s) && OwnerOk(s, o)
    ensures OwnerOk(Step(s, c), o)
  {
    match c
    case Advance(rid, allowed) =>
      if rid in s.requests {
        match s.requests[rid]
        case Creating(_, _, _) => CreateKeepsOwner(s, rid, allowed, o);
        case Deleting(_, _) => DeleteKeepsOwner(s, rid, allowed, o);
        case Exporting(p, held) =>
          if held {
            EndedKeepsOwner(s, rid, o);
          } else {
            LockedKeepsOwner(s, rid, Exporting(p, true), o);
          }
      }
    case Die(rid) =>
      if rid in s.requests {
        EndedKeepsOwner(s, rid, o);
      }
    case SaveCopy(k, active) =>
      if k in s.copies {
        SaveKeepsOwner(s, k, active, o);
      }
    case _ => UntouchedOwner(s, Step(s, c), o);
  }

  lemma {:induction false} OwnersAlways(accounts: set<Owner>, cs: seq<Choice>, o: Owner)
    ensures CopiesOk(Exec(Init(accounts), cs)) && OwnerOk(Exec(Init(accounts), cs), o)
  {
    if cs != [] {
      var s, c := Exec(Init(accounts), cs[..|cs| - 1]), cs[|cs| - 1];
      OwnersAlways(accounts, cs[..|cs| - 1], o);
      InvAlways(accounts, cs[..|cs| - 1]);
      StepKeepsCopies(s, c);
      StepKeepsOwner(s, c, o);
    }
  }

  // ----- what a deletion leaves -----

  /**
   In every reachable state a deleted account owns no task row if and only if no copy of its tasks was saved, onto a
   missing row, since its rows were erased. While a deletion is past its active check, an active task of the account
   can only have come from such a save.
   */
  lemma DeletedAccountsOwnNothingExactly(accounts: set<Owner>, cs: seq<Choice>, o: Owner)
    ensures var s := Exec(Init(accounts), cs);
            && (o in s.tombstones ==> (NoRows(s, o) <==> !BroughtBack(s.log, o)))
            && (PastCheck(s, o) && HasActive(s.tasks, o) ==> BroughtBackSinceCheck(s.log, o))
  {
    OwnersAlways(accounts, cs, o);
  }

  predicate NoCopies(s: State, o: Owner) {
    forall k :: k in s.copies ==> s.copies[k] != o
  }

  lemma StaysEmpty(s: State, c: Choice, o: Owner)
    requires Inv(s) && CopiesOk(s) && o in s.tombstones && NoRows(s, o) && NoCopies(s, o)
    ensures var t := Step(s, c); o in t.tombstones && NoRows(t, o) && NoCopies(t, o)
  {
    assert c.Advance? && c.rid in s.requests && s.requests[c.rid].Creating? && Holding(s.requests[c.rid]) ==>
        Knows(s, s.requests[c.rid]);
  }

  lemma {:induction false} StaysEmptyAlways(s: State, cs: seq<Choice>, o: Owner)
    requires Inv(s) && CopiesOk(s) && o in s.tombstones && NoRows(s, o) && NoCopies(s, o)
    ensures var t := Exec(s, cs); Inv(t) && CopiesOk(t) && o in t.tombstones && NoRows(t, o) && NoCopies(t, o)
  {
    if cs != [] {
      var t, c := Exec(s, cs[..|cs| - 1]), cs[|cs| - 1];
      StaysEmptyAlways(s, cs[..|cs| - 1], o);
      StaysEmpty(t, c, o);
      StepKeeps(t, c);
      StepKeepsCopies(t, c);
    }
  }

  ghost predicate AlwaysEmpty(s: State, o: Owner) {
    forall later :: NoRows(Exec(s, later), o)
  }

  lemma RunOfOne(s: State, c: Choice)
    ensures Exec(s, [c]) == Step(s, c)
  {
    OneMore(s, [], c);
    assert [] + [c] == [c];
  }

  lemma SavedCopyIsRow(s: State, k: nat)
    requires k in s.copies && (k in s.tasks ==> s.tasks[k].owner == s.copies[k])
    ensures !NoRows(Step(s, SaveCopy(k, false)), s.copies[k])
  {
    assert k in Step(s, SaveCopy(k, false)).tasks;
  }

  lemma CopyEndsEmptiness(s: State, o: Owner, k: nat)
    requires CopiesOk(s) && k in s.copies && s.copies[k] == o
    ensures !AlwaysEmpty(s, o)
  {
    SavedCopyIsRow(s, k);
    RunOfOne(s, SaveCopy(k, false));
    assert !NoRows(Exec(s, [SaveCopy(k, false)]), o);
  }

  lemma NoCopiesMeansEmpty(s: State, o: Owner)
    requires Inv(s) && CopiesOk(s) && o in s.tombstones && NoRows(s, o) && NoCopies(s, o)
    ensures AlwaysEmpty(s, o)
  {
    forall later ensures NoRows(Exec(s, later), o) {
      StaysEmptyAlways(s, later, o);
    }
  }

  /** A deleted account that owns nothing stays so, whatever happens, if and only if no worker holds a copy of its tasks. */
  lemma DeletedStaysEmptyExactly(accounts: set<Owner>, cs: seq<Choice>, s: State, o: Owner)
    requires s == Exec(Init(accounts), cs) && o in s.tombstones && NoRows(s, o)
    ensures AlwaysEmpty(s, o) <==> NoCopies(s, o)
  {
    InvAlways(accounts, cs);
    OwnersAlways(accounts, cs, o);
    if NoCopies(s, o) {
      NoCopiesMeansEmpty(s, o);
    } else {
      var k :| k in s.copies && s.copies[k] == o;
      CopyEndsEmptiness(s, o, k);
    }
  }

  /** Past the active check, a step makes the account active if and only if it saves an active copy onto a missing row. */
  lemma ActiveAppearsExactly(accounts: set<Owner>, cs: seq<Choice>, s: State, c: Choice, o: Owner)
    requires s == Exec(Init(accounts), cs) && PastCheck(s, o) && !HasActive(s.tasks, o)
    ensures HasActive(Step(s, c).tasks, o) <==>
            c.SaveCopy? && c.active && c.task in s.copies && s.copies[c.task] == o && c.task !in s.tasks
  {
    InvAlways(accounts, cs);
    OwnersAlways(accounts, cs, o);
    var t := Step(s, c);
    if c.SaveCopy? && c.active && c.task in s.copies && s.copies[c.task] == o && c.task !in s.tasks {
      assert t.tasks[c.task].active;
    } else if c.Advance? && c.rid in s.requests && s.requests[c.rid].Creating? && Holding(s.requests[c.rid]) {
      assert Holds(s, c.rid, s.requests[c.rid].owner);
    }
  }

  // ----- runs -----

  /** One task is created and settles, its account is deleted, and a worker that still has a copy of it saves that copy. */
  function StaleRun(): seq<Choice> {
    [StartCreate(1, 0, 5), Advance(1, true), Advance(1, true)] + [Advance(1, true), Advance(1, true), Settle(5)]
  }

  lemma ThreeSteps(s: State, a: Choice, b: Choice, c: Choice)
    ensures Exec(s, [a, b, c]) == Step(Step(Step(s, a), b), c)
  {
    OneMore(s, [], a);
    OneMore(s, [a], b);
    OneMore(s, [a, b], c);
    assert [] + [a] == [a] && [a] + [b] == [a, b] && [a, b] + [c] == [a, b, c];
  }

  function HalfCreated(): State {
    State(map[0 := 1], {}, {0}, map[], map[], {}, map[1 := Creating(0, CreateCleared, 5)], [])
  }

  function AfterCreation(): State {
    State(map[], {}, {0}, map[5 := Task(0, false)], map[5 := 0], {5}, map[], [Committed(0), Released(0, 1)])
  }

  lemma HalfCreation()
    ensures Exec(Init({0}), [StartCreate(1, 0, 5), Advance(1, true), Advance(1, true)]) == HalfCreated()
  {
    ThreeSteps(Init({0}), StartCreate(1, 0, 5), Advance(1, true), Advance(1, true));
    var s1 := Step(Init({0}), StartCreate(1, 0, 5));
    assert s1.requests == map[1 := Creating(0, CreateStart, 5)];
    var s2 := Step(s1, Advance(1, true));
    assert s2.requests == map[1 := Creating(0, CreateHeld, 5)] && s2.locks == map[0 := 1];
    assert Step(s2, Advance(1, true)) == HalfCreated();
  }

  lemma CreationEnds()
    ensures Exec(HalfCreated(), [Advance(1, true), Advance(1, true), Settle(5)]) == AfterCreation()
  {
    ThreeSteps(HalfCreated(), Advance(1, true), Advance(1, true), Settle(5));
    var s1 := Step(HalfCreated(), Advance(1, true));
    assert s1 == State(map[0 := 1], {}, {0}, map[5 := Task(0, true)], map[5 := 0], {5},
                       map[1 := Creating(0, CreateDone, 5)], [Committed(0)]);
    var s2 := Step(s1, Advance(1, true));
    assert s2.locks == map[] && s2.requests == map[];
  }

  lemma CreationRun()
    ensures Exec(Init({0}), StaleRun()) == AfterCreation()
  {
    HalfCreation();
    CreationEnds();
    RunAfter(Init({0}), [StartCreate(1, 0, 5), Advance(1, true), Advance(1, true)], [Advance(1, true), Advance(1, true), Settle(5)]);
  }

  function DeletionRun(): seq<Choice> {
    [StartDelete(2, 0), Advance(2, true), Advance(2, true)] + [Advance(2, true)] + [Advance(2, true), Advance(2, true), Advance(2, true)]
  }

  function HalfDeleted(): State {
    State(map[0 := 2], {}, {0}, map[], map[5 := 0], {5}, map[2 := Deleting(0, DeletePurged)],
          [Committed(0), Released(0, 1), CheckPassed(0, 2), Erased(0)])
  }

  lemma DeletionIsChecked()
    ensures Exec(AfterCreation(), [StartDelete(2, 0), Advance(2, true), Advance(2, true)])
         == AfterCreation().(locks := map[0 := 2], requests := map[2 := Deleting(0, DeleteChecked)],
                             log := [Committed(0), Released(0, 1), CheckPassed(0, 2)])
  {
    var s := AfterCreation();
    ThreeSteps(s, StartDelete(2, 0), Advance(2, true), Advance(2, true));
    var s1 := Step(s, StartDelete(2, 0));
    assert s1.requests == map[2 := Deleting(0, DeleteStart)];
    var s2 := Step(s1, Advance(2, true));
    assert s2.requests == map[2 := Deleting(0, DeleteHeld)] && s2.locks == map[0 := 2];
  }

  lemma FirstHalf()
    ensures Exec(AfterCreation(), [StartDelete(2, 0), Advance(2, true), Advance(2, true)] + [Advance(2, true)]) == HalfDeleted()
  {
    DeletionIsChecked();
    OneMore(AfterCreation(), [StartDelete(2, 0), Advance(2, true), Advance(2, true)], Advance(2, true));
  }

  lemma SecondHalf()
    ensures var t := Exec(HalfDeleted(), [Advance(2, true), Advance(2, true), Advance(2, true)]);
            0 in t.tombstones && t.accounts == {} && NoRows(t, 0) && t.copies == map[5 := 0] && t.tasks == map[]
  {
    var s := HalfDeleted();
    ThreeSteps(s, Advance(2, true), Advance(2, true), Advance(2, true));
    var s1 := Step(s, Advance(2, true));
    assert s1.requests == map[2 := Deleting(0, DeleteGone)] && s1.accounts == {};
    var s2 := Step(s1, Advance(2, true));
    assert s2.requests == map[2 := Deleting(0, DeleteMarked)] && 0 in s2.tombstones;
  }

  lemma AfterDeletion()
    ensures var t := Exec(AfterCreation(), DeletionRun());
            0 in t.tombstones && t.accounts == {} && NoRows(t, 0) && t.copies == map[5 := 0] && t.tasks == map[]
  {
    FirstHalf();
    SecondHalf();
    RunAfter(AfterCreation(), [StartDelete(2, 0), Advance(2, true), Advance(2, true)] + [Advance(2, true)],
             [Advance(2, true), Advance(2, true), Advance(2, true)]);
  }

  lemma {:induction false} RunAfter(s: State, cs: seq<Choice>, ds: seq<Choice>)
    ensures Exec(s, cs + ds) == Exec(Exec(s, cs), ds)
  {
    if ds == [] {
      assert cs + ds == cs;
    } else {
      RunAfter(s, cs, ds[..|ds| - 1]);
      assert cs + ds == (cs + ds[..|ds| - 1]) + [ds[|ds| - 1]];
      OneMore(s, cs + ds[..|ds| - 1], ds[|ds| - 1]);
    }
  }

  /** It happens: after its deletion the account owns a task row again. */
  lemma StaleSaveOutlivesDeletion()
    ensures var s := Exec(Init({0}), StaleRun() + DeletionRun() + [SaveCopy(5, false)]);
            0 in s.tombstones && 0 !in s.accounts && 5 in s.tasks && s.tasks[5].owner == 0
  {
    var s0 := Init({0});
    CreationRun();
    AfterDeletion();
    RunAfter(s0, StaleRun(), DeletionRun());
    OneMore(s0, StaleRun() + DeletionRun(), SaveCopy(5, false));
  }

  // ----- a crash before the tombstone -----

  /**
   A deletion that dies between the removal of the identity and the tombstone leaves neither behind: a creation that
   comes later, for the account that no longer exists, commits.
   */
  lemma CrashBeforeTombstoneLetsCreationCommit(
    accounts: set<Owner>, cs: seq<Choice>, s: State, d: RequestId, rid: RequestId, task: nat)
    requires s == Exec(Init(accounts), cs) && d in s.requests && s.requests[d].Deleting? && s.requests[d].stage.DeleteGone?
    requires s.requests[d].owner !in s.tombstones && rid !in s.requests && task !in s.used
    ensures var o, t := s.requests[d].owner, Step(s, Die(d));
            var u := Exec(Started(t, rid, Creating(o, CreateStart, task)), Steps(rid, 4, true));
            && o !in t.tombstones && o !in t.locks
            && task in u.tasks && u.tasks[task] == Task(o, true) && o !in u.accounts
  {
    var o, t := s.requests[d].owner, Step(s, Die(d));
    InvAlways(accounts, cs);
    IdentityGoneAlways(accounts, cs);
    StepKeeps(s, Die(d));
    assert Holds(s, d, o);
    CreateAlone(t, rid, o, task, true);
  }

  /** The identity is gone at that point. */
  predicate IdentityGone(s: State) {
    forall d :: d in s.requests && s.requests[d].Deleting? && (s.requests[d].stage.DeleteGone? || s.requests[d].stage.DeleteMarked?) ==>
      s.requests[d].owner !in s.accounts
  }

  lemma {:induction false} IdentityGoneAlways(accounts: set<Owner>, cs: seq<Choice>)
    ensures IdentityGone(Exec(Init(accounts), cs))
  {
    if cs != [] {
      IdentityGoneAlways(accounts, cs[..|cs| - 1]);
      IdentityStaysGone(Exec(Init(accounts), cs[..|cs| - 1]), cs[|cs| - 1]);
    }
  }

  lemma AccountsShrink(s: State, c: Choice)
    ensures Step(s, c).accounts <= s.accounts
  {}

  /** A deletion reaches that point by removing the identity. */
  lemma OwnStepRemovesIdentity(s: State, d: RequestId, allowed: bool)
    requires IdentityGone(s) && d in s.requests && s.requests[d].Deleting? && d in StepDelete(s, d, allowed).requests
    ensures var r := StepDelete(s, d, allowed).requests[d];
            && r.Deleting?
            && (r.stage.DeleteGone? || r.stage.DeleteMarked? ==> r.owner !in StepDelete(s, d, allowed).accounts)
  {}

  /** A request that holds its lock is not new. */
  lemma HolderIsNotNew(s: State, c: Choice, d: RequestId)
    requires d in Step(s, c).requests && Holding(Step(s, c).requests[d])
    ensures d in s.requests
  {
    if c.Advance? && c.rid in s.requests {
      AdvanceIsOwn(s, c.rid, c.allowed);
    }
  }

  lemma IdentityStaysGone(s: State, c: Choice)
    requires IdentityGone(s)
    ensures IdentityGone(Step(s, c))
  {
    var t := Step(s, c);
    AccountsShrink(s, c);
    forall d | d in t.requests && t.requests[d].Deleting? && (t.requests[d].stage.DeleteGone? || t.requests[d].stage.DeleteMarked?)
      ensures t.requests[d].owner !in t.accounts
    {
      HolderIsNotNew(s, c, d);
      if c.Advance? && c.rid == d {
        OwnStepKeepsGone(s, d, c.allowed);
      } else if !(c.Die? && c.rid == d) {
        OthersLeaveRequest(s, c, d);
      }
    }
  }

  lemma OwnStepKeepsGone(s: State, d: RequestId, allowed: bool)
    requires IdentityGone(s) && d in s.requests && d in StepAdvance(s, d, allowed).requests
    ensures var t := StepAdvance(s, d, allowed);
            t.requests[d].Deleting? && (t.requests[d].stage.DeleteGone? || t.requests[d].stage.DeleteMarked?) ==>
              t.requests[d].owner !in t.accounts
  {
    if s.requests[d].Deleting? {
      OwnStepRemovesIdentity(s, d, allowed);
    }
  }

  // ----- which step loses the tombstone, and what that costs -----

  /** A deletion of this owner holds the lock between the removal of the identity and the tombstone. */
  predicate AboutToMark(s: State, o: Owner) {
    o in s.locks && Holder(s, o, s.locks[o]) && s.requests[s.locks[o]].stage.DeleteGone?
  }

  /** The identity is gone, no tombstone is there, and no deletion is about to write it. */
  predicate Exposed(s: State, o: Owner) {
    o !in s.accounts && o !in s.tombstones && !AboutToMark(s, o)
  }

  /** A deletion of this owner that has removed the identity. */
  predicate Gone(s: State, rid: RequestId, o: Owner) {
    rid in s.requests && s.requests[rid].Deleting? && s.requests[rid].owner == o && s.requests[rid].stage.DeleteGone?
  }

  lemma GoneHoldsLock(s: State, rid: RequestId, o: Owner)
    requires Inv(s) && Gone(s, rid, o)
    ensures AboutToMark(s, o) && s.locks[o] == rid
  {
    assert Holds(s, rid, o);
  }

  /** The removal of an identity is the work of a deletion that then is about to write the tombstone. */
  lemma RemovalIsAboutToMark(s: State, c: Choice, o: Owner)
    requires Inv(s) && o in s.accounts && o !in Step(s, c).accounts
    ensures AboutToMark(Step(s, c), o)
  {
    StepKeeps(s, c);
    GoneHoldsLock(Step(s, c), c.rid, o);
  }

  /** Such a deletion writes it with its next step, unless it dies. */
  lemma AboutToMarkMarks(s: State, c: Choice, o: Owner)
    requires Inv(s) && AboutToMark(s, o) && c != Die(s.locks[o])
    ensures o in Step(s, c).tombstones || AboutToMark(Step(s, c), o)
  {
    var d := s.locks[o];
    StepKeeps(s, c);
    if !(c.Advance? && c.rid == d) {
      OthersLeaveRequest(s, c, d);
      GoneHoldsLock(Step(s, c), d, o);
    }
  }

  /**
   In every reachable state the one step that leaves an account with neither identity nor tombstone is the death of its
   deletion between the two.
   */
  lemma TombstoneIsLostExactly(accounts: set<Owner>, cs: seq<Choice>, s: State, c: Choice, o: Owner)
    requires s == Exec(Init(accounts), cs) && !Exposed(s, o)
    ensures Exposed(Step(s, c), o) <==> c.Die? && Gone(s, c.rid, o) && o !in s.tombstones
  {
    InvAlways(accounts, cs);
    IdentityGoneAlways(accounts, cs);
    StepAddsOne(s, c);
    AccountsShrink(s, c);
    if c.Die? && Gone(s, c.rid, o) {
      GoneHoldsLock(s, c.rid, o);
    } else if o !in s.tombstones {
      if o in s.accounts {
        if o !in Step(s, c).accounts {
          RemovalIsAboutToMark(s, c, o);
        }
      } else {
        AboutToMarkMarks(s, c, o);
      }
    }
  }

  /** No creation of this account commits from now on, whatever happens. */
  ghost predicate NeverCommits(s: State, o: Owner) {
    forall later, c {:trigger Commits(Exec(s, later), c)} ::
      Commits(Exec(s, later), c) ==> Exec(s, later).requests[c.rid].owner != o
  }

  lemma {:induction false} TombstoneStays(s: State, later: seq<Choice>, o: Owner)
    requires Inv(s) && o in s.tombstones
    ensures Inv(Exec(s, later)) && o in Exec(s, later).tombstones
  {
    if later != [] {
      var t, c := Exec(s, later[..|later| - 1]), later[|later| - 1];
      TombstoneStays(s, later[..|later| - 1], o);
      StepKeeps(t, c);
      StepAddsOne(t, c);
    }
  }

  lemma TombstoneStopsCommits(s: State, o: Owner)
    requires Inv(s) && o in s.tombstones
    ensures NeverCommits(s, o)
  {
    forall later, c | Commits(Exec(s, later), c) ensures Exec(s, later).requests[c.rid].owner != o {
      TombstoneStays(s, later, o);
      assert Knows(Exec(s, later), Exec(s, later).requests[c.rid]);
    }
  }

  /** With the lock free and no tombstone, a creation gets to its commit. */
  lemma CreationCommits(s: State, o: Owner, rid: RequestId, task: nat)
    requires o !in s.tombstones && o !in s.locks && rid !in s.requests && task !in s.used
    ensures !NeverCommits(s, o)
  {
    var go := Advance(rid, true);
    var run := [StartCreate(rid, o, task), go, go];
    ThreeSteps(s, StartCreate(rid, o, task), go, go);
    var s1 := Step(s, StartCreate(rid, o, task));
    assert Step(s1, go) == Inside(s, rid, o, CreateHeld, task);
    assert Step(Inside(s, rid, o, CreateHeld, task), go) == Inside(s, rid, o, CreateCleared, task);
    assert Commits(Exec(s, run), go);
  }

  lemma CommitAfter(s: State, c: Choice, o: Owner)
    requires !NeverCommits(Step(s, c), o)
    ensures !NeverCommits(s, o)
  {
    var later, d :| Commits(Exec(Step(s, c), later), d) && Exec(Step(s, c), later).requests[d.rid].owner == o;
    RunOfOne(s, c);
    RunAfter(s, [c], later);
    assert Commits(Exec(s, [c] + later), d);
  }

  /** In every reachable state the tombstone, and nothing else, stops the creations of an account for good. */
  lemma TombstoneStopsCreationsExactly(accounts: set<Owner>, cs: seq<Choice>, s: State, o: Owner)
    requires s == Exec(Init(accounts), cs)
    ensures NeverCommits(s, o) <==> o in s.tombstones
  {
    InvAlways(accounts, cs);
    if o in s.tombstones {
      TombstoneStopsCommits(s, o);
    } else {
      var rid := FreshNat(s.requests.Keys);
      var task := FreshNat(s.used);
      if o in s.locks {
        var holder := s.locks[o];
        assert s.requests[holder].owner == o;
        CreationCommits(Step(s, Die(holder)), o, rid, task);
        CommitAfter(s, Die(holder), o);
      } else {
        CreationCommits(s, o, rid, task);
      }
    }
  }
}
