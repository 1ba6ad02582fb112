/** What any run of `AgentTaskStore.Save` calls by any stale workers leaves in the row of one task. */
module AgentTaskHistory {
  import opened Common
  import opened AgentTasks

  /** The table after a sequence of save calls, in transaction order. */
  function Run(calls: seq<Task>): Rows {
    if calls == [] then map[]
    else SaveSpec(Run(calls[..|calls| - 1]), calls[|calls| - 1])
  }

  /** The accepted snapshots of one task among the calls, as `Prepare` normalised them. */
  function Accepted(calls: seq<Task>, id: string): seq<Task> {
    if calls == [] then []
    else
      var front := Accepted(calls[..|calls| - 1], id);
      match Prepare(calls[|calls| - 1])
      case Err(_) => front
      case Ok(inc) => if inc.id == id then front + [inc] else front
  }

  /** Every merge of a non-empty history, oldest first. */
  function Stored(h: seq<Task>): Task
    requires h != []
  {
    if |h| == 1 then h[0] else Merge(Stored(h[..|h| - 1]), h[|h| - 1])
  }

  /** Other tasks never matter: the row of `id` is the fold of its own accepted snapshots. */
  lemma {:induction false} RunIsFoldOfAccepted(calls: seq<Task>, id: string)
    ensures id in Run(calls) <==> Accepted(calls, id) != []
    ensures id in Run(calls) ==> Run(calls)[id] == Stored(Accepted(calls, id))
  {
    if calls != [] {
      var front := calls[..|calls| - 1];
      RunIsFoldOfAccepted(front, id);
      var p := Prepare(calls[|calls| - 1]);
      if p.Ok? && p.value.id == id {
        var h := Accepted(calls, id);
        assert h[..|h| - 1] == Accepted(front, id);
      }
    }
  }

  // ----- what Prepare guarantees -----

  /** Lineage rule: retry children have a parent, a positive index and a foreign root; all other tasks are their own root. */
  predicate LineageRule(t: Task) {
    var Lineage(kind, root, index) := t.lineage;
    && !kind.Unknown?
    && if kind.AutoRetry? then t.parent != "" && index >= 1 && root != t.id && root != ""
       else index == 0 && root == t.id && (!kind.User? ==> t.parent != "")
  }

  ghost predicate Prepared(t: Task) {
    && t.id != ""
    && LineageRule(t)
    && (forall f :: f in t.changed ==> |f| <= 1000)
    && |t.events| <= MAX_EVENTS
    && (forall e :: e in t.events ==> Normalize(e) == e)
  }

  lemma PrepareEstablishes(t: Task)
    ensures Prepare(t).Ok? ==> Prepared(Prepare(t).value)
  {
    if Prepare(t).Ok? {
      var r := Prepare(t).value;
      forall f | f in r.changed ensures |f| <= 1000 {}
      forall e | e in r.events ensures Normalize(e) == e {}
    }
  }

  lemma {:induction false} AcceptedArePrepared(calls: seq<Task>, id: string)
    ensures forall t :: t in Accepted(calls, id) ==> Prepared(t) && t.id == id
  {
    if calls != [] {
      AcceptedArePrepared(calls[..|calls| - 1], id);
      PrepareEstablishes(calls[|calls| - 1]);
    }
  }

  ghost predicate AllPrepared(h: seq<Task>) {
    h != [] && forall t :: t in h ==> Prepared(t) && t.id == h[0].id
  }

  lemma FrontPrepared(h: seq<Task>)
    requires AllPrepared(h) && |h| > 1
    ensures AllPrepared(h[..|h| - 1]) && Prepared(h[|h| - 1])
  {
    assert h[|h| - 1] in h;
    forall t | t in h[..|h| - 1] ensures t in h {}
  }

  // ----- terminal state -----

  /** The first snapshot with a terminal status, or the last snapshot when there is none. */
  function Deciding(h: seq<Task>): (k: nat)
    requires h != []
    ensures k < |h|
    ensures forall i :: 0 <= i < k ==> !h[i].outcome.status.Terminal()
    ensures h[k].outcome.status.Terminal() || k == |h| - 1
  {
    if |h| == 1 || h[0].outcome.status.Terminal() then 0
    else 1 + Deciding(h[1..])
  }

  lemma {:induction false} TerminalOutcome(h: seq<Task>)
    requires h != []
    ensures Stored(h).outcome == h[Deciding(h)].outcome
  {
    if |h| > 1 {
      var front := h[..|h| - 1];
      TerminalOutcome(front);
      var j, k := Deciding(front), Deciding(h);
      assert front[j] == h[j];
      if front[j].outcome.status.Terminal() {
        assert j == k;
      } else {
        assert forall i :: 0 <= i < |h| - 1 ==> h[i] == front[i];
        assert k == |h| - 1;
      }
    }
  }

  /** Over any run of saves the stored outcome is that of the first terminal save, or of the last save. */
  lemma OutcomeOfAccepted(calls: seq<Task>, id: string)
    requires id in Run(calls)
    ensures Accepted(calls, id) != []
    ensures Run(calls)[id].outcome == Accepted(calls, id)[Deciding(Accepted(calls, id))].outcome
  {
    RunIsFoldOfAccepted(calls, id);
    TerminalOutcome(Accepted(calls, id));
  }

  // ----- joins -----

  function UnionChanged(hs: set<Task>): set<string> {
    set t, f | t in hs && f in t.changed :: f
  }

  /** The row holds the union, the disjunctions and the maximum over a set of snapshots. */
  ghost predicate IsJoin(hs: set<Task>, row: Task) {
    && row.changed == UnionChanged(hs)
    && (row.cancel <==> exists t :: t in hs && t.cancel)
    && (row.pushed <==> exists t :: t in hs && t.pushed)
    && (forall t :: t in hs ==> t.updatedAt <= row.updatedAt)
    && (exists t :: t in hs && t.updatedAt == row.updatedAt)
  }

  lemma SingleIsJoin(t: Task)
    ensures IsJoin({t}, t)
  {
    assert t in {t};
    assert t.changed == UnionChanged({t});
  }

  lemma MergedChanged(hs: set<Task>, row: Task, inc: Task)
    requires row.changed == UnionChanged(hs)
    requires forall f :: f in row.changed ==> |f| <= 1000
    ensures Merge(row, inc).changed == UnionChanged(hs + {inc})
  {
    assert (set f | f in row.changed :: Take(f, 1000)) == row.changed by {
      forall f | f in row.changed ensures Take(f, 1000) == f {}
    }
    var all := UnionChanged(hs + {inc});
    forall f | f in row.changed + inc.changed ensures f in all {
      if f in row.changed {
        var t :| t in hs && f in t.changed;
        assert t in hs + {inc};
      } else {
        assert inc in hs + {inc};
      }
    }
  }

  lemma MergeExtendsJoin(hs: set<Task>, row: Task, inc: Task)
    requires IsJoin(hs, row)
    requires forall t :: t in hs ==> Prepared(t)
    ensures IsJoin(hs + {inc}, Merge(row, inc))
  {
    forall f | f in row.changed ensures |f| <= 1000 {
      var t :| t in hs && f in t.changed;
    }
    MergedChanged(hs, row, inc);
    var latest :| latest in hs && latest.updatedAt == row.updatedAt;
    assert (if inc.updatedAt <= row.updatedAt then latest else inc) in hs + {inc};
    assert inc in hs + {inc};
  }

  lemma SetOfMore(h: seq<Task>, t: Task)
    ensures SetOf(h + [t]) == SetOf(h) + {t}
  {}

  lemma StoredOfMore(h: seq<Task>, t: Task)
    requires h != []
    ensures Stored(h + [t]) == Merge(Stored(h), t)
  {
    assert (h + [t])[..|h|] == h;
  }

  /** The row of these saves joins them. */
  ghost predicate Joined(h: seq<Task>)
    requires h != []
  {
    IsJoin(SetOf(h), Stored(h))
  }

  lemma JoinedOfMore(h: seq<Task>, t: Task)
    requires AllPrepared(h) && Joined(h)
    ensures Joined(h + [t])
  {
    MergeExtendsJoin(SetOf(h), Stored(h), t);
    SetOfMore(h, t);
    StoredOfMore(h, t);
  }

  lemma JoinedOfOne(t: Task)
    ensures Joined([t])
  {
    assert SetOf([t]) == {t};
    SingleIsJoin(t);
  }

  lemma {:induction false} StoredIsJoin(h: seq<Task>)
    requires AllPrepared(h)
    ensures Joined(h)
  {
    if |h| == 1 {
      assert h == [h[0]];
      JoinedOfOne(h[0]);
    } else {
      var front, last := h[..|h| - 1], h[|h| - 1];
      assert h == front + [last];
      FrontPrepared(h);
      StoredIsJoin(front);
      JoinedOfMore(front, last);
    }
  }

  /** Changed files, both flags and the update time are the joins of all accepted saves. */
  lemma JoinOfAccepted(calls: seq<Task>, id: string)
    requires id in Run(calls)
    ensures IsJoin(SetOf(Accepted(calls, id)), Run(calls)[id])
  {
    RunIsFoldOfAccepted(calls, id);
    AcceptedArePrepared(calls, id);
    StoredIsJoin(Accepted(calls, id));
  }

  // ----- fixed and sticky fields -----

  /** `v` is the last non-empty element, or empty when there is none. */
  ghost predicate IsLastNonEmpty(values: seq<string>, v: string) {
    if v == "" then forall i :: 0 <= i < |values| ==> values[i] == ""
    else exists i :: 0 <= i < |values| && values[i] == v && forall j :: i < j < |values| ==> values[j] == ""
  }

  lemma StickyKeepsLast(values: seq<string>, v: string, next: string)
    requires IsLastNonEmpty(values, v)
    ensures IsLastNonEmpty(values + [next], Sticky(next, v))
  {
    var all := values + [next];
    if next != "" {
      assert all[|values|] == next;
    } else if v != "" {
      var i :| 0 <= i < |values| && values[i] == v && forall j :: i < j < |values| ==> values[j] == "";
      assert all[i] == v;
    }
  }

  ghost predicate FixedAndSticky(h: seq<Task>, row: Task)
    requires h != []
  {
    && row.id == h[0].id && row.owner == h[0].owner && row.createdAt == h[0].createdAt
    && row.lineage == h[0].lineage
    && IsLastNonEmpty(Map((t: Task) => t.publication.branch, h), row.publication.branch)
    && IsLastNonEmpty(Map((t: Task) => t.publication.commitSha, h), row.publication.commitSha)
    && IsLastNonEmpty(Map((t: Task) => t.publication.prUrl, h), row.publication.prUrl)
    && IsLastNonEmpty(Map((t: Task) => t.parent, h), row.parent)
    && LineageRule(row)
  }

  /** One more save of a field that only a non-empty value replaces. */
  lemma StickyField(f: Task -> string, h: seq<Task>, v: string, t: Task)
    requires IsLastNonEmpty(Map(f, h), v)
    ensures IsLastNonEmpty(Map(f, h + [t]), Sticky(f(t), v))
  {
    assert Map(f, h + [t]) == Map(f, h) + [f(t)];
    StickyKeepsLast(Map(f, h), v, f(t));
  }

  lemma MergedIsFixedAndSticky(h: seq<Task>, row: Task, t: Task)
    requires h != [] && FixedAndSticky(h, row) && Prepared(t) && t.id == h[0].id
    ensures FixedAndSticky(h + [t], Merge(row, t))
  {
    StickyField((t: Task) => t.publication.branch, h, row.publication.branch, t);
    StickyField((t: Task) => t.publication.commitSha, h, row.publication.commitSha, t);
    StickyField((t: Task) => t.publication.prUrl, h, row.publication.prUrl, t);
    StickyField((t: Task) => t.parent, h, row.parent, t);
  }

  lemma SingleIsFixedAndSticky(t: Task)
    requires Prepared(t)
    ensures FixedAndSticky([t], t)
  {}

  lemma {:induction false} StoredIsFixedAndSticky(h: seq<Task>)
    requires AllPrepared(h)
    ensures FixedAndSticky(h, Stored(h))
  {
    if |h| == 1 {
      assert h == [h[0]] && h[0] in h;
      SingleIsFixedAndSticky(h[0]);
    } else {
      var front, last := h[..|h| - 1], h[|h| - 1];
      assert h == front + [last] && last in h;
      FrontPrepared(h);
      StoredIsFixedAndSticky(front);
      StoredOfMore(front, last);
      MergedIsFixedAndSticky(front, Stored(front), last);
    }
  }

  /** Identity and lineage are those of the first save; publication fields and the parent are the last non-empty ones. */
  lemma LineageOfAccepted(calls: seq<Task>, id: string)
    requires id in Run(calls)
    ensures Accepted(calls, id) != []
    ensures FixedAndSticky(Accepted(calls, id), Run(calls)[id])
  {
    RunIsFoldOfAccepted(calls, id);
    AcceptedArePrepared(calls, id);
    StoredIsFixedAndSticky(Accepted(calls, id));
  }

  function RunFrom(rows: Rows, calls: seq<Task>): Rows {
    if calls == [] then rows
    else SaveSpec(RunFrom(rows, calls[..|calls| - 1]), calls[|calls| - 1])
  }

  /** Once a terminal row has released its worktree, no continuation of the run gives it one again. */
  lemma {:induction false} ReleasedWorktreeStaysReleased(rows: Rows, calls: seq<Task>, id: string)
    requires id in rows && rows[id].outcome.status.Terminal() && rows[id].worktree == ""
    ensures id in RunFrom(rows, calls)
    ensures RunFrom(rows, calls)[id].worktree == "" && RunFrom(rows, calls)[id].outcome == rows[id].outcome
  {
    if calls != [] {
      ReleasedWorktreeStaysReleased(rows, calls[..|calls| - 1], id);
    }
  }
}
