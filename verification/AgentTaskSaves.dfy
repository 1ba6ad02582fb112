/**
 What the stored row says of the snapshots as the workers handed them in: which saves are accepted, and what of their
 contents is stored, over any run of `AgentTaskStore.save`.
 */
module AgentTaskSaves {
  import opened Common
  import opened AgentTasks
  import opened AgentTaskHistory
  import opened AgentTaskEvents

  // ----- which snapshots are accepted -----

  /** Identifiers are read without surrounding white space and in lower case. */
  predicate Acceptable(t: Task) {
    && IsTaskId(Lower(Strip(t.id))) && IsOwner(Strip(t.owner))
    && (Lower(Strip(t.parent)) == "" || IsTaskId(Lower(Strip(t.parent))))
    && !t.lineage.kind.Unknown?
    && if t.lineage.kind.AutoRetry? then
         && Lower(Strip(t.parent)) != "" && t.lineage.index >= 1
         && IsTaskId(Lower(Strip(t.lineage.root))) && Lower(Strip(t.lineage.root)) != Lower(Strip(t.id))
       else t.lineage.index == 0 && (t.lineage.kind.User? || Lower(Strip(t.parent)) != "")
  }

  predicate EventCut(stored: Event, given: Event) {
    IsCut(stored.kind, given.kind, 100) && IsCut(stored.message, given.message, 4000) && stored.at == given.at
  }

  /** The last 300 of the given events, each cut to its limits. */
  predicate EventsCut(stored: seq<Event>, given: seq<Event>) {
    && |stored| == Min(|given|, 300)
    && forall k :: 0 <= k < |stored| ==> EventCut(stored[k], given[|given| - |stored| + k])
  }

  ghost predicate PathsCut(stored: set<string>, given: set<string>) {
    forall f :: f in stored <==> exists g :: g in given && IsCut(f, g, 1000)
  }

  /** Every field but identity and lineage is its own, cut to its limit. */
  ghost predicate ContentsForm(r: Task, t: Task) {
    && DetailsCut(r.details, t.details) && OutcomeCut(r.outcome, t.outcome)
    && IsCut(r.publication.branch, t.publication.branch, 300)
    && IsCut(r.publication.commitSha, t.publication.commitSha, 100)
    && IsCut(r.publication.prUrl, t.publication.prUrl, 2000)
    && IsCut(r.worktree, t.worktree, 2000)
    && r.pushed == t.pushed && r.cancel == t.cancel && r.createdAt == t.createdAt && r.updatedAt == t.updatedAt
    && PathsCut(r.changed, t.changed) && EventsCut(r.events, t.events)
  }

  /** The stored form of an accepted snapshot. */
  ghost predicate StoredForm(r: Task, t: Task) {
    && r.id == Lower(Strip(t.id)) && r.owner == Strip(t.owner) && r.parent == Lower(Strip(t.parent))
    && r.lineage.kind == t.lineage.kind && r.lineage.index == t.lineage.index
    && r.lineage.root == (if t.lineage.kind.AutoRetry? then Lower(Strip(t.lineage.root)) else r.id)
    && ContentsForm(r, t)
  }

  predicate DetailsCut(r: Details, t: Details) {
    && IsCut(r.prompt, t.prompt, 12000) && r.projectId == t.projectId && IsCut(r.projectName, t.projectName, 200)
    && IsCut(r.repository, t.repository, 300) && IsCut(r.baseBranch, t.baseBranch, 180)
  }

  predicate OutcomeCut(r: Outcome, t: Outcome) {
    r.status == t.status && IsCut(r.result, t.result, 200000) && IsCut(r.error, t.error, 10000)
  }

  lemma CutPaths(given: set<string>)
    ensures PathsCut(set f | f in given :: Take(f, 1000), given)
  {
    forall f, g | g in given && IsCut(f, g, 1000) ensures f == Take(g, 1000) {}
  }

  lemma NormalizedIsCut(s: seq<Event>)
    ensures EventsCut(Map(Normalize, Last(s, MAX_EVENTS)), s)
  {
    var l := Last(s, MAX_EVENTS);
    forall k | 0 <= k < |l| ensures EventCut(Normalize(l[k]), s[|s| - |l| + k]) {}
  }

  lemma TruncatedForm(t: Task, id: string, owner: string, parent: string, root: string)
    ensures var r := Truncated(t, id, owner, parent, root);
            && r.id == id && r.owner == owner && r.parent == parent && r.lineage == t.lineage.(root := root)
            && ContentsForm(r, t)
  {
    CutPaths(t.changed);
    NormalizedIsCut(t.events);
  }

  /** `save` accepts exactly these, and stores them in exactly this form. */
  lemma AcceptedInStoredForm(t: Task)
    ensures Prepare(t).Ok? <==> Acceptable(t)
    ensures Acceptable(t) ==> StoredForm(Prepare(t).value, t)
  {
    var id, owner, parent, root := CleanId(t.id), Strip(t.owner), CleanId(t.parent), CleanId(t.lineage.root);
    TruncatedForm(t, id, owner, parent, root);
    TruncatedForm(t, id, owner, parent, id);
  }

  // ----- the accepted saves of one task, as they were handed in -----

  function Saves(calls: seq<Task>, id: string): seq<Task> {
    if calls == [] then []
    else
      var front, t := Saves(calls[..|calls| - 1], id), calls[|calls| - 1];
      if Acceptable(t) && Lower(Strip(t.id)) == id then front + [t] else front
  }

  /** Snapshots and their stored forms, one by one. */
  ghost predicate Matched(h: seq<Task>, g: seq<Task>) {
    |h| == |g| && forall i {:trigger StoredForm(h[i], g[i])} :: 0 <= i < |h| ==> StoredForm(h[i], g[i])
  }

  lemma {:induction false} SavesMatch(calls: seq<Task>, id: string)
    ensures Matched(Accepted(calls, id), Saves(calls, id))
  {
    if calls != [] {
      SavesMatch(calls[..|calls| - 1], id);
      AcceptedInStoredForm(calls[|calls| - 1]);
      forall i | 0 <= i < |Accepted(calls, id)| && |Accepted(calls, id)| == |Saves(calls, id)|
        ensures StoredForm(Accepted(calls, id)[i], Saves(calls, id)[i])
      {
        assert i < |Accepted(calls[..|calls| - 1], id)| ==>
            StoredForm(Accepted(calls[..|calls| - 1], id)[i], Saves(calls[..|calls| - 1], id)[i]);
      }
    }
  }

  /** The row of a task exists if and only if a save of it was accepted. */
  lemma RowExistsExactly(calls: seq<Task>, id: string)
    ensures id in Run(calls) <==> Saves(calls, id) != []
  {
    RunIsFoldOfAccepted(calls, id);
    SavesMatch(calls, id);
  }

  // ----- outcome -----

  lemma {:induction false} SameDeciding(h: seq<Task>, g: seq<Task>)
    requires h != [] && Matched(h, g)
    ensures Deciding(h) == Deciding(g)
  {
    assert StoredForm(h[0], g[0]);
    if |h| > 1 && !h[0].outcome.status.Terminal() {
      forall i | 0 <= i < |h| - 1 ensures StoredForm(h[1..][i], g[1..][i]) {
        assert StoredForm(h[i + 1], g[i + 1]);
      }
      SameDeciding(h[1..], g[1..]);
    }
  }

  /** Over any run of saves the stored outcome is that of the first terminal save, or of the last save. */
  lemma FirstTerminalSaveWins(calls: seq<Task>, id: string)
    requires id in Run(calls)
    ensures Saves(calls, id) != []
    ensures OutcomeCut(Run(calls)[id].outcome, Saves(calls, id)[Deciding(Saves(calls, id))].outcome)
  {
    var h, g := Accepted(calls, id), Saves(calls, id);
    SavesMatch(calls, id);
    OutcomeOfAccepted(calls, id);
    SameDeciding(h, g);
    assert StoredForm(h[Deciding(g)], g[Deciding(g)]);
  }

  /** What a save simply overwrites is that of the last one. */
  lemma LastDetailsWin(calls: seq<Task>, id: string)
    requires id in Run(calls)
    ensures Saves(calls, id) != []
    ensures DetailsCut(Run(calls)[id].details, Saves(calls, id)[|Saves(calls, id)| - 1].details)
  {
    var h := Accepted(calls, id);
    SavesMatch(calls, id);
    RunIsFoldOfAccepted(calls, id);
    StoredDetails(h);
    assert StoredForm(h[|h| - 1], Saves(calls, id)[|h| - 1]);
  }

  lemma StoredDetails(h: seq<Task>)
    requires h != []
    ensures Stored(h).details == h[|h| - 1].details
  {}

  // ----- joins -----

  /** The row joins all saves: changed files, both flags and the update time. */
  ghost predicate JoinsSaves(g: seq<Task>, row: Task) {
    && (forall f :: f in row.changed <==> exists t, p :: t in g && p in t.changed && IsCut(f, p, 1000))
    && (row.cancel <==> exists t :: t in g && t.cancel)
    && (row.pushed <==> exists t :: t in g && t.pushed)
    && (forall t :: t in g ==> t.updatedAt <= row.updatedAt)
    && (exists t :: t in g && t.updatedAt == row.updatedAt)
  }

  /** Over any run of saves. */
  lemma JoinedFields(calls: seq<Task>, id: string)
    requires id in Run(calls)
    ensures JoinsSaves(Saves(calls, id), Run(calls)[id])
  {
    var h, g, row := Accepted(calls, id), Saves(calls, id), Run(calls)[id];
    SavesMatch(calls, id);
    JoinOfAccepted(calls, id);
    JoinOfSaves(h, g, row);
  }

  lemma JoinOfSaves(h: seq<Task>, g: seq<Task>, row: Task)
    requires Matched(h, g) && IsJoin(SetOf(h), row)
    ensures JoinsSaves(g, row)
  {
    PathsOfSaves(h, g, row);
    FlagsOfSaves(h, g, row);
    var latest :| latest in SetOf(h) && latest.updatedAt == row.updatedAt;
    var i :| 0 <= i < |h| && h[i] == latest;
    assert StoredForm(h[i], g[i]);
    assert g[i] in g && g[i].updatedAt == row.updatedAt;
    forall t | t in g ensures t.updatedAt <= row.updatedAt {
      var j :| 0 <= j < |g| && g[j] == t;
      assert StoredForm(h[j], g[j]) && h[j] in SetOf(h);
    }
  }

  lemma FlagsOfSaves(h: seq<Task>, g: seq<Task>, row: Task)
    requires Matched(h, g) && IsJoin(SetOf(h), row)
    ensures row.cancel <==> exists t :: t in g && t.cancel
    ensures row.pushed <==> exists t :: t in g && t.pushed
  {
    forall i | 0 <= i < |h| ensures h[i].cancel == g[i].cancel && h[i].pushed == g[i].pushed && h[i] in SetOf(h) && g[i] in g {
      assert StoredForm(h[i], g[i]);
    }
    if row.cancel {
      var t :| t in SetOf(h) && t.cancel;
      var i :| 0 <= i < |h| && h[i] == t;
      assert g[i] in g && g[i].cancel;
    }
    if row.pushed {
      var t :| t in SetOf(h) && t.pushed;
      var i :| 0 <= i < |h| && h[i] == t;
      assert g[i] in g && g[i].pushed;
    }
    if t :| t in g && t.cancel {
      var i :| 0 <= i < |g| && g[i] == t;
      assert h[i] in SetOf(h) && h[i].cancel;
    }
    if t :| t in g && t.pushed {
      var i :| 0 <= i < |g| && g[i] == t;
      assert h[i] in SetOf(h) && h[i].pushed;
    }
  }

  lemma PathsOfSaves(h: seq<Task>, g: seq<Task>, row: Task)
    requires Matched(h, g) && row.changed == UnionChanged(SetOf(h))
    ensures forall f :: f in row.changed <==> exists t, p :: t in g && p in t.changed && IsCut(f, p, 1000)
  {
    forall f | f in row.changed ensures exists t, p :: t in g && p in t.changed && IsCut(f, p, 1000) {
      var s :| s in SetOf(h) && f in s.changed;
      var i :| 0 <= i < |h| && h[i] == s;
      assert StoredForm(h[i], g[i]);
      var p :| p in g[i].changed && IsCut(f, p, 1000);
      assert g[i] in g;
    }
    forall f, t, p | t in g && p in t.changed && IsCut(f, p, 1000) ensures f in row.changed {
      var i :| 0 <= i < |g| && g[i] == t;
      assert StoredForm(h[i], g[i]);
      assert h[i] in SetOf(h) && f in h[i].changed;
    }
  }

  /** The same saves in any other order give the same joined fields. */
  lemma JoinsIgnoreSaveOrder(calls: seq<Task>, others: seq<Task>, id: string)
    requires id in Run(calls) && id in Run(others)
    requires multiset(Saves(calls, id)) == multiset(Saves(others, id))
    ensures Run(calls)[id].changed == Run(others)[id].changed
    ensures Run(calls)[id].cancel == Run(others)[id].cancel
    ensures Run(calls)[id].pushed == Run(others)[id].pushed
    ensures Run(calls)[id].updatedAt == Run(others)[id].updatedAt
  {
    var g, k := Saves(calls, id), Saves(others, id);
    JoinedFields(calls, id);
    JoinedFields(others, id);
    assert forall t :: t in g <==> t in multiset(g);
    assert forall t :: t in k <==> t in multiset(k);
    JoinIsDetermined(g, k, Run(calls)[id], Run(others)[id]);
  }

  lemma JoinIsDetermined(g: seq<Task>, k: seq<Task>, a: Task, b: Task)
    requires JoinsSaves(g, a) && JoinsSaves(k, b) && forall t :: t in g <==> t in k
    ensures a.changed == b.changed && a.cancel == b.cancel && a.pushed == b.pushed && a.updatedAt == b.updatedAt
  {
    forall f ensures f in a.changed <==> f in b.changed {}
  }

  // ----- identity, lineage and sticky fields -----

  /** The last of the given texts that says something, cut to its limit; empty when none does. */
  ghost predicate LastGiven(values: seq<string>, v: string, limit: nat) {
    if v == "" then forall i :: 0 <= i < |values| ==> values[i] == ""
    else exists i :: 0 <= i < |values| && IsCut(v, values[i], limit) && forall j :: i < j < |values| ==> values[j] == ""
  }

  lemma LastGivenOf(cuts: seq<string>, values: seq<string>, v: string, limit: nat)
    requires limit > 0 && |cuts| == |values| && IsLastNonEmpty(cuts, v)
    requires forall i {:trigger cuts[i]} {:trigger values[i]} :: 0 <= i < |cuts| ==> IsCut(cuts[i], values[i], limit)
    ensures LastGiven(values, v, limit)
  {
    if v != "" {
      var i :| 0 <= i < |cuts| && cuts[i] == v && forall j :: i < j < |cuts| ==> cuts[j] == "";
      assert IsCut(v, values[i], limit);
      forall j | i < j < |values| ensures values[j] == "" {
        assert cuts[j] == "";
      }
    }
  }

  function Branches(g: seq<Task>): seq<string> {
    Map((t: Task) => t.publication.branch, g)
  }

  function Commits(g: seq<Task>): seq<string> {
    Map((t: Task) => t.publication.commitSha, g)
  }

  function PrUrls(g: seq<Task>): seq<string> {
    Map((t: Task) => t.publication.prUrl, g)
  }

  function Parents(g: seq<Task>): seq<string> {
    Map((t: Task) => Lower(Strip(t.parent)), g)
  }

  /** Identity and lineage are those of the first save; publication fields and the parent are the last that say something. */
  ghost predicate LineageOf(g: seq<Task>, row: Task)
    requires g != []
  {
    && row.id == Lower(Strip(g[0].id)) && row.owner == Strip(g[0].owner) && row.createdAt == g[0].createdAt
    && row.lineage.kind == g[0].lineage.kind && row.lineage.index == g[0].lineage.index
    && row.lineage.root == (if g[0].lineage.kind.AutoRetry? then Lower(Strip(g[0].lineage.root)) else row.id)
    && LastGiven(Branches(g), row.publication.branch, 300) && LastGiven(Commits(g), row.publication.commitSha, 100)
    && LastGiven(PrUrls(g), row.publication.prUrl, 2000) && IsLastNonEmpty(Parents(g), row.parent)
    && LineageRule(row)
  }

  lemma LineageIsFixed(calls: seq<Task>, id: string)
    requires id in Run(calls)
    ensures Saves(calls, id) != []
    ensures LineageOf(Saves(calls, id), Run(calls)[id])
  {
    SavesMatch(calls, id);
    LineageOfAccepted(calls, id);
    LineageOfSaves(Accepted(calls, id), Saves(calls, id), Run(calls)[id]);
  }

  lemma PublicationOfSaves(h: seq<Task>, g: seq<Task>)
    requires Matched(h, g)
    ensures forall i :: 0 <= i < |h| ==> IsCut(Branches(h)[i], Branches(g)[i], 300)
    ensures forall i :: 0 <= i < |h| ==> IsCut(Commits(h)[i], Commits(g)[i], 100)
    ensures forall i :: 0 <= i < |h| ==> IsCut(PrUrls(h)[i], PrUrls(g)[i], 2000)
    ensures forall i :: 0 <= i < |h| ==> h[i].parent == Lower(Strip(g[i].parent))
  {
    forall i | 0 <= i < |h|
      ensures IsCut(Branches(h)[i], Branches(g)[i], 300) && IsCut(Commits(h)[i], Commits(g)[i], 100)
      ensures IsCut(PrUrls(h)[i], PrUrls(g)[i], 2000) && h[i].parent == Lower(Strip(g[i].parent))
    {
      assert StoredForm(h[i], g[i]);
    }
  }

  lemma LineageOfSaves(h: seq<Task>, g: seq<Task>, row: Task)
    requires h != [] && Matched(h, g) && FixedAndSticky(h, row)
    ensures LineageOf(g, row)
  {
    PublicationOfSaves(h, g);
    LastGivenOf(Branches(h), Branches(g), row.publication.branch, 300);
    LastGivenOf(Commits(h), Commits(g), row.publication.commitSha, 100);
    LastGivenOf(PrUrls(h), PrUrls(g), row.publication.prUrl, 2000);
    assert Map((t: Task) => t.parent, h) == Parents(g);
    assert StoredForm(h[0], g[0]);
  }

  // ----- worktree -----

  function Worktrees(h: seq<Task>): seq<string> {
    Map((t: Task) => t.worktree, h)
  }

  /** Has one of these saves a terminal status? */
  ghost predicate Finished(h: seq<Task>) {
    exists i :: 0 <= i < |h| && h[i].outcome.status.Terminal()
  }

  /**
   While no save was terminal, the last worktree given. From the first terminal save on, the one given last if every
   save since then has given one, and none otherwise.
   */
  ghost predicate WorktreeRule(h: seq<Task>, v: string)
    requires h != []
  {
    if !Finished(h) then IsLastNonEmpty(Worktrees(h), v)
    else v == if exists i :: Deciding(h) <= i < |h| && h[i].worktree == "" then "" else h[|h| - 1].worktree
  }

  lemma DecidingOfMore(h: seq<Task>, t: Task)
    requires h != []
    ensures Finished(h) ==> Finished(h + [t]) && Deciding(h + [t]) == Deciding(h)
    ensures !Finished(h) ==> Deciding(h + [t]) == |h| && (Finished(h + [t]) <==> t.outcome.status.Terminal())
  {
    var more := h + [t];
    assert forall i :: 0 <= i < |h| ==> more[i] == h[i];
    assert more[|h|] == t;
    var j, k := Deciding(h), Deciding(more);
    if Finished(h) {
      var i :| 0 <= i < |h| && h[i].outcome.status.Terminal();
      assert more[i].outcome.status.Terminal();
      assert more[j].outcome.status.Terminal();
    } else {
      assert k == |h|;
      assert Finished(more) <==> more[|h|].outcome.status.Terminal();
    }
  }

  lemma WorktreeOfMore(h: seq<Task>, row: Task, t: Task)
    requires h != [] && WorktreeRule(h, row.worktree) && (row.outcome.status.Terminal() <==> Finished(h))
    ensures WorktreeRule(h + [t], Merge(row, t).worktree)
    ensures Merge(row, t).outcome.status.Terminal() <==> Finished(h + [t])
  {
    var more := h + [t];
    DecidingOfMore(h, t);
    assert forall i :: 0 <= i < |h| ==> more[i] == h[i];
    assert more[|h|] == t;
    if Finished(h) {
      ReleasedOfMore(h, row.worktree, t);
    } else if !t.outcome.status.Terminal() {
      assert Worktrees(more) == Worktrees(h) + [t.worktree];
      StickyKeepsLast(Worktrees(h), row.worktree, t.worktree);
    }
  }

  /** After the first terminal save. */
  lemma ReleasedOfMore(h: seq<Task>, v: string, t: Task)
    requires h != [] && Finished(h) && WorktreeRule(h, v)
    ensures WorktreeRule(h + [t], if v == "" || t.worktree == "" then "" else t.worktree)
  {
    var more, k := h + [t], Deciding(h);
    DecidingOfMore(h, t);
    assert forall i :: 0 <= i < |h| ==> more[i] == h[i];
    assert more[|h|] == t;
    if i :| k <= i < |h| && h[i].worktree == "" {
      assert more[i].worktree == "";
    } else if t.worktree != "" {
      assert forall i :: k <= i < |more| ==> more[i].worktree != "";
      assert v == h[|h| - 1].worktree && v != "";
    } else {
      assert more[|h|].worktree == "";
    }
  }

  lemma {:induction false} StoredWorktree(h: seq<Task>)
    requires h != []
    ensures WorktreeRule(h, Stored(h).worktree)
    ensures Stored(h).outcome.status.Terminal() <==> Finished(h)
  {
    if |h| == 1 {
      assert Worktrees(h) == [h[0].worktree];
      assert Finished(h) <==> h[0].outcome.status.Terminal();
      assert Deciding(h) == 0;
    } else {
      var front, last := h[..|h| - 1], h[|h| - 1];
      assert h == front + [last];
      StoredWorktree(front);
      StoredOfMore(front, last);
      WorktreeOfMore(front, Stored(front), last);
    }
  }

  /** The rule for the worktrees as they were handed in; the stored one is cut to its limit. */
  ghost predicate WorktreeOf(g: seq<Task>, v: string)
    requires g != []
  {
    if !Finished(g) then LastGiven(Worktrees(g), v, 2000)
    else if exists i :: Deciding(g) <= i < |g| && g[i].worktree == "" then v == ""
    else IsCut(v, g[|g| - 1].worktree, 2000)
  }

  /** Over any run of saves. */
  lemma WorktreeOfRun(calls: seq<Task>, id: string)
    requires id in Run(calls)
    ensures Saves(calls, id) != []
    ensures WorktreeOf(Saves(calls, id), Run(calls)[id].worktree)
  {
    var h, g := Accepted(calls, id), Saves(calls, id);
    SavesMatch(calls, id);
    RunIsFoldOfAccepted(calls, id);
    StoredWorktree(h);
    WorktreeOfSaves(h, g, Run(calls)[id].worktree);
  }

  lemma WorktreesOfSaves(h: seq<Task>, g: seq<Task>)
    requires Matched(h, g)
    ensures forall i {:trigger h[i]} {:trigger g[i]} :: 0 <= i < |h| ==>
              IsCut(h[i].worktree, g[i].worktree, 2000) && h[i].outcome.status == g[i].outcome.status
  {
    forall i | 0 <= i < |h| ensures IsCut(h[i].worktree, g[i].worktree, 2000) && h[i].outcome.status == g[i].outcome.status {
      assert StoredForm(h[i], g[i]);
    }
  }

  lemma WorktreeOfSaves(h: seq<Task>, g: seq<Task>, v: string)
    requires h != [] && Matched(h, g) && WorktreeRule(h, v)
    ensures WorktreeOf(g, v)
  {
    SameDeciding(h, g);
    WorktreesOfSaves(h, g);
    SameFinished(h, g);
    WorktreeFollows(h, g, v);
  }

  lemma WorktreeFollows(h: seq<Task>, g: seq<Task>, v: string)
    requires h != [] && |h| == |g| && WorktreeRule(h, v) && Deciding(h) == Deciding(g) && (Finished(h) <==> Finished(g))
    requires forall i {:trigger h[i]} {:trigger g[i]} :: 0 <= i < |h| ==> IsCut(h[i].worktree, g[i].worktree, 2000)
    ensures WorktreeOf(g, v)
  {
    if !Finished(g) {
      LastGivenOf(Worktrees(h), Worktrees(g), v, 2000);
    } else if i :| Deciding(g) <= i < |g| && g[i].worktree == "" {
      assert h[i].worktree == "";
    } else {
      assert forall i :: Deciding(h) <= i < |h| ==> h[i].worktree != "";
    }
  }

  lemma SameFinished(h: seq<Task>, g: seq<Task>)
    requires |h| == |g| && forall i :: 0 <= i < |h| ==> h[i].outcome.status == g[i].outcome.status
    ensures Finished(h) <==> Finished(g)
  {
    if i :| 0 <= i < |h| && h[i].outcome.status.Terminal() {
      assert g[i].outcome.status.Terminal();
    }
    if i :| 0 <= i < |g| && g[i].outcome.status.Terminal() {
      assert h[i].outcome.status.Terminal();
    }
  }

  // ----- events -----

  lemma CutIsNormalized(stored: seq<Event>, given: seq<Event>)
    requires EventsCut(stored, given) && |given| <= 300
    ensures stored == Map(Normalize, given)
  {
    forall k | 0 <= k < |stored| ensures stored[k] == Normalize(given[k]) {
      assert EventCut(stored[k], given[|given| - |stored| + k]);
    }
  }

  /** One writer with distinct events: the row shows the last 300 emitted, each with its own texts and time. */
  lemma SingleWriterShowsItsEvents(t: Task, rows: Rows, es: seq<Event>)
    requires Acceptable(t) && |t.events| <= 300 && es != []
    requires Distinct(Map(Normalize, t.events + es))
    requires Lower(Strip(t.id)) in rows ==> EventsCut(rows[Lower(Strip(t.id))].events, t.events)
    ensures var id, rows1 := Lower(Strip(t.id)), EmitRun(t, rows, es).1;
            id in rows1 && EventsCut(rows1[id].events, t.events + es)
  {
    var id := Lower(Strip(t.id));
    AcceptedInStoredForm(t);
    if id in rows {
      CutIsNormalized(rows[id].events, t.events);
    }
    SingleWriterShowsLastEvents(t, rows, es);
    MapOfLast(Normalize, t.events + es, MAX_EVENTS);
    NormalizedIsCut(t.events + es);
  }
}
