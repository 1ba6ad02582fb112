/**
 The durable task row and the merge of stale snapshots into it.

 `server/app/agent_tasks.py` keeps one row per task. Several workers hold their own, possibly stale,
 in-memory copy of the task and save it at any time. `AgentTaskStore.Save` is one SQLite transaction.
 */
module AgentTasks {
  import opened Common

  const MAX_EVENTS := 300

  datatype Status = Queued | Running | Succeeded | Failed | Canceled {
    predicate Terminal() {
      Succeeded? || Failed? || Canceled?
    }
  }

  /** `Unknown` stands for every text that names no task kind. */
  datatype Kind = User | AutoRetry | ManualRetry | Resume | Fork | Unknown

  datatype Event = Event(kind: string, message: string, at: int)

  /** Fields a save simply overwrites. */
  datatype Details = Details(
    prompt: string, projectId: Option<int>, projectName: string, repository: string, baseBranch: string)

  datatype Outcome = Outcome(status: Status, result: string, error: string)

  datatype Publication = Publication(branch: string, commitSha: string, prUrl: string)

  datatype Lineage = Lineage(kind: Kind, root: string, index: int)

  /** A task snapshot as a worker holds it; a stored row is a snapshot that `Prepare` accepted or `Merge` built. */
  datatype Task = Task(
    id: string,
    owner: string,
    details: Details,
    outcome: Outcome,
    publication: Publication,
    worktree: string,
    pushed: bool,
    cancel: bool,
    changed: set<string>,
    events: seq<Event>,
    parent: string,
    lineage: Lineage,
    createdAt: int,
    updatedAt: int)

  datatype SaveError =
    | InvalidOwner
    | InvalidTaskId
    | InvalidTaskKind
    | ParentRequired
    | PositiveIndexRequired
    | OwnLogicalRoot
    | ZeroIndexRequired

  // ----- validation -----

  predicate IsHex(c: char) {
    '0' <= c <= '9' || 'a' <= c <= 'f'
  }

  predicate IsTaskId(s: string) {
    |s| == 32 && forall c | c in s :: IsHex(c)
  }

  predicate IsOwner(s: string) {
    && 1 <= |s| <= 80
    && s != "." && s != ".."
    && forall c | c in s ::
         'A' <= c <= 'Z' || 'a' <= c <= 'z' || '0' <= c <= '9' || c in {'_', '.', '@', '-'}
  }

  function CleanId(s: string): string {
    Lower(Strip(s))
  }

  function Normalize(e: Event): Event {
    Event(Take(e.kind, 100), Take(e.message, 4000), e.at)
  }

  /** What `save` does before it opens the transaction: validate, truncate, and fix the lineage fields. */
  function Prepare(t: Task): (r: Result<Task, SaveError>) {
    var id := CleanId(t.id);
    var owner := Strip(t.owner);
    var parent := CleanId(t.parent);
    var root := CleanId(t.lineage.root);
    var kind := t.lineage.kind;
    if !IsTaskId(id) then Err(InvalidTaskId)
    else if !IsOwner(owner) then Err(InvalidOwner)
    else if parent != "" && !IsTaskId(parent) then Err(InvalidTaskId)
    else if kind.Unknown? then Err(InvalidTaskKind)
    else if kind.AutoRetry? then
      if parent == "" then Err(ParentRequired)
      else if t.lineage.index < 1 then Err(PositiveIndexRequired)
      else if !IsTaskId(root) then Err(InvalidTaskId)
      else if root == id then Err(OwnLogicalRoot)
      else Ok(Truncated(t, id, owner, parent, root))
    else if t.lineage.index != 0 then Err(ZeroIndexRequired)
    else if !kind.User? && parent == "" then Err(ParentRequired)
    else Ok(Truncated(t, id, owner, parent, id))
  }

  function Truncated(t: Task, id: string, owner: string, parent: string, root: string): Task {
    var d, o, p := t.details, t.outcome, t.publication;
    Task(
      id,
      owner,
      Details(Take(d.prompt, 12000), d.projectId, Take(d.projectName, 200), Take(d.repository, 300),
              Take(d.baseBranch, 180)),
      Outcome(o.status, Take(o.result, 200000), Take(o.error, 10000)),
      Publication(Take(p.branch, 300), Take(p.commitSha, 100), Take(p.prUrl, 2000)),
      Take(t.worktree, 2000),
      t.pushed,
      t.cancel,
      set f | f in t.changed :: Take(f, 1000),
      Map(Normalize, Last(t.events, MAX_EVENTS)),
      parent,
      t.lineage.(root := root),
      t.createdAt,
      t.updatedAt)
  }

  // ----- the merge -----

  /** Keep the first occurrence of every element, in order. */
  function Dedup<T(==)>(s: seq<T>): (r: seq<T>) {
    if s == [] then []
    else
      var front := Dedup(s[..|s| - 1]);
      var x := s[|s| - 1];
      if x in front then front else front + [x]
  }

  function MergedEvents(existing: seq<Event>, incoming: seq<Event>): seq<Event> {
    Last(Dedup(Map(Normalize, existing + incoming)), MAX_EVENTS)
  }

  function Sticky(incoming: string, existing: string): string {
    if incoming == "" then existing else incoming
  }

  function MergedPublication(old_: Publication, inc: Publication): Publication {
    Publication(
      Sticky(inc.branch, old_.branch), Sticky(inc.commitSha, old_.commitSha), Sticky(inc.prUrl, old_.prUrl))
  }

  function MergedWorktree(old_: Task, inc: Task): string {
    if old_.outcome.status.Terminal() then
      if old_.worktree == "" || inc.worktree == "" then "" else inc.worktree
    else if inc.worktree == "" && !inc.outcome.status.Terminal() then old_.worktree
    else inc.worktree
  }

  /** The row after one accepted save over an existing row. */
  function Merge(old_: Task, inc: Task): Task {
    Task(
      inc.id,
      old_.owner,
      inc.details,
      if old_.outcome.status.Terminal() then old_.outcome else inc.outcome,
      MergedPublication(old_.publication, inc.publication),
      MergedWorktree(old_, inc),
      old_.pushed || inc.pushed,
      old_.cancel || inc.cancel,
      (set f | f in old_.changed :: Take(f, 1000)) + inc.changed,
      MergedEvents(old_.events, inc.events),
      Sticky(inc.parent, old_.parent),
      old_.lineage,
      old_.createdAt,
      Max(old_.updatedAt, inc.updatedAt))
  }

  type Rows = map<string, Task>

  /** The table after one call of `save`; a rejected snapshot leaves it as it was. */
  function SaveSpec(rows: Rows, t: Task): Rows {
    match Prepare(t)
    case Err(_) => rows
    case Ok(inc) => rows[inc.id := if inc.id in rows then Merge(rows[inc.id], inc) else inc]
  }

  /** The events loop of `_merge_events`: a growing list and a set of fingerprints already seen. */
  method MergeEvents(existing: seq<Event>, incoming: seq<Event>) returns (merged: seq<Event>)
    ensures merged == MergedEvents(existing, incoming)
  {
    var all := existing + incoming;
    var kept: seq<Event> := [];
    var seen: set<Event> := {};
    for i := 0 to |all|
      invariant kept == Dedup(Map(Normalize, all[..i]))
      invariant seen == SetOf(kept)
    {
      assert Map(Normalize, all[..i + 1])[..i] == Map(Normalize, all[..i]);
      var item := Normalize(all[i]);
      if item in seen {
        continue;
      }
      seen := seen + {item};
      kept := kept + [item];
    }
    assert all[..|all|] == all;
    merged := Last(kept, MAX_EVENTS);
  }

  /** The assignments `save` makes to its values when the row already exists. */
  method MergeRow(existing: Task, incoming: Task) returns (values: Task)
    ensures values == Merge(existing, incoming)
  {
    var events := MergeEvents(existing.events, incoming.events);
    var changed := (set f | f in existing.changed :: Take(f, 1000)) + incoming.changed;
    var publication, parent := incoming.publication, incoming.parent;
    if publication.branch == "" { publication := publication.(branch := existing.publication.branch); }
    if publication.commitSha == "" { publication := publication.(commitSha := existing.publication.commitSha); }
    if publication.prUrl == "" { publication := publication.(prUrl := existing.publication.prUrl); }
    if parent == "" { parent := existing.parent; }
    assert publication == MergedPublication(existing.publication, incoming.publication);
    var outcome, worktree := incoming.outcome, incoming.worktree;
    if existing.outcome.status.Terminal() {
      outcome := existing.outcome;
      if existing.worktree == "" || worktree == "" {
        worktree := "";
      }
    } else if worktree == "" && !incoming.outcome.status.Terminal() {
      worktree := existing.worktree;
    }
    assert worktree == MergedWorktree(existing, incoming);
    values := Task(
      incoming.id, existing.owner, incoming.details, outcome, publication, worktree,
      existing.pushed || incoming.pushed, existing.cancel || incoming.cancel,
      changed, events, parent, existing.lineage, existing.createdAt,
      Max(existing.updatedAt, incoming.updatedAt));
  }

  class AgentTaskStore {
    var rows: Rows

    constructor ()
      ensures rows == map[]
    {
      rows := map[];
    }

    /** Save one snapshot. Every row of another task is left alone. */
    method Save(task: Task) returns (outcome: Result<(), SaveError>)
      modifies this
      ensures rows == SaveSpec(old(rows), task)
      ensures outcome.Err? <==> Prepare(task).Err?
      ensures outcome.Err? ==> rows == old(rows) && outcome.error == Prepare(task).error
    {
      var prepared := Prepare(task);
      if prepared.Err? {
        return Err(prepared.error);
      }
      var values := prepared.value;
      if values.id in rows {
        values := MergeRow(rows[values.id], values);
      }
      rows := rows[prepared.value.id := values];
      return Ok(());
    }
  }

  /** The snapshot after one `emit`: the event is appended, the log trimmed and the update time moved. */
  function Emitted(t: Task, e: Event): Task {
    t.(events := Last(t.events + [e], MAX_EVENTS), updatedAt := e.at)
  }

  /** The in-memory task of one worker. `Emit` appends an event, trims the log and persists the whole snapshot. */
  class AgentTask {
    var data: Task
    const store: AgentTaskStore

    constructor (data: Task, store: AgentTaskStore)
      ensures this.data == data && this.store == store
    {
      this.data := data;
      this.store := store;
    }

    method Emit(e: Event) returns (outcome: Result<(), SaveError>)
      modifies this, store
      ensures data == Emitted(old(data), e)
      ensures store.rows == SaveSpec(old(store.rows), data)
      ensures outcome.Err? <==> Prepare(data).Err?
    {
      var events := data.events + [e];
      if |events| > MAX_EVENTS {
        events := events[|events| - MAX_EVENTS..];
      }
      data := data.(events := events, updatedAt := e.at);
      assert data == Emitted(old(data), e);
      outcome := store.Save(data);
    }
  }
}
