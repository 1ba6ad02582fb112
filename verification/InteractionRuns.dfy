/** Exactly-once delivery over all interleavings of the interaction store's transactions. */
module InteractionRuns {
  import opened Common
  import opened Utf8
  import opened Interactions

  datatype Step =
    | Create(request: Request)
    | Submit(owner: string, id: nat, response: string, summary: string, key: nat, now: int)
    | Claim(owner: string, id: nat, host: string, key: nat, now: int)
    | Terminalize(owner: string, id: nat, state: State, error: string, now: int)
    | InterruptHost(owner: string, host: string, reason: string)
    | InterruptOrphans(owner: string, live: set<string>)
    | DeleteOwner(owner: string)

  /** What a transaction is seen to have done. */
  datatype Fact =
    | Created(id: nat, owner: string, host: string)
    | Submitted(id: nat, response: string, key: nat)
    | Delivered(id: nat, host: string, response: string)
    | Silent

  function Next(db: Db, s: Step): Db {
    match s
    case Create(q) => CreateSpec(db, q).0
    case Submit(owner, id, response, summary, key, now) => SubmitSpec(db, owner, id, response, summary, key, now).0
    case Claim(owner, id, host, key, now) => ClaimSpec(db, owner, id, host, key, now).0
    case Terminalize(owner, id, state, error, now) => TerminalizeSpec(db, owner, id, state, error, now).0
    case InterruptHost(owner, host, reason) => InterruptHostSpec(db, owner, host, reason)
    case InterruptOrphans(owner, live) => InterruptOrphansSpec(db, owner, live)
    case DeleteOwner(owner) => DeleteOwnerSpec(db, owner)
  }

  function FactOf(db: Db, s: Step): Fact {
    match s
    case Create(q) => if CreateSpec(db, q).1.Ok? then Created(db.issued, q.owner, q.host) else Silent
    case Submit(owner, id, response, summary, key, now) =>
      if SubmitSpec(db, owner, id, response, summary, key, now).1.Ok? then Submitted(id, response, key) else Silent
    case Claim(owner, id, host, key, now) =>
      var r := ClaimSpec(db, owner, id, host, key, now).1;
      if r.Ok? && r.value.Some? then Delivered(id, host, r.value.value) else Silent
    case _ => Silent
  }

  function Run(db: Db, steps: seq<Step>): Db {
    if steps == [] then db else Next(Run(db, steps[..|steps| - 1]), steps[|steps| - 1])
  }

  /** The facts of a run, one per transaction. */
  function Log(db: Db, steps: seq<Step>): (r: seq<Fact>)
    ensures |r| == |steps|
  {
    if steps == [] then []
    else
      var front := steps[..|steps| - 1];
      Log(db, front) + [FactOf(Run(db, front), steps[|steps| - 1])]
  }

  // ----- the ciphertext exists exactly while an answer waits -----

  ghost predicate TokenOnlyWhileAnswered(db: Db) {
    forall id :: id in db.rows ==> (db.rows[id].token.Sealed? <==> db.rows[id].state.Answered?)
  }

  lemma StepKeepsTokenRule(db: Db, s: Step)
    requires TokenOnlyWhileAnswered(db)
    ensures TokenOnlyWhileAnswered(Next(db, s))
  {}

  lemma {:induction false} CiphertextExactlyWhileAnswered(db: Db, steps: seq<Step>)
    requires TokenOnlyWhileAnswered(db)
    ensures TokenOnlyWhileAnswered(Run(db, steps))
  {
    if steps != [] {
      CiphertextExactlyWhileAnswered(db, steps[..|steps| - 1]);
      StepKeepsTokenRule(Run(db, steps[..|steps| - 1]), steps[|steps| - 1]);
    }
  }

  // ----- terminal rows are final -----

  lemma StepKeepsTerminalRow(db: Db, s: Step, id: nat)
    requires id < db.issued && (id in db.rows ==> !db.rows[id].state.Open())
    ensures id < Next(db, s).issued
    ensures id in Next(db, s).rows ==> id in db.rows && Next(db, s).rows[id] == db.rows[id]
  {}

  /** A terminal row is never changed again; it can only be erased, and then it stays away. */
  lemma {:induction false} TerminalRowsAreFinal(db: Db, steps: seq<Step>, id: nat)
    requires id < db.issued && (id in db.rows ==> !db.rows[id].state.Open())
    ensures id < Run(db, steps).issued
    ensures id in Run(db, steps).rows ==> id in db.rows && Run(db, steps).rows[id] == db.rows[id]
  {
    if steps != [] {
      var mid := Run(db, steps[..|steps| - 1]);
      TerminalRowsAreFinal(db, steps[..|steps| - 1], id);
      StepKeepsTerminalRow(mid, steps[|steps| - 1], id);
    }
  }

  // ----- history invariant -----

  /** What the facts so far say about each row. */
  ghost predicate Consistent(db: Db, log: seq<Fact>) {
    && TokenOnlyWhileAnswered(db)
    && (forall id :: id in db.rows ==>
          id < db.issued && Created(id, db.rows[id].owner, db.rows[id].host) in log)
    && (forall f :: f in log && !f.Silent? ==> f.id < db.issued)
    && (forall f :: f in log && f.Submitted? && f.id in db.rows ==> !db.rows[f.id].state.Pending?)
    && (forall f :: f in log && f.Delivered? && f.id in db.rows ==> db.rows[f.id].state.Responded?)
    && (forall id :: id in db.rows && db.rows[id].state.Answered? ==>
          Submitted(id, db.rows[id].token.response, db.rows[id].token.key) in log)
  }

  /** Rows that only disappear or leave the open states keep the history consistent. */
  lemma ClosingKeepsConsistent(db: Db, next: Db, log: seq<Fact>)
    requires Consistent(db, log) && TokenOnlyWhileAnswered(next)
    requires next.issued == db.issued
    requires forall id :: id in next.rows ==>
               && id in db.rows
               && next.rows[id].owner == db.rows[id].owner && next.rows[id].host == db.rows[id].host
               && (next.rows[id] == db.rows[id] || (db.rows[id].state.Open() && !next.rows[id].state.Open()))
    ensures Consistent(next, log + [Silent])
  {
    assert forall f :: f in log + [Silent] <==> f in log || f == Silent;
  }

  lemma ClaimKeepsConsistent(db: Db, log: seq<Fact>, s: Step)
    requires s.Claim? && Consistent(db, log)
    ensures Consistent(Next(db, s), log + [FactOf(db, s)])
  {
    var f := FactOf(db, s);
    if f.Silent? {
      ClosingKeepsConsistent(db, Next(db, s), log);
    } else {
      StepKeepsTokenRule(db, s);
      assert forall g :: g in log + [f] <==> g in log || g == f;
    }
  }

  lemma CreateKeepsConsistent(db: Db, log: seq<Fact>, s: Step)
    requires s.Create? && Consistent(db, log)
    ensures Consistent(Next(db, s), log + [FactOf(db, s)])
  {
    var f := FactOf(db, s);
    if f.Silent? {
      ClosingKeepsConsistent(db, Next(db, s), log);
    } else {
      StepKeepsTokenRule(db, s);
      assert forall g :: g in log + [f] <==> g in log || g == f;
    }
  }

  lemma SubmitKeepsConsistent(db: Db, log: seq<Fact>, s: Step)
    requires s.Submit? && Consistent(db, log)
    ensures Consistent(Next(db, s), log + [FactOf(db, s)])
  {
    var f := FactOf(db, s);
    if f.Silent? {
      ClosingKeepsConsistent(db, Next(db, s), log);
    } else {
      StepKeepsTokenRule(db, s);
      assert forall g :: g in log + [f] <==> g in log || g == f;
    }
  }

  lemma StepKeepsConsistent(db: Db, log: seq<Fact>, s: Step)
    requires Consistent(db, log)
    ensures Consistent(Next(db, s), log + [FactOf(db, s)])
  {
    if s.Create? {
      CreateKeepsConsistent(db, log, s);
    } else if s.Submit? {
      SubmitKeepsConsistent(db, log, s);
    } else if s.Claim? {
      ClaimKeepsConsistent(db, log, s);
    } else {
      StepKeepsTokenRule(db, s);
      ClosingKeepsConsistent(db, Next(db, s), log);
    }
  }

  predicate SameKind(f: Fact, g: Fact) {
    (f.Created? && g.Created?) || (f.Submitted? && g.Submitted?) || (f.Delivered? && g.Delivered?)
  }

  /** A delivery rests on an earlier submission of that answer and an earlier creation by that host session. */
  ghost predicate Founded(f: Fact, log: seq<Fact>) {
    f.Delivered? ==>
      && (exists key :: Submitted(f.id, f.response, key) in log)
      && exists owner :: Created(f.id, owner, f.host) in log
  }

  /** A new fact about an id is not a repetition, and rests on the facts before it. */
  lemma NewFactIsFresh(db: Db, log: seq<Fact>, s: Step)
    requires Consistent(db, log)
    ensures forall g :: g in log && SameKind(FactOf(db, s), g) ==> g.id != FactOf(db, s).id
    ensures Founded(FactOf(db, s), log)
  {
    var f := FactOf(db, s);
    if f.Delivered? {
      assert Created(f.id, db.rows[f.id].owner, f.host) in log;
    }
  }

  /** Each interaction is created, answered and delivered at most once; a delivery repeats the submitted answer to the creating host. */
  ghost predicate ExactlyOnce(log: seq<Fact>) {
    && (forall i, j :: 0 <= i < j < |log| && SameKind(log[i], log[j]) ==> log[i].id != log[j].id)
    && (forall j :: 0 <= j < |log| ==> Founded(log[j], log[..j]))
  }

  lemma ExactlyOnceExtends(log: seq<Fact>, f: Fact)
    requires ExactlyOnce(log) && Founded(f, log)
    requires forall g :: g in log && SameKind(f, g) ==> g.id != f.id
    ensures ExactlyOnce(log + [f])
  {
    var log1 := log + [f];
    forall j | 0 <= j < |log1| ensures Founded(log1[j], log1[..j]) {
      if j < |log| {
        assert log1[..j] == log[..j];
      } else {
        assert log1[..j] == log;
      }
    }
    assert forall i :: 0 <= i < |log| ==> log1[i] == log[i] && log[i] in log;
  }

  lemma {:induction false} ResponsesAreDeliveredExactlyOnce(steps: seq<Step>)
    ensures Consistent(Run(Db(map[], 0), steps), Log(Db(map[], 0), steps))
    ensures ExactlyOnce(Log(Db(map[], 0), steps))
  {
    var empty := Db(map[], 0);
    if steps != [] {
      var front, s := steps[..|steps| - 1], steps[|steps| - 1];
      ResponsesAreDeliveredExactlyOnce(front);
      StepKeepsConsistent(Run(empty, front), Log(empty, front), s);
      NewFactIsFresh(Run(empty, front), Log(empty, front), s);
      ExactlyOnceExtends(Log(empty, front), FactOf(Run(empty, front), s));
    }
  }

  // ----- answers do arrive -----

  /** A row that was created once has the owner and the session that created it. */
  lemma CreatedOnce(log: seq<Fact>, f: Fact, g: Fact)
    requires ExactlyOnce(log) && f in log && g in log && f.Created? && g.Created? && f.id == g.id
    ensures f == g
  {
    var i :| 0 <= i < |log| && log[i] == f;
    var j :| 0 <= j < |log| && log[j] == g;
    assert SameKind(log[i], log[j]) && SameKind(log[j], log[i]);
  }

  lemma SubmittedOnce(log: seq<Fact>, f: Fact, g: Fact)
    requires ExactlyOnce(log) && f in log && g in log && f.Submitted? && g.Submitted? && f.id == g.id
    ensures f == g
  {
    var i :| 0 <= i < |log| && log[i] == f;
    var j :| 0 <= j < |log| && log[j] == g;
    assert SameKind(log[i], log[j]) && SameKind(log[j], log[i]);
  }

  /** What a claim sees: the answer sealed in a row of this owner and session. */
  predicate HasAnswer(db: Db, owner: string, id: nat, host: string, key: nat, answer: string) {
    && id in db.rows && db.rows[id].owner == owner && db.rows[id].host == host
    && db.rows[id].state.Answered? && db.rows[id].token == Sealed(key, answer)
  }

  lemma ClaimTakesAnswer(db: Db, owner: string, id: nat, host: string, key: nat, now: int, answer: string)
    ensures FactOf(db, Claim(owner, id, host, key, now)) == Delivered(id, host, answer) <==> HasAnswer(db, owner, id, host, key, answer)
    ensures HasAnswer(db, owner, id, host, key, answer) ==>
              && id in Next(db, Claim(owner, id, host, key, now)).rows
              && Next(db, Claim(owner, id, host, key, now)).rows[id] ==
                 db.rows[id].(state := Responded, token := NoToken, consumedAt := Some(now))
  {}

  /** What the history says about such a row. */
  lemma AnswerIsOnRecord(db: Db, log: seq<Fact>, owner: string, id: nat, host: string, key: nat, answer: string)
    requires Consistent(db, log) && ExactlyOnce(log)
    ensures HasAnswer(db, owner, id, host, key, answer) <==>
              && Created(id, owner, host) in log && Submitted(id, answer, key) in log
              && id in db.rows && db.rows[id].state.Open()
  {
    if id in db.rows && Created(id, owner, host) in log && Submitted(id, answer, key) in log {
      CreatedOnce(log, Created(id, owner, host), Created(id, db.rows[id].owner, db.rows[id].host));
      if db.rows[id].state.Answered? {
        SubmittedOnce(log, Submitted(id, answer, key), Submitted(id, db.rows[id].token.response, db.rows[id].token.key));
      }
    }
  }

  /**
   In every run, a claim delivers an answer if and only if this session created the interaction for this owner, exactly
   this answer was submitted under this key, and the row is still there and open, so neither consumed nor ended.
   */
  lemma ClaimDeliversExactly(steps: seq<Step>, owner: string, id: nat, host: string, key: nat, now: int, answer: string)
    ensures var db, log := Run(Db(map[], 0), steps), Log(Db(map[], 0), steps);
            FactOf(db, Claim(owner, id, host, key, now)) == Delivered(id, host, answer) <==>
              && Created(id, owner, host) in log && Submitted(id, answer, key) in log
              && id in db.rows && db.rows[id].state.Open()
  {
    ResponsesAreDeliveredExactlyOnce(steps);
    ClaimTakesAnswer(Run(Db(map[], 0), steps), owner, id, host, key, now, answer);
    AnswerIsOnRecord(Run(Db(map[], 0), steps), Log(Db(map[], 0), steps), owner, id, host, key, answer);
  }

  /** In every run, the owner's answer to a row that is pending is accepted if it is not too long, and to no other row. */
  lemma SubmissionIsAcceptedExactly(
    steps: seq<Step>, owner: string, id: nat, response: string, summary: string, key: nat, now: int)
    ensures var db := Run(Db(map[], 0), steps);
            var s := Submit(owner, id, response, summary, key, now);
            FactOf(db, s) == Submitted(id, response, key) <==>
              && ByteLen(response) <= MAX_JSON && ByteLen(summary) <= MAX_JSON
              && id in db.rows && db.rows[id].owner == owner && db.rows[id].state.Pending?
    ensures var db := Run(Db(map[], 0), steps);
            var s := Submit(owner, id, response, summary, key, now);
            FactOf(db, s) == Submitted(id, response, key) ==>
              && id in Next(db, s).rows
              && Next(db, s).rows[id] == db.rows[id].(
                   state := Answered, token := Sealed(key, response), summary := summary, respondedAt := Some(now))
  {}

  /** In every run, a request that its own checks let through is created unless its session has used the id before. */
  lemma CreationIsAcceptedExactly(steps: seq<Step>, q: Request)
    ensures var db := Run(Db(map[], 0), steps);
            FactOf(db, Create(q)) == Created(db.issued, q.owner, q.host) <==>
              && !q.method_.Unsupported? && ByteLen(q.json) <= MAX_JSON && RpcKey(q.rpc).Ok?
              && forall id :: id in db.rows && db.rows[id].host == q.host ==> db.rows[id].rpc != RpcKey(q.rpc).value
    ensures var db := Run(Db(map[], 0), steps);
            FactOf(db, Create(q)).Created? ==>
              && RpcKey(q.rpc).Ok? && db.issued in Next(db, Create(q)).rows
              && var row := Next(db, Create(q)).rows[db.issued];
                 && row.owner == q.owner && row.task == q.task && row.host == q.host && row.rpc == RpcKey(q.rpc).value
                 && row.method_ == q.method_ && IsCut(row.thread, q.thread, 240) && row.state.Pending? && row.token.NoToken?
                 && row.blocking == (q.isBlocking || !q.method_.UserInput?)
  {}

  /** Ending an open row: the given state and reason, no ciphertext, and the first response time kept. */
  lemma EndedContents(db: Db, owner: string, id: nat, state: State, error: string, now: int)
    requires !state.Open() && id in db.rows && db.rows[id].owner == owner && db.rows[id].state.Open()
    ensures var row, was := Next(db, Terminalize(owner, id, state, error, now)).rows[id], db.rows[id];
            && row.state == state && row.token.NoToken? && IsCut(row.error, error, 10000)
            && row.respondedAt == (if was.respondedAt.Some? then was.respondedAt else Some(now))
            && row.(state := was.state, token := was.token, error := was.error, respondedAt := was.respondedAt) == was
  {}

  /** The end of a session, and a sweep of orphans: which rows they end, and how. */
  lemma InterruptedContents(db: Db, s: Step, id: nat)
    requires (s.InterruptHost? || s.InterruptOrphans?) && id in db.rows
    ensures id in Next(db, s).rows
    ensures var row, was := Next(db, s).rows[id], db.rows[id];
            var hit := was.owner == s.owner && (was.state.Pending? || was.state.Answered?)
                       && if s.InterruptHost? then was.host == s.host else was.thread == "" || was.thread !in s.live;
            if hit then row.state.Interrupted? && row.token.NoToken?
                        && row.(state := was.state, token := was.token, error := was.error) == was
                        && (s.InterruptHost? ==> IsCut(row.error, s.reason, 10000))
                        && (s.InterruptOrphans? && was.error != "" ==> row.error == was.error)
            else row == was
  {}
}
