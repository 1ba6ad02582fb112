/**
 The durable broker table of `server/app/codex_interaction_store.py`: a Codex Host asks, a browser worker answers
 with an encrypted response, and the asking Host session consumes the answer. Every method is one transaction.
 */
module Interactions {
  import opened Common
  import opened Utf8
  import opened Decimal

  const MAX_JSON := 1024 * 1024

  datatype Method =
    | CommandApproval | FileChangeApproval | PermissionsApproval | UserInput | McpElicitation
    | Unsupported(name: string)

  datatype State =
    | Pending | Answered
    | Responded | Declined | Cancelled | Interrupted | Failed | Expired
  {
    predicate Open() {
      Pending? || Answered?
    }
  }

  /** The response column: empty, or a response sealed under a worker's key. */
  datatype Token = NoToken | Sealed(key: nat, response: string)

  function Encrypt(key: nat, response: string): Token {
    Sealed(key, response)
  }

  /** `None` is InvalidToken. */
  function Decrypt(key: nat, token: Token): Option<string> {
    if token.Sealed? && token.key == key then Some(token.response) else None
  }

  datatype RpcId = IntId(i: int) | TextId(s: string) | BoolId(b: bool) | OtherId

  datatype Row = Row(
    owner: string,
    task: string,
    host: string,
    rpc: string,
    method_: Method,
    thread: string,
    blocking: bool,
    state: State,
    token: Token,
    summary: string,
    error: string,
    respondedAt: Option<int>,
    consumedAt: Option<int>)

  type Rows = map<nat, Row>

  /** The table, and the number of ids issued so far (ids are never issued twice). */
  datatype Db = Db(rows: Rows, issued: nat)

  datatype Request = Request(
    owner: string, task: string, host: string, rpc: RpcId, method_: Method, thread: string, isBlocking: bool, json: string)

  datatype StoreError =
    | UnsupportedMethod | TooLarge | InvalidRpcId | DuplicateRpcId
    | NotFound | NotPending | Undecryptable | InvalidTerminalState

  // ----- request ids -----

  /** Request ids keep their type, so `1` and `"1"` differ. */
  function RpcKey(id: RpcId): (r: Result<string, StoreError>) {
    match id
    case BoolId(_) => Err(InvalidRpcId)
    case IntId(i) => Ok("i:" + IntToString(i))
    case TextId(s) => if s == "" || |s| > 480 then Err(InvalidRpcId) else Ok("s:" + s)
    case OtherId => Err(InvalidRpcId)
  }

  /** No two accepted ids share a key. */
  lemma RpcKeyIsInjective(a: RpcId, b: RpcId)
    requires RpcKey(a).Ok? && RpcKey(a) == RpcKey(b)
    ensures a == b
  {
    var k := RpcKey(a).value;
    assert RpcKey(b).value == k;
    assert k[0] == (if a.IntId? then 'i' else 's');
    assert k[0] == (if b.IntId? then 'i' else 's');
    if a.IntId? {
      assert IntToString(a.i) == k[2..] && IntToString(b.i) == k[2..];
      IntToStringIsInjective(a.i, b.i);
    } else {
      assert a.s == k[2..] && b.s == k[2..];
    }
  }

  // ----- the transactions as functions -----

  function CreateSpec(db: Db, q: Request): (r: (Db, Result<nat, StoreError>)) {
    if q.method_.Unsupported? then (db, Err(UnsupportedMethod))
    else if ByteLen(q.json) > MAX_JSON then (db, Err(TooLarge))
    else
      match RpcKey(q.rpc)
      case Err(e) => (db, Err(e))
      case Ok(rpc) =>
        if exists id :: id in db.rows && db.rows[id].host == q.host && db.rows[id].rpc == rpc
        then (db, Err(DuplicateRpcId))
        else
          var blocking := if q.method_.UserInput? then q.isBlocking else true;
          var row := Row(q.owner, q.task, q.host, rpc, q.method_, Take(q.thread, 240), blocking,
                         Pending, NoToken, "{}", "", None, None);
          (Db(db.rows[db.issued := row], db.issued + 1), Ok(db.issued))
  }

  predicate OwnedRow(db: Db, owner: string, id: nat) {
    id in db.rows && db.rows[id].owner == owner
  }

  function SubmitSpec(db: Db, owner: string, id: nat, response: string, summary: string, key: nat, now: int)
    : (r: (Db, Result<(), StoreError>))
  {
    if ByteLen(response) > MAX_JSON || ByteLen(summary) > MAX_JSON then (db, Err(TooLarge))
    else if !OwnedRow(db, owner, id) then (db, Err(NotFound))
    else if !db.rows[id].state.Pending? then (db, Err(NotPending))
    else
      var row := db.rows[id].(
        state := Answered, token := Encrypt(key, response), summary := summary, respondedAt := Some(now));
      (db.(rows := db.rows[id := row]), Ok(()))
  }

  /** A response that cannot be decrypted raises inside the transaction, so nothing is written. */
  function ClaimSpec(db: Db, owner: string, id: nat, host: string, key: nat, now: int)
    : (r: (Db, Result<Option<string>, StoreError>))
  {
    if !OwnedRow(db, owner, id) || db.rows[id].host != host || !db.rows[id].state.Answered? then (db, Ok(None))
    else
      match Decrypt(key, db.rows[id].token)
      case None => (db, Err(Undecryptable))
      case Some(response) =>
        var row := db.rows[id].(state := Responded, token := NoToken, consumedAt := Some(now));
        (db.(rows := db.rows[id := row]), Ok(Some(response)))
  }

  function TerminalizeSpec(db: Db, owner: string, id: nat, state: State, error: string, now: int)
    : (r: (Db, Result<(), StoreError>))
  {
    if state.Open() then (db, Err(InvalidTerminalState))
    else if OwnedRow(db, owner, id) && db.rows[id].state.Open() then
      var old_ := db.rows[id];
      var row := old_.(
        state := state, token := NoToken, error := Take(error, 10000),
        respondedAt := if old_.respondedAt.None? then Some(now) else old_.respondedAt);
      (db.(rows := db.rows[id := row]), Ok(()))
    else (db, Ok(()))
  }

  function InterruptHostSpec(db: Db, owner: string, host: string, reason: string): Db {
    db.(rows := map id | id in db.rows ::
      var row := db.rows[id];
      if row.owner == owner && row.host == host && row.state.Open()
      then row.(state := Interrupted, token := NoToken, error := Take(reason, 10000))
      else row)
  }

  const ORPHAN_REASON := "Codex Host is no longer active for this interaction"

  /** `live` holds the owner's threads that are running or compacting. */
  function InterruptOrphansSpec(db: Db, owner: string, live: set<string>): Db {
    db.(rows := map id | id in db.rows ::
      var row := db.rows[id];
      if row.owner == owner && row.state.Open() && (row.thread == "" || row.thread !in live)
      then row.(state := Interrupted, token := NoToken, error := if row.error == "" then ORPHAN_REASON else row.error)
      else row)
  }

  function DeleteOwnerSpec(db: Db, owner: string): Db {
    db.(rows := map id | id in db.rows && db.rows[id].owner != owner :: db.rows[id])
  }

  // ----- the store -----

  class CodexInteractionStore {
    var rows: Rows
    var issued: nat

    ghost function Table(): Db
      reads this
    {
      Db(rows, issued)
    }

    constructor ()
      ensures Table() == Db(map[], 0)
    {
      rows, issued := map[], 0;
    }

    method Create(q: Request) returns (r: Result<nat, StoreError>)
      modifies this
      ensures (Table(), r) == CreateSpec(old(Table()), q)
    {
      if q.method_.Unsupported? {
        return Err(UnsupportedMethod);
      }
      if ByteLen(q.json) > MAX_JSON {
        return Err(TooLarge);
      }
      var key := RpcKey(q.rpc);
      if key.Err? {
        return Err(key.error);
      }
      if exists id :: id in rows && rows[id].host == q.host && rows[id].rpc == key.value {
        return Err(DuplicateRpcId);
      }
      var blocking := if q.method_.UserInput? then q.isBlocking else true;
      rows := rows[issued := Row(q.owner, q.task, q.host, key.value, q.method_, Take(q.thread, 240), blocking,
                                 Pending, NoToken, "{}", "", None, None)];
      r := Ok(issued);
      issued := issued + 1;
    }

    method SubmitResponse(owner: string, id: nat, response: string, summary: string, key: nat, now: int)
      returns (r: Result<(), StoreError>)
      modifies this
      ensures (Table(), r) == SubmitSpec(old(Table()), owner, id, response, summary, key, now)
    {
      if ByteLen(response) > MAX_JSON || ByteLen(summary) > MAX_JSON {
        return Err(TooLarge);
      }
      var token := Encrypt(key, response);
      if id !in rows || rows[id].owner != owner {
        return Err(NotFound);
      }
      if !rows[id].state.Pending? {
        return Err(NotPending);
      }
      rows := rows[id := rows[id].(state := Answered, token := token, summary := summary, respondedAt := Some(now))];
      r := Ok(());
    }

    method ClaimResponse(owner: string, id: nat, host: string, key: nat, now: int)
      returns (r: Result<Option<string>, StoreError>)
      modifies this
      ensures (Table(), r) == ClaimSpec(old(Table()), owner, id, host, key, now)
    {
      if id !in rows || rows[id].owner != owner || rows[id].host != host || !rows[id].state.Answered? {
        return Ok(None);
      }
      var response := Decrypt(key, rows[id].token);
      if response.None? {
        return Err(Undecryptable);
      }
      rows := rows[id := rows[id].(state := Responded, token := NoToken, consumedAt := Some(now))];
      r := Ok(response);
    }

    method Terminalize(owner: string, id: nat, state: State, error: string, now: int) returns (r: Result<(), StoreError>)
      modifies this
      ensures (Table(), r) == TerminalizeSpec(old(Table()), owner, id, state, error, now)
    {
      if state.Open() {
        return Err(InvalidTerminalState);
      }
      if id in rows && rows[id].owner == owner && rows[id].state.Open() {
        var respondedAt := if rows[id].respondedAt.None? then Some(now) else rows[id].respondedAt;
        rows := rows[id := rows[id].(
                       state := state, token := NoToken, error := Take(error, 10000), respondedAt := respondedAt)];
      }
      r := Ok(());
    }

    method InterruptHost(owner: string, host: string, reason: string) returns (count: nat)
      modifies this
      ensures Table() == InterruptHostSpec(old(Table()), owner, host, reason)
      ensures count == |set id | id in old(rows) && old(rows)[id].owner == owner && old(rows)[id].host == host
                                 && old(rows)[id].state.Open()|
    {
      var hit := set id | id in rows && rows[id].owner == owner && rows[id].host == host && rows[id].state.Open();
      rows := map id | id in rows ::
        if id in hit then rows[id].(state := Interrupted, token := NoToken, error := Take(reason, 10000)) else rows[id];
      count := |hit|;
    }

    method InterruptOrphans(owner: string, live: set<string>)
      modifies this
      ensures Table() == InterruptOrphansSpec(old(Table()), owner, live)
    {
      rows := map id | id in rows ::
        var row := rows[id];
        if row.owner == owner && row.state.Open() && (row.thread == "" || row.thread !in live)
        then row.(state := Interrupted, token := NoToken, error := if row.error == "" then ORPHAN_REASON else row.error)
        else row;
    }

    method DeleteOwner(owner: string)
      modifies this
      ensures Table() == DeleteOwnerSpec(old(Table()), owner)
    {
      rows := map id | id in rows && rows[id].owner != owner :: rows[id];
    }
  }
}
