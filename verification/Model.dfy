/** The tables of the configuration database and how they are read. */
module Model {
  import opened Text
  import opened Bytes
  import opened Crypto
  import opened DotenvRender

  const MAX_STRING := 0x4000_0000_0000_0000

  /** Text that fits in memory: its UTF-8 length fits in 64 bits. */
  type Name = s: string | |s| < MAX_STRING

  type Id = Name

  /** A non-negative SQLite integer. */
  type Count = n: int | 0 <= n < TWO_63

  datatype Action = ADD | UPDATE | DELETE
  datatype Lifecycle = ACTIVE | DELETED
  datatype Visibility = Public | Restricted
  datatype ValueType = PlainString | Boolean | Integer | Url | Multiline
  datatype Source = RequesterProvided | OperatorProvided
  datatype Status = REQUESTED | NEEDS_INPUT | READY_TO_APPLY | APPLIED | REJECTED

  datatype Meta = Meta(
    visibility: Visibility,
    valueType: ValueType,
    description: Option<Name>,
    group: Option<Name>,
    order: Count)

  /** A stored ciphertext and the version of the environment key it names. */
  datatype Sealed = Sealed(blob: Blob, dek: Count)

  datatype Variable = Variable(
    id: Id,
    env: Id,
    key: Name,
    sealed: Sealed,
    meta: Meta,
    version: Count,
    lifecycle: Lifecycle)

  datatype History = History(
    variable: Id,
    env: Id,
    version: Count,
    operation: Action,
    sealed: Sealed,
    meta: Meta,
    lifecycle: Lifecycle,
    request: Id,
    item: Id)

  /** The digest of a selection: SHA-256 taken as injective, so the preimage itself. */
  type Digest = seq<byte>

  datatype Request = Request(
    id: Id,
    env: Id,
    status: Status,
    approved: bool,
    rejected: bool,
    applied: bool,
    fingerprint: Option<Digest>,
    revision: Count)

  datatype Item = Item(
    id: Id,
    request: Id,
    variable: Option<Id>,
    action: Action,
    key: Name,
    base: Option<Count>,
    proposed: Option<Sealed>,
    meta: Meta,
    source: Option<Source>,
    revision: Count)

  datatype Environment = Environment(service: Id, archived: bool, serviceArchived: bool)

  datatype AuditEvent = AuditEvent(action: string, env: Id, request: Option<Id>)

  /** An environment-key row: the key that its wrapped material opens to, until that is destroyed. */
  datatype DekRow = DekRow(key: Key, destroyed: bool)

  /** One database; `active` names the version of the ACTIVE key row of each environment. */
  datatype Db = Db(
    envs: map<Id, Environment>,
    keys: map<(Id, Count), DekRow>,
    active: map<Id, Count>,
    vars: map<Id, Variable>,
    history: map<(Id, Count), History>,
    requests: map<Id, Request>,
    items: map<Id, Item>,
    audit: seq<AuditEvent>)

  datatype Error = Conflict | InvalidRequest | NotFound | CryptoFailure | ImportReviewConflict | Constraint

  datatype Result<+T> = Ok(value: T) | Err(error: Error)

  /** The next number of a counter, while it fits. */
  function Next(n: Count): Option<Count> {
    if n + 1 < TWO_63 then Some(n + 1) else None
  }

  // ----- rows in the order of a query

  predicate IdLe(keys: map<Id, Name>, a: Id, b: Id)
    requires a in keys && b in keys
  {
    StrLess(keys[a], keys[b]) || (keys[a] == keys[b] && StrLe(a, b))
  }

  lemma IdLeOrder(keys: map<Id, Name>, a: Id, b: Id, c: Id)
    requires a in keys && b in keys && c in keys
    ensures IdLe(keys, a, b) || IdLe(keys, b, a)
    ensures IdLe(keys, a, b) && IdLe(keys, b, a) ==> a == b
    ensures IdLe(keys, a, b) && IdLe(keys, b, c) ==> IdLe(keys, a, c)
  {
    hide StrLess;
    StrLessTotal(keys[a], keys[b]);
    StrLessTotal(a, b);
    if IdLe(keys, a, b) && IdLe(keys, b, a) {
      if StrLess(keys[a], keys[b]) {
        if StrLess(keys[b], keys[a]) { StrLessTransitive(keys[a], keys[b], keys[a]); }
        StrLessIrreflexive(keys[a]);
      } else {
        StrLessIrreflexive(keys[b]);
        StrLeAntisymmetric(a, b);
      }
    }
    if IdLe(keys, a, b) && IdLe(keys, b, c) {
      if StrLess(keys[a], keys[b]) && StrLess(keys[b], keys[c]) { StrLessTransitive(keys[a], keys[b], keys[c]); }
      if keys[a] == keys[b] == keys[c] { StrLeTransitive(a, b, c); }
    }
  }

  predicate IsLeast(keys: map<Id, Name>, id: Id) {
    id in keys && forall x :: x in keys ==> IdLe(keys, id, x)
  }

  lemma {:induction false} LeastExists(keys: map<Id, Name>)
    requires keys != map[]
    ensures exists id :: IsLeast(keys, id)
    decreases |keys|
  {
    hide IdLe;
    assert keys.Keys != {};
    var k :| k in keys;
    var rest := keys - {k};
    if rest == map[] {
      forall x | x in keys ensures x == k {
        assert x == k || x in rest;
      }
      IdLeOrder(keys, k, k, k);
      assert IsLeast(keys, k);
    } else {
      LeastExists(rest);
      var m :| IsLeast(rest, m);
      IdLeOrder(keys, m, k, k);
      forall x | x in rest ensures IdLe(keys, m, x) { SameOrder(keys, rest, m, x); }
      if IdLe(keys, m, k) {
        assert IsLeast(keys, m);
      } else {
        forall x | x in keys ensures IdLe(keys, k, x) {
          IdLeOrder(keys, k, m, x);
          IdLeOrder(keys, k, k, k);
        }
        assert IsLeast(keys, k);
      }
    }
  }

  lemma SameOrder(keys: map<Id, Name>, rest: map<Id, Name>, a: Id, b: Id)
    requires a in rest && b in rest && a in keys && b in keys && rest[a] == keys[a] && rest[b] == keys[b]
    ensures IdLe(rest, a, b) == IdLe(keys, a, b)
  {
  }

  lemma LeastUnique(keys: map<Id, Name>)
    ensures forall a, b :: IsLeast(keys, a) && IsLeast(keys, b) ==> a == b
  {
    hide IdLe;
    forall a, b | IsLeast(keys, a) && IsLeast(keys, b) ensures a == b {
      IdLeOrder(keys, a, b, a);
    }
  }

  function Least(keys: map<Id, Name>): (id: Id)
    requires keys != map[]
    ensures IsLeast(keys, id)
  {
    LeastExists(keys);
    LeastUnique(keys);
    var id :| IsLeast(keys, id);
    id
  }

  /** The identifiers of a query result `ORDER BY key, id`. */
  function OrderedIds(keys: map<Id, Name>): seq<Id>
    decreases |keys|
  {
    if keys == map[] then []
    else
      var id := Least(keys);
      assert |(keys - {id}).Keys| < |keys.Keys|;
      [id] + OrderedIds(keys - {id})
  }

  lemma {:induction false} OrderedIdsComplete(keys: map<Id, Name>)
    ensures forall id :: id in OrderedIds(keys) <==> id in keys
    ensures |OrderedIds(keys)| == |keys|
    ensures forall i, j :: 0 <= i < j < |OrderedIds(keys)| ==> OrderedIds(keys)[i] != OrderedIds(keys)[j]
    decreases |keys|
  {
    hide IsLeast;
    if keys != map[] {
      var id := Least(keys);
      assert id in keys by { LeastIn(keys); }
      assert keys.Keys == (keys - {id}).Keys + {id};
      OrderedIdsComplete(keys - {id});
    }
  }

  lemma LeastIn(keys: map<Id, Name>)
    requires keys != map[]
    ensures Least(keys) in keys
  {
  }

  /** The variables of an environment by id, with their keys: deleted ones included. */
  function EnvironmentKeys(db: Db, env: Id): map<Id, Name> {
    map id | id in db.vars && db.vars[id].env == env :: db.vars[id].key
  }

  function RequestKeys(db: Db, request: Id): map<Id, Name> {
    map id | id in db.items && db.items[id].request == request :: db.items[id].key
  }

  function RowsById(db: Db, ids: seq<Id>): (rows: seq<Variable>)
    requires forall i :: 0 <= i < |ids| ==> ids[i] in db.vars
    ensures |rows| == |ids| && forall i :: 0 <= i < |ids| ==> rows[i] == db.vars[ids[i]]
  {
    seq(|ids|, i requires 0 <= i < |ids| => db.vars[ids[i]])
  }

  function ItemsById(db: Db, ids: seq<Id>): (items: seq<Item>)
    requires forall i :: 0 <= i < |ids| ==> ids[i] in db.items
    ensures |items| == |ids| && forall i :: 0 <= i < |ids| ==> items[i] == db.items[ids[i]]
  {
    seq(|ids|, i requires 0 <= i < |ids| => db.items[ids[i]])
  }

  /** `load_current_rows`: every variable of the environment, tombstones included. */
  function CurrentRows(db: Db, env: Id): seq<Variable> {
    EnvironmentIds(db, env);
    RowsById(db, OrderedIds(EnvironmentKeys(db, env)))
  }

  lemma EnvironmentIds(db: Db, env: Id)
    ensures forall i :: 0 <= i < |OrderedIds(EnvironmentKeys(db, env))| ==> OrderedIds(EnvironmentKeys(db, env))[i] in db.vars
  {
    var keys := EnvironmentKeys(db, env);
    OrderedIdsComplete(keys);
    forall i | 0 <= i < |OrderedIds(keys)| ensures OrderedIds(keys)[i] in db.vars {
      assert OrderedIds(keys)[i] in keys;
    }
  }

  function ItemsOf(db: Db, request: Id): seq<Item> {
    RequestItemIds(db, request);
    ItemsById(db, OrderedIds(RequestKeys(db, request)))
  }

  lemma RequestItemIds(db: Db, request: Id)
    ensures forall i :: 0 <= i < |OrderedIds(RequestKeys(db, request))| ==> OrderedIds(RequestKeys(db, request))[i] in db.items
  {
    var keys := RequestKeys(db, request);
    OrderedIdsComplete(keys);
    forall i | 0 <= i < |OrderedIds(keys)| ensures OrderedIds(keys)[i] in db.items {
      assert OrderedIds(keys)[i] in keys;
    }
  }

  /** `load_workflow_items`: the items of the requests, request by request. */
  function LoadItems(db: Db, ids: seq<Id>): seq<Item> {
    if ids == [] then [] else ItemsOf(db, ids[0]) + LoadItems(db, ids[1..])
  }

  /** `load_workflow_requests` */
  function LoadRequests(db: Db, ids: seq<Id>): (r: Result<seq<Request>>)
    ensures r.Ok? ==> |r.value| == |ids| && forall i :: 0 <= i < |ids| ==> ids[i] in db.requests && r.value[i] == db.requests[ids[i]]
  {
    if ids == [] then Ok([])
    else if ids[0] !in db.requests then Err(NotFound)
    else
      match LoadRequests(db, ids[1..])
      case Err(e) => Err(e)
      case Ok(rest) => Ok([db.requests[ids[0]]] + rest)
  }

  // ----- values

  /** `dek_by_version` */
  function DekByVersion(db: Db, env: Id, version: Count): Option<Key> {
    if (env, version) in db.keys && !db.keys[(env, version)].destroyed then Some(db.keys[(env, version)].key) else None
  }

  function CurrentContext(service: Id, row: Variable): Context {
    CurrentValue(service, row.env, row.id, row.version, row.sealed.dek)
  }

  function ProposedContext(service: Id, env: Id, item: Item, dek: Count): Context {
    ProposedValue(service, env, item.request, item.id, item.revision, dek)
  }

  /** The plaintext of a stored value, when its key still exists and its context is the right one. */
  function Reveal(db: Db, env: Id, sealed: Sealed, context: Context): Option<string> {
    match DekByVersion(db, env, sealed.dek)
    case None => None
    case Some(key) => Open(key, context, sealed.blob)
  }

  /** `decrypt_current_row` */
  function DecryptRow(db: Db, row: Variable): Result<string> {
    if row.env !in db.envs then Err(CryptoFailure)
    else
      match Reveal(db, row.env, row.sealed, CurrentContext(db.envs[row.env].service, row))
      case None => Err(CryptoFailure)
      case Some(plain) => Ok(plain)
  }

  /** `decrypt_proposed_row` */
  function DecryptItem(db: Db, env: Id, item: Item): Result<string> {
    if item.proposed.None? then Err(Conflict)
    else if env !in db.envs then Err(CryptoFailure)
    else
      var sealed := item.proposed.value;
      match Reveal(db, env, sealed, ProposedContext(db.envs[env].service, env, item, sealed.dek))
      case None => Err(CryptoFailure)
      case Some(plain) => Ok(plain)
  }
}
