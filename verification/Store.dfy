/** The transactions of the configuration database, with its constraints and triggers. */
module Store {
  import opened Text
  import opened Crypto
  import opened Model
  import opened Fingerprint

  // ----- one new version of a variable

  /**
   * The prepared write of one variable version: by a workflow apply, a direct record, an import or a
   * direct delete. `expected` is absent for an insert.
   */
  datatype VersionWrite = VersionWrite(
    variable: Id, env: Id, key: Name, action: Action, expected: Option<Count>, from: Lifecycle,
    version: Count, meta: Meta, sealed: Sealed, request: Id, item: Id)

  function After(action: Action): Lifecycle {
    if action == DELETE then DELETED else ACTIVE
  }

  /** UNIQUE (environment_id, key) */
  predicate KeyTaken(db: Db, env: Id, key: Name) {
    exists id :: id in db.vars && db.vars[id].env == env && db.vars[id].key == key
  }

  /** `mutate_current`, and the first statement of `persist_apply_item`; nothing when no row matches. */
  function WriteVariable(db: Db, w: VersionWrite): Option<Db> {
    match w.expected
    case None =>
      if w.variable in db.vars || KeyTaken(db, w.env, w.key) then None
      else Some(db.(vars := db.vars[w.variable := Variable(w.variable, w.env, w.key, w.sealed, w.meta, 1, ACTIVE)]))
    case Some(version) =>
      if w.variable !in db.vars then None
      else
        var row := db.vars[w.variable];
        if row.env == w.env && row.version == version && row.lifecycle == w.from then
          var row' := row.(sealed := w.sealed, meta := w.meta, version := w.version, lifecycle := After(w.action));
          Some(db.(vars := db.vars[w.variable := row']))
        else None
  }

  function HistoryOf(w: VersionWrite): History {
    History(w.variable, w.env, w.version, w.action, w.sealed, w.meta, After(w.action), w.request, w.item)
  }

  /** The insert into the history, UNIQUE (variable_id, version). */
  function WriteHistory(db: Db, w: VersionWrite): Option<Db> {
    if (w.variable, w.version) in db.history then None
    else Some(db.(history := db.history[(w.variable, w.version) := HistoryOf(w)]))
  }

  function WriteVersion(db: Db, w: VersionWrite): Option<Db> {
    match WriteVariable(db, w)
    case None => None
    case Some(db') => WriteHistory(db', w)
  }

  /** The writes of one transaction, in order; the first failure rolls all of them back. */
  function WriteVersions(db: Db, writes: seq<VersionWrite>): Option<Db>
    decreases |writes|
  {
    if writes == [] then Some(db)
    else
      match WriteVersion(db, writes[0])
      case None => None
      case Some(db') => WriteVersions(db', writes[1..])
  }

  // ----- requests and items

  predicate NeedsValue(item: Item) { item.action != DELETE && item.proposed.None? }

  /** Some ADD or UPDATE item of the request has no value yet. */
  predicate Missing(db: Db, request: Id) {
    exists id :: id in db.items && db.items[id].request == request && NeedsValue(db.items[id])
  }

  predicate HasItems(db: Db, request: Id) {
    exists id :: id in db.items && db.items[id].request == request
  }

  /** The status that the other columns determine. */
  function StatusOf(rejected: bool, applied: bool, approved: bool, missing: bool): Status {
    if rejected then REJECTED
    else if applied then APPLIED
    else if missing then NEEDS_INPUT
    else if approved then READY_TO_APPLY
    else REQUESTED
  }

  /** The CHECK constraints of a request row. */
  predicate RequestAllowed(r: Request) {
    && (r.status == REJECTED ==> r.rejected && !r.applied)
    && (r.status == APPLIED ==> r.applied && r.approved && !r.rejected)
    && (r.status != REJECTED && r.status != APPLIED ==> !r.applied && !r.rejected)
    && (r.status == READY_TO_APPLY ==> r.approved)
  }

  /** The CHECK constraints of an item row. */
  predicate ItemAllowed(i: Item) {
    && (i.action == ADD ==> i.variable.None? && i.base.None?)
    && (i.action != ADD ==> i.variable.Some? && i.base.Some?)
    && (i.action == DELETE <==> i.source.None?)
    && (i.action == DELETE ==> i.proposed.None?)
    && (i.source == Some(RequesterProvided) ==> i.proposed.Some?)
  }

  /** The triggers on updates of status or approval: a ready request is complete, only a ready one is applied. */
  predicate TransitionAllowed(db: Db, id: Id, before: Request, after: Request) {
    && (after.status == READY_TO_APPLY ==> after.approved && HasItems(db, id) && !Missing(db, id))
    && (after.status == APPLIED ==> before.status == READY_TO_APPLY)
  }

  function UpdateRequest(db: Db, id: Id, r: Request): Option<Db>
    requires id in db.requests
  {
    if RequestAllowed(r) && TransitionAllowed(db, id, db.requests[id], r) then Some(db.(requests := db.requests[id := r]))
    else None
  }

  function Audited(db: Db, action: string, env: Id, request: Option<Id>): Db {
    db.(audit := db.audit + [AuditEvent(action, env, request)])
  }

  /** UPDATE, then the audit row. */
  function SaveRequest(db: Db, id: Id, r: Request, action: string): Result<Db>
    requires id in db.requests
  {
    match UpdateRequest(db, id, r)
    case None => Err(Constraint)
    case Some(db') => Ok(Audited(db', action, r.env, Some(id)))
  }

  /** `approve`, one transaction */
  function Approve(db: Db, id: Id): Result<Db> {
    if id !in db.requests then Err(NotFound)
    else
      var r := db.requests[id];
      if (r.status != REQUESTED && r.status != NEEDS_INPUT) || r.approved then Err(Conflict)
      else
        match Next(r.revision)
        case None => Err(Constraint)
        case Some(revision) =>
          var status := if Missing(db, id) then NEEDS_INPUT else READY_TO_APPLY;
          SaveRequest(db, id, r.(status := status, approved := true, revision := revision, fingerprint := None), "APPROVE_REQUEST")
  }

  /** `reject`, one transaction */
  function Reject(db: Db, id: Id): Result<Db> {
    if id !in db.requests then Err(NotFound)
    else
      var r := db.requests[id];
      if r.status != REQUESTED && r.status != NEEDS_INPUT && r.status != READY_TO_APPLY then Err(Conflict)
      else
        match Next(r.revision)
        case None => Err(Constraint)
        case Some(revision) =>
          SaveRequest(db, id, r.(status := REJECTED, rejected := true, revision := revision, fingerprint := None), "REJECT_REQUEST")
  }

  /** The triggers on inserted and updated items: variable and key version belong to the environment of the request. */
  predicate ItemInScope(db: Db, item: Item) {
    && item.request in db.requests
    && var env := db.requests[item.request].env;
    && (item.variable.Some? ==> item.variable.value in db.vars && db.vars[item.variable.value].env == env)
    && (item.proposed.Some? ==> (env, item.proposed.value.dek) in db.keys)
  }

  /** What `fulfill_value` sees before its transaction. */
  function FulfillRead(db: Db, id: Id): Result<Item> {
    if id !in db.items then Err(NotFound)
    else
      var item := db.items[id];
      if item.source != Some(OperatorProvided) || item.proposed.Some? || item.request !in db.requests then Err(NotFound)
      else
        var status := db.requests[item.request].status;
        if (status != NEEDS_INPUT && status != REQUESTED) || item.action == DELETE then Err(Conflict)
        else if Next(item.revision).None? then Err(Conflict)
        else Ok(item)
  }

  /** The transaction of `fulfill_value`: it tests the revision it read, not the status of the request. */
  function Fulfill(db: Db, read: Item, sealed: Sealed): Result<Db> {
    if read.id !in db.items || db.items[read.id].revision != read.revision || db.items[read.id].proposed.Some? then Err(Conflict)
    else if read.request !in db.requests then Err(NotFound)
    else
      match (Next(read.revision), Next(db.requests[read.request].revision))
      case (Some(itemRevision), Some(revision)) =>
        var item := db.items[read.id].(proposed := Some(sealed), revision := itemRevision);
        var db1 := db.(items := db.items[read.id := item]);
        var r := db.requests[read.request];
        var status :=
          if Missing(db1, read.request) then NEEDS_INPUT else if r.approved then READY_TO_APPLY else REQUESTED;
        if !ItemInScope(db, item) then Err(Constraint)
        else SaveRequest(db1, read.request, r.(status := status, revision := revision, fingerprint := None), "FULFILL_REQUEST_VALUE")
      case _ => Err(Constraint)
  }

  /** One inserted item: its primary key, UNIQUE (change_request_id, key), the CHECKs and the scope trigger. */
  predicate ItemInsertable(db: Db, item: Item) {
    && item.id !in db.items
    && !(exists id :: id in db.items && db.items[id].request == item.request && db.items[id].key == item.key)
    && ItemAllowed(item) && ItemInScope(db, item)
  }

  function InsertItems(db: Db, items: seq<Item>): Option<Db>
    decreases |items|
  {
    if items == [] then Some(db)
    else if ItemInsertable(db, items[0]) then InsertItems(db.(items := db.items[items[0].id := items[0]]), items[1..])
    else None
  }

  predicate AnyNeedsValue(items: seq<Item>) { exists i :: 0 <= i < |items| && NeedsValue(items[i]) }

  function NewRequest(id: Id, env: Id, items: seq<Item>): Request {
    Request(id, env, if AnyNeedsValue(items) then NEEDS_INPUT else REQUESTED, false, false, false, None, 1)
  }

  /** The transaction of `create`. */
  function Create(db: Db, id: Id, env: Id, items: seq<Item>): Result<Db> {
    if id in db.requests || env !in db.envs then Err(Constraint)
    else
      match InsertItems(db.(requests := db.requests[id := NewRequest(id, env, items)]), items)
      case None => Err(Constraint)
      case Some(db') => Ok(Audited(db', "CREATE_REQUEST", env, Some(id)))
  }

  // ----- preview and apply

  predicate OneReadyEnvironment(requests: seq<Request>) {
    && requests != []
    && forall i :: 0 <= i < |requests| ==>
         requests[i].env == requests[0].env && requests[i].status == READY_TO_APPLY && requests[i].approved
  }

  predicate Known(requests: seq<Request>, id: Id) { exists j :: 0 <= j < |requests| && requests[j].id == id }

  predicate DistinctComplete(items: seq<Item>) {
    && (forall i, j :: 0 <= i < j < |items| ==> items[i].key != items[j].key)
    && (forall i :: 0 <= i < |items| ==> !NeedsValue(items[i]))
  }

  /** `validate_selection` */
  predicate SelectionValid(requests: seq<Request>, items: seq<Item>) {
    && OneReadyEnvironment(requests) && items != []
    && (forall i :: 0 <= i < |items| ==> Known(requests, items[i].request))
    && DistinctComplete(items)
  }

  /** The transaction of `preview_resulting`: each request keeps the revision that was read and is still ready. */
  function StorePreview(db: Db, seen: seq<Request>, digest: Digest): Result<Db>
    decreases |seen|
  {
    if seen == [] then Ok(db)
    else
      var read := seen[0];
      if read.id !in db.requests then Err(Conflict)
      else
        var r := db.requests[read.id];
        if r.revision != read.revision || r.status != READY_TO_APPLY then Err(Conflict)
        else
          StorePreview(
            Audited(db.(requests := db.requests[read.id := r.(fingerprint := Some(digest))]), "PREVIEW_REQUEST", r.env, Some(read.id)),
            seen[1..], digest)
  }

  /** The last loop of `mark_applied`. */
  function MarkRequests(db: Db, seen: seq<Request>, expected: Digest): Result<Db>
    decreases |seen|
  {
    if seen == [] then Ok(db)
    else
      var read := seen[0];
      if read.id !in db.requests then Err(Conflict)
      else
        var r := db.requests[read.id];
        if r.revision != read.revision || r.status != READY_TO_APPLY || r.fingerprint != Some(expected) then Err(Conflict)
        else
          match Next(r.revision)
          case None => Err(Constraint)
          case Some(revision) =>
            match SaveRequest(db, read.id, r.(status := APPLIED, applied := true, revision := revision), "APPLY_REQUEST")
            case Err(e) => Err(e)
            case Ok(db') => MarkRequests(db', seen[1..], expected)
  }

  /** The checks that `mark_applied` makes inside its transaction before it writes. */
  function ApplyChecks(db: Db, ids: seq<Id>, env: Id, expected: Digest, writes: seq<VersionWrite>): Result<seq<Request>> {
    match LoadRequests(db, ids)
    case Err(e) => Err(e)
    case Ok(requests) =>
      var items := LoadItems(db, ids);
      if !SelectionValid(requests, items) then Err(Conflict)
      else if env !in db.active then Err(CryptoFailure)
      else if SelectionDigest(requests, items, CurrentRows(db, env)) != expected
        || (exists i :: 0 <= i < |writes| && writes[i].sealed.dek != db.active[env])
        || (exists i :: 0 <= i < |requests| && requests[i].fingerprint != Some(expected)) then Err(Conflict)
      else Ok(requests)
  }

  /** The transaction of `mark_applied`, with the writes prepared before it. */
  function ApplyTransaction(db: Db, ids: seq<Id>, env: Id, expected: Digest, writes: seq<VersionWrite>): Result<Db> {
    match ApplyChecks(db, ids, env, expected, writes)
    case Err(e) => Err(e)
    case Ok(requests) =>
      match WriteVersions(db, writes)
      case None => Err(Conflict)
      case Some(db') => MarkRequests(db', requests, expected)
  }

  /** A correction of a previewed item as prepared: the item it read, and its new value, group and order. */
  datatype Edit = Edit(item: Item, sealed: Sealed, group: Option<Name>, order: Count, same: bool)

  /** The checks of `edit_preview` inside its transaction. */
  predicate EditAllowed(db: Db, ids: seq<Id>, env: Id, expected: Digest, edit: Edit) {
    var requests := LoadRequests(db, ids);
    requests.Ok? && env in db.envs && env in db.active
    && var items := LoadItems(db, ids);
    && SelectionValid(requests.value, items)
    && !db.envs[env].archived && !db.envs[env].serviceArchived
    && db.active[env] == edit.sealed.dek
    && SelectionDigest(requests.value, items, CurrentRows(db, env)) == expected
    && (forall i :: 0 <= i < |requests.value| ==> requests.value[i].fingerprint == Some(expected))
  }

  function EditedItem(current: Item, edit: Edit, revision: Count): Item {
    current.(proposed := Some(edit.sealed), revision := revision,
             meta := current.meta.(group := edit.group, order := edit.order))
  }

  /** The transaction of `edit_preview`. */
  function EditTransaction(db: Db, ids: seq<Id>, env: Id, expected: Digest, edit: Edit): Result<Db> {
    if !EditAllowed(db, ids, env, expected, edit) then Err(Conflict)
    else if edit.same then Ok(db)
    else if edit.item.id !in db.items || edit.item.request !in db.requests then Err(Conflict)
    else
      match (Next(edit.item.revision), Next(db.requests[edit.item.request].revision))
      case (Some(itemRevision), Some(revision)) =>
        var item := EditedItem(db.items[edit.item.id], edit, itemRevision);
        var r := db.requests[edit.item.request];
        if !ItemInScope(db, item) then Err(Constraint)
        else
          SaveRequest(db.(items := db.items[edit.item.id := item]), edit.item.request,
                      r.(approved := true, revision := revision, fingerprint := None), "EDIT_REQUEST")
      case _ => Err(Constraint)
  }

  // ----- direct writes

  /** A direct record or delete: the version, and the proposal stored beside it (none for a delete). */
  datatype Direct = Direct(write: VersionWrite, proposed: Option<Sealed>)

  function DirectRequest(w: VersionWrite): Request {
    Request(w.request, w.env, APPLIED, true, false, true, None, 1)
  }

  function DirectItem(d: Direct): Item {
    var w := d.write;
    if w.action == DELETE then
      Item(w.item, w.request, Some(w.variable), DELETE, w.key, w.expected, None, w.meta, None, 1)
    else
      Item(w.item, w.request, if w.action == UPDATE then Some(w.variable) else None, w.action, w.key,
           if w.action == UPDATE then w.expected else None, d.proposed, w.meta, Some(OperatorProvided), 1)
  }

  /** `persist_applied_in_transaction` */
  function PersistDirect(db: Db, d: Direct): Result<Db> {
    var w := d.write;
    if w.request in db.requests || w.env !in db.envs then Err(Constraint)
    else
      var db1 := db.(requests := db.requests[w.request := DirectRequest(w)]);
      match InsertItems(db1, [DirectItem(d)])
      case None => Err(Constraint)
      case Some(db2) =>
        match WriteVersion(db2, w)
        case None => Err(Conflict)
        case Some(db3) =>
          Ok(Audited(db3, if w.action == DELETE then "DELETE_VARIABLE" else "DIRECT_APPLY_VARIABLE", w.env, Some(w.request)))
  }

  function PersistDirects(db: Db, directs: seq<Direct>): Result<Db>
    decreases |directs|
  {
    if directs == [] then Ok(db)
    else
      match PersistDirect(db, directs[0])
      case Err(e) => Err(e)
      case Ok(db') => PersistDirects(db', directs[1..])
  }

  /** The writes of an import and its own audit row; an import that changes nothing leaves no trace. */
  function PersistImport(db: Db, env: Id, directs: seq<Direct>): Result<Db> {
    match PersistDirects(db, directs)
    case Err(e) => Err(e)
    case Ok(db') => Ok(if directs == [] then db' else Audited(db', "IMPORT_ENV", env, None))
  }

  // ----- archiving and key rotation

  function SetArchived(db: Db, env: Id, archived: bool, serviceArchived: bool): Result<Db> {
    if env !in db.envs then Err(NotFound)
    else Ok(db.(envs := db.envs[env := db.envs[env].(archived := archived, serviceArchived := serviceArchived)]))
  }

  /** A new environment with version 1 of its key. */
  function CreateEnvironment(db: Db, env: Id, service: Id, key: Key): Result<Db> {
    if env in db.envs || (env, 1) in db.keys then Err(Constraint)
    else
      Ok(Audited(
        db.(envs := db.envs[env := Environment(service, false, false)],
            keys := db.keys[(env, 1) := DekRow(key, false)], active := db.active[env := 1]),
        "CREATE_ENVIRONMENT", env, None))
  }

  predicate SamePlain(a: Sealed, b: Sealed) { a.blob.plain == b.blob.plain }

  predicate SameProposal(a: Option<Sealed>, b: Option<Sealed>) {
    (a.None? <==> b.None?) && (a.Some? ==> SamePlain(a.value, b.value))
  }

  predicate KeysGrow(a: Db, b: Db) {
    forall k :: k in a.keys ==> k in b.keys && a.keys[k].key == b.keys[k].key && (a.keys[k].destroyed ==> b.keys[k].destroyed)
  }

  /** What a part of a key rotation does here: other ciphertexts of the same values, other keys. */
  predicate Rekeyed(a: Db, b: Db) {
    && b.envs == a.envs && b.requests == a.requests && a.audit <= b.audit
    && KeysGrow(a, b)
    && b.vars.Keys == a.vars.Keys && b.history.Keys == a.history.Keys && b.items.Keys == a.items.Keys
    && (forall id :: id in a.vars ==>
          b.vars[id] == a.vars[id].(sealed := b.vars[id].sealed) && SamePlain(a.vars[id].sealed, b.vars[id].sealed))
    && (forall k :: k in a.history ==>
          b.history[k] == a.history[k].(sealed := b.history[k].sealed) && SamePlain(a.history[k].sealed, b.history[k].sealed))
    && (forall id :: id in a.items ==>
          b.items[id] == a.items[id].(proposed := b.items[id].proposed) && SameProposal(a.items[id].proposed, b.items[id].proposed))
    && Readable(b)
  }

  // ----- invariants

  predicate IdsHold(db: Db) {
    && (forall id :: id in db.vars ==> db.vars[id].id == id && db.vars[id].env in db.envs)
    && (forall id :: id in db.requests ==> db.requests[id].id == id && db.requests[id].env in db.envs)
    && (forall id :: id in db.items ==> db.items[id].id == id && db.items[id].request in db.requests)
  }

  predicate KeysUnique(db: Db) {
    forall a, b :: a in db.vars && b in db.vars && db.vars[a].env == db.vars[b].env && db.vars[a].key == db.vars[b].key ==> a == b
  }

  /** The history of each variable is 1..n, and its newest row is the current row. */
  ghost predicate HistoryComplete(db: Db) {
    && (forall id, n: Count :: (id, n) in db.history <==> id in db.vars && 1 <= n <= db.vars[id].version)
    && (forall id :: id in db.vars ==> db.vars[id].version >= 1)
    && (forall id, n: Count :: (id, n) in db.history ==>
          var h := db.history[(id, n)]; h.variable == id && h.version == n && id in db.vars && h.env == db.vars[id].env)
    && (forall id :: id in db.vars && (id, db.vars[id].version) in db.history ==>
          var h := db.history[(id, db.vars[id].version)];
          h.meta == db.vars[id].meta && h.lifecycle == db.vars[id].lifecycle && SamePlain(h.sealed, db.vars[id].sealed))
  }

  /** The status is a function of the other columns and of the missing values. */
  predicate StatusesHold(db: Db) {
    forall id :: id in db.requests ==>
      var r := db.requests[id];
      && r.status == StatusOf(r.rejected, r.applied, r.approved, Missing(db, id))
      && RequestAllowed(r)
  }

  predicate ItemsHold(db: Db) {
    forall id :: id in db.items ==> ItemAllowed(db.items[id])
  }

  predicate RowReadable(db: Db, row: Variable) {
    row.env in db.envs &&
    Reveal(db, row.env, row.sealed, CurrentContext(db.envs[row.env].service, row)).Some?
  }

  predicate HistoryReadable(db: Db, h: History) {
    h.env in db.envs &&
    Reveal(db, h.env, h.sealed, CurrentValue(db.envs[h.env].service, h.env, h.variable, h.version, h.sealed.dek)).Some?
  }

  predicate ItemReadable(db: Db, item: Item) {
    item.proposed.Some? ==>
      item.request in db.requests &&
      var env := db.requests[item.request].env;
      env in db.envs &&
      Reveal(db, env, item.proposed.value, ProposedContext(db.envs[env].service, env, item, item.proposed.value.dek)).Some?
  }

  /** Every stored ciphertext opens under a key that still exists. */
  predicate Readable(db: Db) {
    && (forall env :: env in db.envs ==> env in db.active && DekByVersion(db, env, db.active[env]).Some?)
    && (forall id :: id in db.vars ==> RowReadable(db, db.vars[id]))
    && (forall k :: k in db.history ==> HistoryReadable(db, db.history[k]))
    && (forall id :: id in db.items ==> ItemReadable(db, db.items[id]))
  }

  ghost predicate Inv(db: Db) {
    IdsHold(db) && KeysUnique(db) && HistoryComplete(db) && StatusesHold(db) && ItemsHold(db) && Readable(db)
  }

  // ----- calls in flight

  /** What every preparation gives: the version after the expected one, sealed for its own place. */
  predicate WriteShaped(w: VersionWrite) {
    match w.expected
    case None => w.version == 1 && w.action == ADD
    case Some(version) => w.version == version + 1 && (w.action == ADD <==> w.from == DELETED)
  }

  /** The value of a write opens under a key that exists when it is committed. */
  predicate WriteSealed(db: Db, w: VersionWrite) {
    w.env in db.envs &&
    Reveal(db, w.env, w.sealed, CurrentValue(db.envs[w.env].service, w.env, w.variable, w.version, w.sealed.dek)).Some?
  }

  predicate ProposalSealed(db: Db, env: Id, item: Item) {
    item.proposed.Some? ==>
      env in db.envs &&
      Reveal(db, env, item.proposed.value, ProposedContext(db.envs[env].service, env, item, item.proposed.value.dek)).Some?
  }

  /** Every transaction of the system, with what its call computed before it. */
  datatype Op =
    | CreateOp(id: Id, env: Id, items: seq<Item>)
    | FulfillOp(read: Item, sealed: Sealed)
    | ApproveOp(id: Id)
    | RejectOp(id: Id)
    | PreviewOp(seen: seq<Request>, digest: Digest)
    | EditOp(ids: seq<Id>, env: Id, expected: Digest, edit: Edit, requests: seq<Request>, items: seq<Item>, rows: seq<Variable>)
    | ApplyOp(ids: seq<Id>, env: Id, expected: Digest, writes: seq<VersionWrite>)
    | DirectOp(direct: Direct)
    | ImportOp(env: Id, directs: seq<Direct>)
    | EnvironmentOp(env: Id, service: Id, key: Key)
    | ArchiveOp(env: Id, archived: bool, serviceArchived: bool)
    | RekeyOp(after: Db)

  predicate ItemShaped(db: Db, id: Id, env: Id, item: Item) {
    item.request == id && item.revision == 1 && ProposalSealed(db, env, item)
  }

  predicate DirectShaped(db: Db, d: Direct) {
    && WriteShaped(d.write) && WriteSealed(db, d.write)
    && (d.write.action == DELETE ==> d.proposed.None?)
    && (d.write.action != DELETE ==> d.proposed.Some?)
    && ProposalSealed(db, d.write.env, DirectItem(d))
  }

  predicate FulfillShaped(db: Db, read: Item, sealed: Sealed) {
    && read.action != DELETE
    && (read.id in db.items ==> db.items[read.id].request == read.request && db.items[read.id].action == read.action)
    && Next(read.revision).Some?
    && read.request in db.requests
    && ProposalSealed(db, db.requests[read.request].env, read.(proposed := Some(sealed), revision := Next(read.revision).value))
  }

  predicate EditShaped(
    db: Db, ids: seq<Id>, env: Id, expected: Digest, edit: Edit, requests: seq<Request>, items: seq<Item>, rows: seq<Variable>)
  {
    && SelectionDigest(requests, items, rows) == expected
    && |requests| == |ids| && (forall i :: 0 <= i < |ids| ==> requests[i].id == ids[i])
    && edit.item in items && edit.item.action != DELETE
    && Next(edit.item.revision).Some?
    && (edit.item.request in db.requests ==> db.requests[edit.item.request].env == env)
    && ProposalSealed(db, env, edit.item.(proposed := Some(edit.sealed), revision := Next(edit.item.revision).value))
  }

  predicate WritesShaped(db: Db, env: Id, writes: seq<VersionWrite>) {
    forall i :: 0 <= i < |writes| ==> WriteShaped(writes[i]) && writes[i].env == env && WriteSealed(db, writes[i])
  }

  /** What the code before the transaction guarantees, whatever was committed since it read. */
  predicate Shaped(db: Db, op: Op) {
    match op
    case CreateOp(id, env, items) => forall i :: 0 <= i < |items| ==> ItemShaped(db, id, env, items[i])
    case FulfillOp(read, sealed) => FulfillShaped(db, read, sealed)
    case EditOp(ids, env, expected, edit, requests, items, rows) =>
      EditShaped(db, ids, env, expected, edit, requests, items, rows)
    case ApplyOp(ids, env, expected, writes) => WritesShaped(db, env, writes)
    case DirectOp(direct) => DirectShaped(db, direct)
    case ImportOp(env, directs) => forall i :: 0 <= i < |directs| ==> DirectShaped(db, directs[i])
    case RekeyOp(after) => Rekeyed(db, after)
    case _ => true
  }

  function Commit(db: Db, op: Op): Result<Db> {
    match op
    case CreateOp(id, env, items) => Create(db, id, env, items)
    case FulfillOp(read, sealed) => Fulfill(db, read, sealed)
    case ApproveOp(id) => Approve(db, id)
    case RejectOp(id) => Reject(db, id)
    case PreviewOp(seen, digest) => StorePreview(db, seen, digest)
    case EditOp(ids, env, expected, edit, _, _, _) => EditTransaction(db, ids, env, expected, edit)
    case ApplyOp(ids, env, expected, writes) => ApplyTransaction(db, ids, env, expected, writes)
    case DirectOp(direct) => PersistDirect(db, direct)
    case ImportOp(env, directs) => PersistImport(db, env, directs)
    case EnvironmentOp(env, service, key) => CreateEnvironment(db, env, service, key)
    case ArchiveOp(env, archived, serviceArchived) => SetArchived(db, env, archived, serviceArchived)
    case RekeyOp(after) => Ok(after)
  }

  /** One transaction of an interleaving: it commits, or it leaves the database as it was. */
  function Run1(db: Db, op: Op): Db {
    if Shaped(db, op) && Commit(db, op).Ok? then Commit(db, op).value else db
  }

  /** An interleaving of any calls, transaction by transaction. */
  function Run(db: Db, ops: seq<Op>): Db
    decreases |ops|
  {
    if ops == [] then db else Run(Run1(db, ops[0]), ops[1..])
  }

  // ----- what only grows

  predicate VariableGrows(a: Variable, b: Variable) {
    && b.id == a.id && b.env == a.env && b.key == a.key && a.version <= b.version
    && (a.version == b.version ==> b.meta == a.meta && b.lifecycle == a.lifecycle && SamePlain(a.sealed, b.sealed))
  }

  predicate ItemGrows(a: Item, b: Item) {
    && b.id == a.id && b.request == a.request && b.variable == a.variable && b.action == a.action && b.key == a.key
    && b.base == a.base && b.source == a.source && a.revision <= b.revision
    && (a.revision == b.revision ==> b.meta == a.meta && SameProposal(a.proposed, b.proposed))
  }

  predicate RequestGrows(a: Request, b: Request) {
    && b.id == a.id && b.env == a.env && a.revision <= b.revision
    && (a.status == REJECTED || a.status == APPLIED ==> b == a)
  }

  /** `b` is a later state than `a`. */
  predicate Grows(a: Db, b: Db) {
    && KeysGrow(a, b)
    && (forall env :: env in a.envs ==> env in b.envs && b.envs[env].service == a.envs[env].service)
    && (forall id :: id in a.vars ==> id in b.vars && VariableGrows(a.vars[id], b.vars[id]))
    && (forall id :: id in a.requests ==> id in b.requests && RequestGrows(a.requests[id], b.requests[id]))
    && (forall id :: id in a.items ==> id in b.items && ItemGrows(a.items[id], b.items[id]))
    && (forall id :: id in b.items && b.items[id].request in a.requests ==> id in a.items)
  }
}
