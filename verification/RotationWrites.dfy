/** Every committed workflow write is an ordinary write of the rotation's machine. */
module RotationWrites {
  import opened Text
  import opened Crypto
  import opened Model
  import opened Fingerprint
  import opened Store
  import opened StoreProofs
  import opened StoreRuns
  import opened Rotation
  import opened RotationBridge

  predicate ActiveDek(db: Db, env: Id, sealed: Sealed) { env in db.active && sealed.dek == db.active[env] }

  // ----- what a transaction seals

  predicate RowSealed(a: Db, b: Db, id: Id)
    requires id in b.vars
  {
    var row := b.vars[id];
    || (id in a.vars && a.vars[id].id == row.id && a.vars[id].env == row.env && a.vars[id].version == row.version
        && a.vars[id].sealed == row.sealed)
    || ActiveDek(b, row.env, row.sealed)
  }

  predicate HistorySealed(a: Db, b: Db, k: (Id, Count))
    requires k in b.history
  {
    (k in a.history && a.history[k] == b.history[k]) || ActiveDek(b, b.history[k].env, b.history[k].sealed)
  }

  predicate ItemSealed(a: Db, b: Db, id: Id)
    requires id in b.items
  {
    var item := b.items[id];
    || item.proposed.None?
    || (id in a.items && a.items[id].id == item.id && a.items[id].request == item.request && a.items[id].revision == item.revision
        && a.items[id].proposed == item.proposed)
    || ActiveDek(b, ItemEnv(b, item), item.proposed.value)
  }

  /** The environments and keys are the same, and every ciphertext that is not as before names the ACTIVE key of its environment. */
  ghost predicate NewlySealed(a: Db, b: Db) {
    && b.envs == a.envs && b.keys == a.keys && b.active == a.active
    && (forall id :: id in a.requests ==> id in b.requests && b.requests[id].env == a.requests[id].env)
    && (forall id :: id in a.items ==> id in b.items && b.items[id].request == a.items[id].request)
    && (forall id :: id in b.items ==> b.items[id].request in b.requests)
    && (forall id :: id in b.vars ==> RowSealed(a, b, id))
    && (forall k :: k in b.history ==> HistorySealed(a, b, k))
    && (forall id :: id in b.items ==> ItemSealed(a, b, id))
  }

  lemma NewlySealedReflexive(a: Db)
    requires IdsHold(a)
    ensures NewlySealed(a, a)
  {
  }

  lemma NewlySealedTransitive(a: Db, b: Db, c: Db)
    requires NewlySealed(a, b) && NewlySealed(b, c)
    ensures NewlySealed(a, c)
  {
    hide ActiveDek;
    forall id | id in c.vars ensures RowSealed(a, c, id) {
      assert RowSealed(b, c, id);
      if id in b.vars { assert RowSealed(a, b, id); SameActive(b, c); }
    }
    forall k | k in c.history ensures HistorySealed(a, c, k) {
      assert HistorySealed(b, c, k);
      if k in b.history { assert HistorySealed(a, b, k); SameActive(b, c); }
    }
    forall id | id in c.items ensures ItemSealed(a, c, id) {
      assert ItemSealed(b, c, id);
      if id in b.items { assert ItemSealed(a, b, id); SameActive(b, c); }
    }
  }

  lemma SameActive(b: Db, c: Db)
    requires c.active == b.active
    ensures forall env, sealed :: ActiveDek(b, env, sealed) == ActiveDek(c, env, sealed)
  {
  }

  // ----- the transactions

  lemma VersionFrame(db: Db, w: VersionWrite)
    requires WriteVersion(db, w).Some?
    ensures var b := WriteVersion(db, w).value; b == db.(vars := b.vars, history := b.history)
    ensures WriteVariable(db, w).Some? && WriteVersion(db, w).value.vars == WriteVariable(db, w).value.vars
  {
    hide KeyTaken, HistoryOf;
  }

  lemma VersionRows(db: Db, w: VersionWrite)
    requires IdsHold(db) && WriteVersion(db, w).Some? && ActiveDek(db, w.env, w.sealed)
    ensures var b := WriteVersion(db, w).value; forall id :: id in b.vars ==> RowSealed(db, b, id)
  {
    hide KeyTaken, HistoryOf, After, IdsHold;
  }

  lemma VersionHistory(db: Db, w: VersionWrite)
    requires WriteVersion(db, w).Some? && ActiveDek(db, w.env, w.sealed)
    ensures var b := WriteVersion(db, w).value; forall k :: k in b.history ==> HistorySealed(db, b, k)
  {
    hide KeyTaken, HistoryOf, After;
    HistoryPlace(w);
  }

  lemma VersionSealed(db: Db, w: VersionWrite)
    requires IdsHold(db) && WriteVersion(db, w).Some? && ActiveDek(db, w.env, w.sealed)
    ensures NewlySealed(db, WriteVersion(db, w).value)
  {
    hide WriteVersion, RowSealed, HistorySealed;
    VersionFrame(db, w);
    VersionRows(db, w);
    VersionHistory(db, w);
  }

  lemma HistoryPlace(w: VersionWrite)
    ensures HistoryOf(w).env == w.env && HistoryOf(w).sealed == w.sealed
  {
  }

  lemma {:induction false} VersionsSealed(db: Db, writes: seq<VersionWrite>)
    requires IdsHold(db) && WriteVersions(db, writes).Some?
    requires forall i :: 0 <= i < |writes| ==> writes[i].env in db.envs && ActiveDek(db, writes[i].env, writes[i].sealed)
    ensures NewlySealed(db, WriteVersions(db, writes).value)
    decreases |writes|
  {
    hide WriteVersion, NewlySealed, IdsHold;
    if writes == [] {
      NewlySealedReflexive(db);
    } else {
      var b := WriteVersion(db, writes[0]).value;
      VersionSealed(db, writes[0]);
      VersionIds(db, writes[0]);
      VersionsSealed(b, writes[1..]);
      NewlySealedTransitive(db, b, WriteVersions(db, writes).value);
    }
  }

  lemma VersionIds(db: Db, w: VersionWrite)
    requires IdsHold(db) && WriteVersion(db, w).Some? && w.env in db.envs
    ensures IdsHold(WriteVersion(db, w).value)
    ensures WriteVersion(db, w).value.active == db.active && WriteVersion(db, w).value.envs == db.envs
  {
    hide KeyTaken, WriteVersion;
    VersionFrame(db, w);
    var b := WriteVersion(db, w).value;
    forall id | id in b.vars ensures b.vars[id].id == id && b.vars[id].env in b.envs {}
  }

  /** Only requests and the audit change, no request its environment. */
  lemma RequestsSealed(a: Db, b: Db)
    requires IdsHold(a) && b == a.(requests := b.requests, audit := b.audit)
    requires forall id :: id in a.requests ==> id in b.requests && b.requests[id].env == a.requests[id].env
    ensures NewlySealed(a, b)
  {
  }

  lemma {:induction false} InsertedSealed(db: Db, items: seq<Item>)
    requires IdsHold(db) && InsertItems(db, items).Some?
    requires forall i :: 0 <= i < |items| && items[i].proposed.Some? ==> ActiveDek(db, ItemEnv(db, items[i]), items[i].proposed.value)
    ensures NewlySealed(db, InsertItems(db, items).value) && IdsHold(InsertItems(db, items).value)
    decreases |items|
  {
    hide NewlySealed;
    if items == [] {
      NewlySealedReflexive(db);
    } else {
      var b := db.(items := db.items[items[0].id := items[0]]);
      OneItemSealed(db, b, items[0]);
      InsertedSealed(b, items[1..]);
      NewlySealedTransitive(db, b, InsertItems(db, items).value);
    }
  }

  /** An item is inserted, or takes a new value at its next revision. */
  lemma OneItemSealed(db: Db, b: Db, item: Item)
    requires IdsHold(db) && b == db.(items := db.items[item.id := item]) && item.request in db.requests
    requires item.id in db.items ==> db.items[item.id].request == item.request
    requires item.proposed.Some? ==> ActiveDek(db, ItemEnv(db, item), item.proposed.value)
    ensures NewlySealed(db, b) && IdsHold(b)
  {
    forall id | id in b.items ensures ItemSealed(db, b, id) {}
  }

  lemma {:induction false} MarkedSealed(db: Db, seen: seq<Request>, expected: Digest)
    requires IdsHold(db) && MarkRequests(db, seen, expected).Ok?
    ensures NewlySealed(db, MarkRequests(db, seen, expected).value)
    decreases |seen|
  {
    hide NewlySealed, RequestAllowed, TransitionAllowed, Next;
    if seen == [] {
      NewlySealedReflexive(db);
    } else {
      var r := db.requests[seen[0].id];
      var b := SaveRequest(db, seen[0].id, r.(status := APPLIED, applied := true, revision := Next(r.revision).value), "APPLY_REQUEST").value;
      SavedSealed(db, seen[0].id, r.(status := APPLIED, applied := true, revision := Next(r.revision).value), "APPLY_REQUEST");
      MarkedSealed(b, seen[1..], expected);
      NewlySealedTransitive(db, b, MarkRequests(db, seen, expected).value);
    }
  }

  lemma SavedSealed(db: Db, id: Id, r: Request, action: string)
    requires IdsHold(db) && id in db.requests && SaveRequest(db, id, r, action).Ok?
    requires r.env == db.requests[id].env && r.id == db.requests[id].id
    ensures NewlySealed(db, SaveRequest(db, id, r, action).value) && IdsHold(SaveRequest(db, id, r, action).value)
  {
    hide RequestAllowed, TransitionAllowed, NewlySealed;
    RequestsSealed(db, SaveRequest(db, id, r, action).value);
  }

  lemma {:induction false} PreviewedSealed(db: Db, seen: seq<Request>, digest: Digest)
    requires IdsHold(db) && StorePreview(db, seen, digest).Ok?
    ensures NewlySealed(db, StorePreview(db, seen, digest).value)
    decreases |seen|
  {
    hide NewlySealed, RequestAllowed, TransitionAllowed;
    if seen == [] {
      NewlySealedReflexive(db);
    } else {
      var r := db.requests[seen[0].id];
      var b := Audited(db.(requests := db.requests[seen[0].id := r.(fingerprint := Some(digest))]), "PREVIEW_REQUEST", r.env, Some(seen[0].id));
      RequestsSealed(db, b);
      PreviewedSealed(b, seen[1..], digest);
      NewlySealedTransitive(db, b, StorePreview(db, seen, digest).value);
    }
  }

  lemma AuditedSealed(a: Db, b: Db, action: string, env: Id, request: Option<Id>)
    requires NewlySealed(a, b)
    ensures NewlySealed(a, Audited(b, action, env, request))
  {
    var c := Audited(b, action, env, request);
    forall id | id in c.vars ensures RowSealed(a, c, id) { assert RowSealed(a, b, id); }
    forall k | k in c.history ensures HistorySealed(a, c, k) { assert HistorySealed(a, b, k); }
    forall id | id in c.items ensures ItemSealed(a, c, id) { assert ItemSealed(a, b, id); }
  }

  predicate DirectActive(db: Db, d: Direct) {
    ActiveDek(db, d.write.env, d.write.sealed) && (d.proposed.Some? ==> ActiveDek(db, d.write.env, d.proposed.value))
  }

  lemma DirectSealed(db: Db, d: Direct)
    requires IdsHold(db) && PersistDirect(db, d).Ok? && DirectActive(db, d)
    ensures NewlySealed(db, PersistDirect(db, d).value) && IdsHold(PersistDirect(db, d).value)
  {
    hide NewlySealed, WriteVersion, ItemInsertable, InsertItems, ItemInScope, ItemAllowed;
    var w := d.write;
    var db1 := db.(requests := db.requests[w.request := DirectRequest(w)]);
    RequestsSealed(db, db1);
    InsertedSealed(db1, [DirectItem(d)]);
    var db2 := InsertItems(db1, [DirectItem(d)]).value;
    NewlySealedTransitive(db, db1, db2);
    assert db2.envs == db.envs && db2.active == db.active by { SameKeys(db, db2); }
    VersionSealed(db2, w);
    var db3 := WriteVersion(db2, w).value;
    VersionIds(db2, w);
    NewlySealedTransitive(db, db2, db3);
    AuditedSealed(db, db3, if w.action == DELETE then "DELETE_VARIABLE" else "DIRECT_APPLY_VARIABLE", w.env, Some(w.request));
  }

  lemma SameKeys(a: Db, b: Db)
    requires NewlySealed(a, b)
    ensures b.envs == a.envs && b.keys == a.keys && b.active == a.active
  {
  }

  lemma {:induction false} DirectsSealed(db: Db, directs: seq<Direct>)
    requires IdsHold(db) && PersistDirects(db, directs).Ok? && forall i :: 0 <= i < |directs| ==> DirectActive(db, directs[i])
    ensures NewlySealed(db, PersistDirects(db, directs).value)
    decreases |directs|
  {
    hide NewlySealed, PersistDirect, IdsHold;
    if directs == [] {
      NewlySealedReflexive(db);
    } else {
      var b := PersistDirect(db, directs[0]).value;
      DirectSealed(db, directs[0]);
      SameKeys(db, b);
      DirectsSealed(b, directs[1..]);
      NewlySealedTransitive(db, b, PersistDirects(db, directs).value);
    }
  }

  lemma ApplySealed(db: Db, ids: seq<Id>, env: Id, expected: Digest, writes: seq<VersionWrite>)
    requires IdsHold(db) && WritesShaped(db, env, writes) && ApplyTransaction(db, ids, env, expected, writes).Ok?
    ensures NewlySealed(db, ApplyTransaction(db, ids, env, expected, writes).value)
  {
    hide NewlySealed, WriteVersions, MarkRequests, IdsHold, WriteShaped, SelectionValid, SelectionDigest, LoadItems, LoadRequests, CurrentRows, Reveal;
    var b := WriteVersions(db, writes).value;
    VersionsSealed(db, writes);
    assert IdsHold(b) by { WrittenIds(db, b, writes); }
    MarkedSealed(b, ApplyChecks(db, ids, env, expected, writes).value, expected);
    NewlySealedTransitive(db, b, ApplyTransaction(db, ids, env, expected, writes).value);
  }

  lemma {:induction false} WrittenIds(db: Db, b: Db, writes: seq<VersionWrite>)
    requires IdsHold(db) && WriteVersions(db, writes) == Some(b) && forall i :: 0 <= i < |writes| ==> writes[i].env in db.envs
    ensures IdsHold(b)
    decreases |writes|
  {
    hide WriteVersion, IdsHold;
    if writes != [] {
      VersionIds(db, writes[0]);
      WrittenIds(WriteVersion(db, writes[0]).value, b, writes[1..]);
    }
  }

  lemma EditSealed(
    db: Db, ids: seq<Id>, env: Id, expected: Digest, edit: Edit, requests: seq<Request>, items: seq<Item>, rows: seq<Variable>)
    requires IdsHold(db) && EditShaped(db, ids, env, expected, edit, requests, items, rows)
    requires EditTransaction(db, ids, env, expected, edit).Ok?
    ensures NewlySealed(db, EditTransaction(db, ids, env, expected, edit).value)
  {
    hide NewlySealed, EditAllowed, EditShaped, RequestAllowed, TransitionAllowed, ItemInScope;
    EditScope(db, ids, env, expected, edit, requests, items, rows);
    if edit.same {
      NewlySealedReflexive(db);
    } else {
      EditedIsCurrent(db, ids, env, expected, edit, requests, items, rows);
      assert db.items[edit.item.id].request == edit.item.request by { ViewTells(db.items[edit.item.id], edit.item); }
      var r := db.requests[edit.item.request];
      var item := EditedItem(db.items[edit.item.id], edit, Next(edit.item.revision).value);
      var b := db.(items := db.items[edit.item.id := item]);
      OneItemSealed(db, b, item);
      var r' := r.(approved := true, revision := Next(r.revision).value, fingerprint := None);
      SavedSealed(b, edit.item.request, r', "EDIT_REQUEST");
      NewlySealedTransitive(db, b, EditTransaction(db, ids, env, expected, edit).value);
    }
  }

  lemma EditScope(
    db: Db, ids: seq<Id>, env: Id, expected: Digest, edit: Edit, requests: seq<Request>, items: seq<Item>, rows: seq<Variable>)
    requires EditShaped(db, ids, env, expected, edit, requests, items, rows) && EditTransaction(db, ids, env, expected, edit).Ok?
    ensures EditAllowed(db, ids, env, expected, edit) && ActiveDek(db, env, edit.sealed)
    ensures edit.item.request in db.requests ==> db.requests[edit.item.request].env == env
  {
    hide LoadItems, LoadRequests, CurrentRows, SelectionDigest, SelectionValid, ProposalSealed;
  }

  // ----- the theorem

  /**
   * The values of a creation, a fulfilment, a direct write or an import were sealed under the ACTIVE key. An
   * apply and a correction test it in their transactions; the remaining calls seal nothing.
   */
  predicate SealsActive(db: Db, op: Op) {
    match op
    case CreateOp(id, env, items) =>
      forall i :: 0 <= i < |items| && items[i].proposed.Some? ==> ActiveDek(db, env, items[i].proposed.value)
    case FulfillOp(read, sealed) => read.request in db.requests ==> ActiveDek(db, db.requests[read.request].env, sealed)
    case DirectOp(direct) => DirectActive(db, direct)
    case ImportOp(env, directs) => forall i :: 0 <= i < |directs| ==> DirectActive(db, directs[i])
    case EnvironmentOp(_, _, _) => false
    case ArchiveOp(_, _, _) => false
    case RekeyOp(_) => false
    case _ => true
  }

  lemma CreateSealed(db: Db, id: Id, env: Id, items: seq<Item>)
    requires IdsHold(db) && Create(db, id, env, items).Ok?
    requires forall i :: 0 <= i < |items| ==> items[i].request == id && (items[i].proposed.Some? ==> ActiveDek(db, env, items[i].proposed.value))
    ensures NewlySealed(db, Create(db, id, env, items).value)
  {
    hide NewlySealed;
    var b := db.(requests := db.requests[id := NewRequest(id, env, items)]);
    RequestsSealed(db, b);
    InsertedSealed(b, items);
    NewlySealedTransitive(db, b, InsertItems(b, items).value);
    AuditedSealed(db, InsertItems(b, items).value, "CREATE_REQUEST", env, Some(id));
  }

  lemma FulfilSealed(db: Db, read: Item, sealed: Sealed)
    requires IdsHold(db) && FulfillShaped(db, read, sealed) && Fulfill(db, read, sealed).Ok?
    requires ActiveDek(db, db.requests[read.request].env, sealed)
    ensures NewlySealed(db, Fulfill(db, read, sealed).value)
  {
    hide NewlySealed, RequestAllowed, TransitionAllowed, ItemInScope, ProposalSealed, Missing;
    var item := db.items[read.id].(proposed := Some(sealed), revision := Next(read.revision).value);
    var b := db.(items := db.items[read.id := item]);
    OneItemSealed(db, b, item);
    var r := db.requests[read.request];
    var status := if Missing(b, read.request) then NEEDS_INPUT else if r.approved then READY_TO_APPLY else REQUESTED;
    var r' := r.(status := status, revision := Next(r.revision).value, fingerprint := None);
    SavedSealed(b, read.request, r', "FULFILL_REQUEST_VALUE");
    NewlySealedTransitive(db, b, Fulfill(db, read, sealed).value);
  }

  lemma CommitSealed(db: Db, op: Op)
    requires IdsHold(db) && Shaped(db, op) && Commit(db, op).Ok? && SealsActive(db, op)
    ensures NewlySealed(db, Commit(db, op).value)
  {
    hide NewlySealed, IdsHold, Create, Fulfill, StorePreview, EditTransaction, ApplyTransaction, PersistDirect, PersistDirects;
    hide FulfillShaped, EditShaped, WritesShaped, DirectShaped, RequestAllowed, TransitionAllowed, DirectActive, ActiveDek, Missing;
    match op {
      case CreateOp(id, env, items) => CreateSealed(db, id, env, items);
      case FulfillOp(read, sealed) =>
        assert read.request in db.requests by { FulfilRequest(db, read, sealed); }
        FulfilSealed(db, read, sealed);
      case ApproveOp(id) =>
        var r := db.requests[id];
        assert Approve(db, id).Ok?;
        var status := if Missing(db, id) then NEEDS_INPUT else READY_TO_APPLY;
        var r' := r.(status := status, approved := true, revision := Next(r.revision).value, fingerprint := None);
        SavedSealed(db, id, r', "APPROVE_REQUEST");
      case RejectOp(id) =>
        var r := db.requests[id];
        assert Reject(db, id).Ok?;
        SavedSealed(db, id, r.(status := REJECTED, rejected := true, revision := Next(r.revision).value, fingerprint := None), "REJECT_REQUEST");
      case PreviewOp(seen, digest) => PreviewedSealed(db, seen, digest);
      case EditOp(ids, env, expected, edit, requests, items, rows) => EditSealed(db, ids, env, expected, edit, requests, items, rows);
      case ApplyOp(ids, env, expected, writes) => ApplySealed(db, ids, env, expected, writes);
      case DirectOp(direct) => DirectSealed(db, direct);
      case ImportOp(env, directs) =>
        DirectsSealed(db, directs);
        var b := PersistDirects(db, directs).value;
        if directs != [] { AuditedSealed(db, b, "IMPORT_ENV", env, None); }
    }
  }

  lemma FulfilRequest(db: Db, read: Item, sealed: Sealed)
    requires FulfillShaped(db, read, sealed)
    ensures read.request in db.requests
  {
    hide ProposalSealed;
  }

  /** Any workflow transaction, committed or not, is an ordinary write of the rotation's machine. */
  lemma TransactionIsOrdinaryWrite(db: Db, s: Sys, op: Op)
    requires Inv(db) && Sound(s) && Matches(db, s) && !WriteBlocked(s) && SealsActive(db, op)
    ensures WriteAllowed(s, CellsOf(Run1(db, op))) && Matches(Run1(db, op), s.(cells := CellsOf(Run1(db, op))))
  {
    hide Inv, Grows, Sound, Matches, WriteBlocked, SealsActive, NewlySealed, Shaped, Commit, WriteAllowed, CellsOf, CellKeys, CellAt;
    hide IdsHold, KeysUnique, HistoryComplete, StatusesHold, ItemsHold, Readable;
    var after := Run1(db, op);
    InvIds(db);
    OneTransaction(db, op);
    InvIds(after);
    if Shaped(db, op) && Commit(db, op).Ok? { CommitSealed(db, op); } else { NewlySealedReflexive(db); }
    SameKeys(db, after);
    forall k | k in CellKeys(after) && !(k in s.cells && s.cells[k] == CellAt(after, k))
      ensures CellAt(after, k).env in db.active && CellAt(after, k).dek == db.active[CellAt(after, k).env]
    {
      ChangedCell(db, after, s, k);
    }
    WorkflowIsOrdinaryWrite(db, s, after);
  }

  lemma ChangedCell(db: Db, after: Db, s: Sys, k: CellId)
    requires IdsHold(db) && IdsHold(after) && NewlySealed(db, after) && Matches(db, s) && k in CellKeys(after)
    requires !(k in s.cells && s.cells[k] == CellAt(after, k))
    ensures CellAt(after, k).env in db.active && CellAt(after, k).dek == db.active[CellAt(after, k).env]
  {
    hide CellKeys, HasStatus, KeyMatches;
    CellKeysAre(after, k);
    CellKeysAre(db, k);
    match k {
      case CurrentCell(id) => assert RowSealed(db, after, id);
      case HistoryCell(id, version) => assert HistorySealed(db, after, (id, version));
      case ProposalCell(id) => assert ItemSealed(db, after, id);
    }
  }
}
