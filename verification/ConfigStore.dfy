/** The database as an object: each method is one transaction, statement by statement, rolled back when one fails. */
module ConfigDatabase {
  import opened Text
  import opened Crypto
  import opened Model
  import opened Fingerprint
  import opened Store
  import opened StoreProofs
  import opened StoreRuns
  import opened Workflow
  import opened WorkflowReads
  import opened Import

  /** A transaction commits its whole effect or leaves the database as it was. */
  ghost predicate Atomic<T>(before: Db, after: Db, effect: Result<Db>, r: Result<T>) {
    match effect
    case Ok(db) => r.Ok? && after == db
    case Err(e) => r == Err(e) && after == before
  }

  /** A part of a transaction: when it fails, its caller rolls back. */
  ghost predicate Follows<T>(effect: Result<Db>, after: Db, r: Result<T>) {
    match effect
    case Ok(db) => r.Ok? && after == db
    case Err(e) => r == Err(e)
  }

  /** An import commits and counts its changes, or leaves the database as it was. */
  ghost predicate Imports(before: Db, after: Db, effect: Result<(Db, nat)>, r: Result<nat>) {
    match effect
    case Ok((db, n)) => r == Ok(n) && after == db
    case Err(e) => r == Err(e) && after == before
  }

  /** The invariants are kept, and rows only grow. */
  ghost predicate Steady(before: Db, after: Db) { Inv(after) && Grows(before, after) }

  class ConfigStore {
    var db: Db

    constructor (start: Db)
      ensures db == start
    {
      db := start;
    }

    /** An UPDATE of one request row with its audit row; false when a constraint or trigger refuses it. */
    method WriteRequest(id: Id, row: Request, action: string) returns (ok: bool)
      requires id in db.requests
      modifies this
      ensures ok == SaveRequest(old(db), id, row, action).Ok?
      ensures db == if ok then SaveRequest(old(db), id, row, action).value else old(db)
    {
      hide RequestAllowed, TransitionAllowed;
      if !RequestAllowed(row) || !TransitionAllowed(db, id, db.requests[id], row) { return false; }
      db := db.(requests := db.requests[id := row]);
      db := db.(audit := db.audit + [AuditEvent(action, row.env, Some(id))]);
      return true;
    }

    method ApproveRequest(id: Id) returns (r: Result<Status>)
      modifies this
      ensures Atomic(old(db), db, Approve(old(db), id), r)
      ensures old(Inv(db)) ==> Steady(old(db), db)
    {
      hide Inv, Grows, Missing, RequestAllowed, TransitionAllowed;
      ghost var begin := db;
      if Inv(begin) { OneTransaction(begin, ApproveOp(id)); }
      if id !in db.requests { return Err(NotFound); }
      var row := db.requests[id];
      if (row.status != REQUESTED && row.status != NEEDS_INPUT) || row.approved { return Err(Conflict); }
      var revision := Next(row.revision);
      if revision.None? { return Err(Constraint); }
      var status := if Missing(db, id) then NEEDS_INPUT else READY_TO_APPLY;
      var ok := WriteRequest(id, row.(status := status, approved := true, revision := revision.value, fingerprint := None), "APPROVE_REQUEST");
      return if ok then Ok(status) else Err(Constraint);
    }

    method RejectRequest(id: Id) returns (r: Result<()>)
      modifies this
      ensures Atomic(old(db), db, Reject(old(db), id), r)
      ensures old(Inv(db)) ==> Steady(old(db), db)
    {
      hide Inv, Grows, RequestAllowed, TransitionAllowed;
      ghost var begin := db;
      if Inv(begin) { OneTransaction(begin, RejectOp(id)); }
      if id !in db.requests { return Err(NotFound); }
      var row := db.requests[id];
      if row.status != REQUESTED && row.status != NEEDS_INPUT && row.status != READY_TO_APPLY { return Err(Conflict); }
      var revision := Next(row.revision);
      if revision.None? { return Err(Constraint); }
      var ok := WriteRequest(id, row.(status := REJECTED, rejected := true, revision := revision.value, fingerprint := None), "REJECT_REQUEST");
      return if ok then Ok(()) else Err(Constraint);
    }

    /** `fulfill_value`: the item is written before the status of its request is worked out. */
    method FulfillValue(read: Item, sealed: Sealed) returns (r: Result<Id>)
      modifies this
      ensures Atomic(old(db), db, Fulfill(old(db), read, sealed), r)
      ensures old(Inv(db)) && FulfillShaped(old(db), read, sealed) ==> Steady(old(db), db)
    {
      hide Inv, Grows, Missing, RequestAllowed, TransitionAllowed, FulfillShaped, ItemInScope;
      var begin := db;
      if Inv(begin) && FulfillShaped(begin, read, sealed) { OneTransaction(begin, FulfillOp(read, sealed)); }
      if read.id !in db.items { return Err(Conflict); }
      var item := db.items[read.id];
      if item.revision != read.revision || item.proposed.Some? { return Err(Conflict); }
      if read.request !in db.requests { return Err(NotFound); }
      var row := db.requests[read.request];
      var itemRevision, revision := Next(read.revision), Next(row.revision);
      if itemRevision.None? || revision.None? { return Err(Constraint); }
      item := item.(proposed := Some(sealed), revision := itemRevision.value);
      if !ItemInScope(db, item) { return Err(Constraint); }
      db := db.(items := db.items[read.id := item]);
      var status :=
        if Missing(db, read.request) then NEEDS_INPUT else if row.approved then READY_TO_APPLY else REQUESTED;
      var ok := WriteRequest(read.request, row.(status := status, revision := revision.value, fingerprint := None), "FULFILL_REQUEST_VALUE");
      if !ok {
        db := begin;
        return Err(Constraint);
      }
      return Ok(read.request);
    }

    /** The items of a request, inserted one by one; false when one is refused. */
    method InsertAll(items: seq<Item>) returns (ok: bool)
      modifies this
      ensures ok == InsertItems(old(db), items).Some?
      ensures ok ==> db == InsertItems(old(db), items).value
    {
      hide ItemInsertable;
      var i := 0;
      ghost var rest := items;
      while i < |items|
        invariant 0 <= i <= |items| && rest == items[i..]
        invariant InsertItems(db, rest) == InsertItems(old(db), items)
      {
        if !ItemInsertable(db, items[i]) { return false; }
        db := db.(items := db.items[items[i].id := items[i]]);
        i := i + 1;
        rest := rest[1..];
      }
      return true;
    }

    method CreateRequest(id: Id, env: Id, items: seq<Item>) returns (r: Result<Id>)
      modifies this
      ensures Atomic(old(db), db, Create(old(db), id, env, items), r)
      ensures old(Inv(db)) && (forall i :: 0 <= i < |items| ==> ItemShaped(old(db), id, env, items[i])) ==>
                Inv(db) && Grows(old(db), db)
    {
      hide Inv, Grows, InsertItems, AnyNeedsValue, ItemShaped;
      var begin := db;
      if Inv(begin) && (forall i :: 0 <= i < |items| ==> ItemShaped(begin, id, env, items[i])) {
        OneTransaction(begin, CreateOp(id, env, items));
      }
      if id in db.requests || env !in db.envs { return Err(Constraint); }
      db := db.(requests := db.requests[id := NewRequest(id, env, items)]);
      var ok := InsertAll(items);
      if !ok {
        db := begin;
        return Err(Constraint);
      }
      db := db.(audit := db.audit + [AuditEvent("CREATE_REQUEST", env, Some(id))]);
      return Ok(id);
    }

    /** The transaction of `preview_resulting`: request after request. */
    method RecordPreview(seen: seq<Request>, digest: Digest) returns (r: Result<()>)
      modifies this
      ensures Atomic(old(db), db, StorePreview(old(db), seen, digest), r)
      ensures old(Inv(db)) ==> Steady(old(db), db)
    {
      hide Inv, Grows;
      var begin := db;
      if Inv(begin) { OneTransaction(begin, PreviewOp(seen, digest)); }
      var i := 0;
      ghost var rest := seen;
      while i < |seen|
        invariant 0 <= i <= |seen| && rest == seen[i..]
        invariant StorePreview(db, rest, digest) == StorePreview(begin, seen, digest)
      {
        var id := seen[i].id;
        if id !in db.requests || db.requests[id].revision != seen[i].revision || db.requests[id].status != READY_TO_APPLY {
          db := begin;
          return Err(Conflict);
        }
        var row := db.requests[id];
        db := db.(requests := db.requests[id := row.(fingerprint := Some(digest))],
                  audit := db.audit + [AuditEvent("PREVIEW_REQUEST", row.env, Some(id))]);
        i := i + 1;
        rest := rest[1..];
      }
      return Ok(());
    }

    /** `mutate_current`, or the first statement of `persist_apply_item`; false when no row is changed. */
    method MutateCurrent(w: VersionWrite) returns (ok: bool)
      modifies this
      ensures ok == WriteVariable(old(db), w).Some?
      ensures db == if ok then WriteVariable(old(db), w).value else old(db)
    {
      hide KeyTaken;
      if w.expected.None? {
        if w.variable in db.vars || KeyTaken(db, w.env, w.key) { return false; }
        db := db.(vars := db.vars[w.variable := Variable(w.variable, w.env, w.key, w.sealed, w.meta, 1, ACTIVE)]);
        return true;
      }
      if w.variable !in db.vars { return false; }
      var row := db.vars[w.variable];
      if row.env != w.env || row.version != w.expected.value || row.lifecycle != w.from { return false; }
      row := row.(sealed := w.sealed, meta := w.meta, version := w.version);
      row := row.(lifecycle := if w.action == DELETE then DELETED else ACTIVE);
      db := db.(vars := db.vars[w.variable := row]);
      return true;
    }

    /** The row and its history row; when it fails the caller rolls back. */
    method PersistVersion(w: VersionWrite) returns (ok: bool)
      modifies this
      ensures ok == WriteVersion(old(db), w).Some?
      ensures ok ==> db == WriteVersion(old(db), w).value
    {
      hide WriteVariable;
      ok := MutateCurrent(w);
      if !ok || (w.variable, w.version) in db.history { return false; }
      var h := History(w.variable, w.env, w.version, w.action, w.sealed, w.meta, After(w.action), w.request, w.item);
      db := db.(history := db.history[(w.variable, w.version) := h]);
    }

    /** The write loop of `mark_applied`. */
    method PersistAll(writes: seq<VersionWrite>) returns (ok: bool)
      modifies this
      ensures ok == WriteVersions(old(db), writes).Some?
      ensures ok ==> db == WriteVersions(old(db), writes).value
    {
      hide WriteVersion;
      var i := 0;
      ghost var rest := writes;
      while i < |writes|
        invariant 0 <= i <= |writes| && rest == writes[i..]
        invariant WriteVersions(db, rest) == WriteVersions(old(db), writes)
      {
        var written := PersistVersion(writes[i]);
        if !written { return false; }
        i := i + 1;
        rest := rest[1..];
      }
      return true;
    }

    /** The last loop of `mark_applied`; when it fails the caller rolls back. */
    method MarkAll(seen: seq<Request>, expected: Digest) returns (r: Result<()>)
      modifies this
      ensures Follows(MarkRequests(old(db), seen, expected), db, r)
    {
      hide RequestAllowed, TransitionAllowed, SaveRequest, Next;
      var i := 0;
      ghost var rest := seen;
      while i < |seen|
        invariant 0 <= i <= |seen| && rest == seen[i..]
        invariant MarkRequests(db, rest, expected) == MarkRequests(old(db), seen, expected)
      {
        var id := seen[i].id;
        if id !in db.requests { return Err(Conflict); }
        var row := db.requests[id];
        if row.revision != seen[i].revision || row.status != READY_TO_APPLY || row.fingerprint != Some(expected) { return Err(Conflict); }
        var revision := Next(row.revision);
        if revision.None? { return Err(Constraint); }
        ghost var before := db;
        var ok := WriteRequest(id, row.(status := APPLIED, applied := true, revision := revision.value), "APPLY_REQUEST");
        if !ok {
          assert SaveRequest(before, id, row.(status := APPLIED, applied := true, revision := revision.value), "APPLY_REQUEST") == Err(Constraint) by {
            SaveFails(before, id, row.(status := APPLIED, applied := true, revision := revision.value));
          }
          return Err(Constraint);
        }
        i := i + 1;
        rest := rest[1..];
      }
      return Ok(());
    }

    /** `mark_applied` from the start of its transaction. */
    method MarkApplied(ids: seq<Id>, env: Id, expected: Digest, writes: seq<VersionWrite>) returns (r: Result<Id>)
      modifies this
      ensures Atomic(old(db), db, ApplyTransaction(old(db), ids, env, expected, writes), r)
      ensures old(Inv(db)) && WritesShaped(old(db), env, writes) ==> Steady(old(db), db)
    {
      hide Inv, Grows, SelectionValid, SelectionDigest, LoadItems, CurrentRows, LoadRequests, WriteVersions, MarkRequests, WritesShaped;
      var begin := db;
      if Inv(begin) && WritesShaped(begin, env, writes) { OneTransaction(begin, ApplyOp(ids, env, expected, writes)); }
      var requests := LoadRequests(db, ids);
      if requests.Err? { return Err(requests.error); }
      var items := LoadItems(db, ids);
      var valid := ValidateSelection(requests.value, items);
      if !valid { return Err(Conflict); }
      var actual := SelectionFingerprint(requests.value, items, CurrentRows(db, env));
      if env !in db.active { return Err(CryptoFailure); }
      if actual != expected
        || (exists i :: 0 <= i < |writes| && writes[i].sealed.dek != db.active[env])
        || (exists i :: 0 <= i < |requests.value| && requests.value[i].fingerprint != Some(expected)) { return Err(Conflict); }
      var written := PersistAll(writes);
      if !written {
        db := begin;
        return Err(Conflict);
      }
      var marked := MarkAll(requests.value, expected);
      if marked.Err? {
        db := begin;
        return Err(marked.error);
      }
      return Ok(env);
    }

    /** `edit_preview` from the start of its transaction. */
    method EditPreview(ids: seq<Id>, env: Id, expected: Digest, edit: Edit) returns (r: Result<()>)
      modifies this
      ensures Atomic(old(db), db, EditTransaction(old(db), ids, env, expected, edit), r)
      ensures forall requests, items, rows ::
                old(Inv(db)) && EditShaped(old(db), ids, env, expected, edit, requests, items, rows) ==> Steady(old(db), db)
    {
      hide EditAllowed, Next, RequestAllowed, TransitionAllowed, ItemInScope, Inv, Steady, EditShaped;
      var begin := db;
      forall requests, items, rows | Inv(begin) && EditShaped(begin, ids, env, expected, edit, requests, items, rows)
        ensures var after := EditTransaction(begin, ids, env, expected, edit); Steady(begin, if after.Ok? then after.value else begin)
      {
        EditIsAStep(begin, ids, env, expected, edit, requests, items, rows);
      }
      if !EditAllowed(db, ids, env, expected, edit) { return Err(Conflict); }
      if edit.same { return Ok(()); }
      if edit.item.id !in db.items || edit.item.request !in db.requests { return Err(Conflict); }
      var row := db.requests[edit.item.request];
      var itemRevision, revision := Next(edit.item.revision), Next(row.revision);
      if itemRevision.None? || revision.None? { return Err(Constraint); }
      var item := db.items[edit.item.id];
      item := item.(proposed := Some(edit.sealed), revision := itemRevision.value, meta := item.meta.(group := edit.group, order := edit.order));
      if !ItemInScope(db, item) { return Err(Constraint); }
      db := db.(items := db.items[edit.item.id := item]);
      var ok := WriteRequest(edit.item.request, row.(approved := true, revision := revision.value, fingerprint := None), "EDIT_REQUEST");
      if !ok {
        db := begin;
        return Err(Constraint);
      }
      return Ok(());
    }

    /** `persist_applied_in_transaction`; when it fails the caller rolls back. */
    method PersistOne(d: Direct) returns (r: Result<()>)
      modifies this
      ensures Follows(PersistDirect(old(db), d), db, r)
    {
      hide InsertItems, WriteVersion;
      var w := d.write;
      if w.request in db.requests || w.env !in db.envs { return Err(Constraint); }
      db := db.(requests := db.requests[w.request := DirectRequest(w)]);
      var inserted := InsertAll([DirectItem(d)]);
      if !inserted { return Err(Constraint); }
      var written := PersistVersion(w);
      if !written { return Err(Conflict); }
      var action := if w.action == DELETE then "DELETE_VARIABLE" else "DIRECT_APPLY_VARIABLE";
      db := db.(audit := db.audit + [AuditEvent(action, w.env, Some(w.request))]);
      return Ok(());
    }

    /** The transaction of a direct record or delete. */
    method PersistApplied(d: Direct) returns (r: Result<()>)
      modifies this
      ensures Atomic(old(db), db, PersistDirect(old(db), d), r)
      ensures old(Inv(db)) && DirectShaped(old(db), d) ==> Steady(old(db), db)
    {
      hide Inv, Grows, PersistDirect, DirectShaped;
      var begin := db;
      if Inv(begin) && DirectShaped(begin, d) { OneTransaction(begin, DirectOp(d)); }
      r := PersistOne(d);
      if r.Err? { db := begin; }
    }

    /** The write loop of an import; unchanged entries are passed over. */
    method PersistChanged(lines: seq<Line>) returns (r: Result<nat>)
      modifies this
      ensures Follows(PersistDirects(old(db), Changed(lines)), db, r) && (r.Ok? ==> r.value == |Changed(lines)|)
    {
      hide PersistDirect;
      var count := 0;
      var i := 0;
      ghost var rest := lines;
      while i < |lines|
        invariant 0 <= i <= |lines| && rest == lines[i..] && count >= 0
        invariant count + |Changed(rest)| == |Changed(lines)|
        invariant PersistDirects(db, Changed(rest)) == PersistDirects(old(db), Changed(lines))
      {
        assert rest[0] == lines[i];
        if lines[i].same {
          assert Changed(rest) == Changed(rest[1..]);
        } else {
          assert Changed(rest) == [lines[i].direct] + Changed(rest[1..]);
          assert Changed(rest)[1..] == Changed(rest[1..]);
          var persisted := PersistOne(lines[i].direct);
          if persisted.Err? { return Err(persisted.error); }
          count := count + 1;
        }
        i := i + 1;
        rest := rest[1..];
      }
      return Ok(count);
    }

    /** `import_applied_reviewed` from the start of its transaction: a batch that is refused writes nothing. */
    method ImportReviewed(env: Id, lines: seq<Line>, refs: seq<Reference>, expected: Option<seq<Review>>) returns (r: Result<nat>)
      modifies this
      ensures Imports(old(db), db, ImportCommit(old(db), env, lines, refs, expected), r)
      ensures old(Inv(db)) && ChangedShaped(old(db), lines) ==> Steady(old(db), db)
    {
      hide PersistDirects, ReviewsAllow, LineCurrent, Reviews, Inv, ChangedShaped, Steady;
      var begin := db;
      if Inv(begin) && ChangedShaped(begin, lines) { ImportIsSteady(begin, env, lines, refs, expected); }
      if env !in db.envs { return Err(NotFound); }
      if db.envs[env].archived || db.envs[env].serviceArchived { return Err(Conflict); }
      var reviews := Reviews(refs, env, LineKeys(lines));
      if (expected.Some? && expected.value != reviews) || !ReviewsAllow(reviews, lines) { return Err(ImportReviewConflict); }
      if env !in db.active { return Err(CryptoFailure); }
      if exists i :: 0 <= i < |lines| && !LineCurrent(db, env, lines[i]) { return Err(Conflict); }
      var changed := PersistChanged(lines);
      if changed.Err? {
        db := begin;
        return Err(changed.error);
      }
      if changed.value != 0 { db := db.(audit := db.audit + [AuditEvent("IMPORT_ENV", env, None)]); }
      return Ok(changed.value);
    }
  }

  predicate ChangedShaped(db: Db, lines: seq<Line>) {
    forall i :: 0 <= i < |Changed(lines)| ==> DirectShaped(db, Changed(lines)[i])
  }

  lemma ImportIsSteady(db: Db, env: Id, lines: seq<Line>, refs: seq<Reference>, expected: Option<seq<Review>>)
    requires Inv(db) && ChangedShaped(db, lines)
    ensures var after := ImportCommit(db, env, lines, refs, expected); Steady(db, if after.Ok? then after.value.0 else db)
  {
    hide Inv, Grows, PersistImport, DirectShaped, ReviewsAllow, LineCurrent, Reviews;
    InvGrows(db);
    OneTransaction(db, ImportOp(env, Changed(lines)));
  }

  lemma EditIsAStep(
    db: Db, ids: seq<Id>, env: Id, expected: Digest, edit: Edit, requests: seq<Request>, items: seq<Item>, rows: seq<Variable>)
    requires Inv(db) && EditShaped(db, ids, env, expected, edit, requests, items, rows)
    ensures var after := EditTransaction(db, ids, env, expected, edit); Steady(db, if after.Ok? then after.value else db)
  {
    hide Inv, Grows, EditTransaction, EditShaped;
    OneTransaction(db, EditOp(ids, env, expected, edit, requests, items, rows));
  }

  lemma SaveFails(db: Db, id: Id, row: Request)
    requires id in db.requests && !SaveRequest(db, id, row, "APPLY_REQUEST").Ok?
    ensures SaveRequest(db, id, row, "APPLY_REQUEST") == Err(Constraint)
  {
    hide RequestAllowed, TransitionAllowed;
  }
}
