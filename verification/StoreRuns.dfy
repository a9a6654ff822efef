/** Creation, corrections, direct writes, rotation steps; then every interleaving. */
module StoreRuns {
  import opened Text
  import opened Crypto
  import opened Model
  import opened Fingerprint
  import opened Store
  import opened StoreProofs

  // ----- a new request with its items

  predicate Inserted(a: Db, b: Db, items: seq<Item>) {
    && b == a.(items := b.items)
    && (forall id :: id in a.items ==> id in b.items && b.items[id] == a.items[id])
    && (forall id :: id in b.items && id !in a.items ==> exists k :: 0 <= k < |items| && items[k] == b.items[id] && items[k].id == id)
    && (forall k :: 0 <= k < |items| ==> items[k].id in b.items && items[k].id !in a.items && b.items[items[k].id] == items[k] && ItemAllowed(items[k]))
  }

  lemma {:induction false} InsertItemsInserts(db: Db, items: seq<Item>)
    requires InsertItems(db, items).Some?
    ensures Inserted(db, InsertItems(db, items).value, items)
    decreases |items|
  {
    hide ItemInsertable, Inserted;
    if items == [] {
      NoneInserted(db);
    } else {
      var mid := db.(items := db.items[items[0].id := items[0]]);
      InsertItemsInserts(mid, items[1..]);
      assert items[0].id !in db.items && ItemAllowed(items[0]) by { InsertableParts(db, items[0]); }
      InsertedOneMore(db, mid, InsertItems(db, items).value, items);
    }
  }

  lemma NoneInserted(db: Db)
    ensures Inserted(db, db, [])
  {
  }

  lemma InsertableParts(db: Db, item: Item)
    requires ItemInsertable(db, item)
    ensures item.id !in db.items && ItemAllowed(item)
  {
    hide ItemAllowed, ItemInScope;
  }

  lemma InsertedOneMore(db: Db, mid: Db, b: Db, items: seq<Item>)
    requires items != [] && items[0].id !in db.items && ItemAllowed(items[0])
    requires mid == db.(items := db.items[items[0].id := items[0]]) && Inserted(mid, b, items[1..])
    ensures Inserted(db, b, items)
  {
    hide ItemAllowed;
    assert b.items[items[0].id] == items[0];
    forall id | id in b.items && id !in db.items
      ensures exists k :: 0 <= k < |items| && items[k] == b.items[id] && items[k].id == id
    {
      if id !in mid.items {
        var k :| 0 <= k < |items[1..]| && items[1..][k] == b.items[id] && items[1..][k].id == id;
        assert items[k + 1] == b.items[id];
      }
    }
    forall k | 0 <= k < |items|
      ensures items[k].id in b.items && items[k].id !in db.items && b.items[items[k].id] == items[k] && ItemAllowed(items[k])
    {
      if k > 0 { assert items[k] == items[1..][k - 1]; }
    }
  }

  lemma NewItemsRequest(a: Db, b: Db, items: seq<Item>, id: Id)
    requires Inserted(a, b, items) && forall k :: 0 <= k < |items| ==> items[k].request == id
    ensures forall i :: i in b.items && b.items[i].request != id ==> i in a.items && a.items[i] == b.items[i]
    ensures forall i :: i in b.items && i !in a.items ==> b.items[i].id == i && b.items[i].request == id
  {
    hide ItemAllowed;
    forall i | i in b.items && i !in a.items ensures b.items[i].id == i && b.items[i].request == id {
      var k :| 0 <= k < |items| && items[k] == b.items[i] && items[k].id == i;
    }
  }

  lemma NewMissing(a: Db, b: Db, items: seq<Item>, id: Id)
    requires IdsHold(a) && Inserted(a.(requests := b.requests), b, items)
    requires id !in a.requests && forall k :: 0 <= k < |items| ==> items[k].request == id
    ensures Missing(b, id) <==> AnyNeedsValue(items)
    ensures forall x :: x != id ==> (Missing(b, x) <==> Missing(a, x))
  {
    hide NeedsValue, ItemAllowed;
    if Missing(b, id) {
      var i :| i in b.items && b.items[i].request == id && NeedsValue(b.items[i]);
      assert i !in a.items;
      var k :| 0 <= k < |items| && items[k] == b.items[i] && items[k].id == i;
    }
    if AnyNeedsValue(items) {
      var k :| 0 <= k < |items| && NeedsValue(items[k]);
      assert b.items[items[k].id] == items[k];
    }
    NewItemsRequest(a.(requests := b.requests), b, items, id);
    forall x | x != id ensures Missing(b, x) <==> Missing(a, x) { OldMissing(a, b, x); }
  }

  lemma OldMissing(a: Db, b: Db, x: Id)
    requires forall i :: i in b.items && b.items[i].request == x ==> i in a.items && a.items[i] == b.items[i]
    requires forall i :: i in a.items ==> i in b.items && b.items[i] == a.items[i]
    ensures Missing(b, x) <==> Missing(a, x)
  {
    hide NeedsValue;
    if Missing(b, x) {
      var i :| i in b.items && b.items[i].request == x && NeedsValue(b.items[i]);
      assert i in a.items && a.items[i] == b.items[i];
    }
    if Missing(a, x) {
      var i :| i in a.items && a.items[i].request == x && NeedsValue(a.items[i]);
      assert b.items[i] == a.items[i];
    }
  }

  lemma NewRequestStatuses(a: Db, b: Db, r: Request, items: seq<Item>)
    requires IdsHold(a) && StatusesHold(a) && r.id !in a.requests
    requires b == a.(requests := a.requests[r.id := r], items := b.items)
    requires Inserted(a.(requests := b.requests), b, items)
    requires forall k :: 0 <= k < |items| ==> items[k].request == r.id
    requires RequestAllowed(r) && r.status == StatusOf(r.rejected, r.applied, r.approved, AnyNeedsValue(items))
    ensures StatusesHold(b)
  {
    hide StatusOf, RequestAllowed, Missing, Inserted, IdsHold, AnyNeedsValue;
    NewMissing(a, b, items, r.id);
    forall x | x in b.requests
      ensures var q := b.requests[x]; q.status == StatusOf(q.rejected, q.applied, q.approved, Missing(b, x)) && RequestAllowed(q)
    {
      if x != r.id { assert b.requests[x] == a.requests[x]; }
    }
  }

  lemma NewRequestReadable(a: Db, b: Db, r: Request, items: seq<Item>)
    requires IdsHold(a) && Readable(a) && r.id !in a.requests
    requires b == a.(requests := a.requests[r.id := r], items := b.items)
    requires Inserted(a.(requests := b.requests), b, items)
    requires forall k :: 0 <= k < |items| ==> items[k].request == r.id && ProposalSealed(a, r.env, items[k])
    ensures Readable(b)
  {
    hide Reveal, DekByVersion, RowReadable, HistoryReadable, ItemAllowed;
    SameKeysReveal(a, b);
    RowsStayReadable(a, b);
    forall id | id in b.items ensures ItemReadable(b, b.items[id]) {
      if id in a.items {
        assert ItemReadable(a, a.items[id]) && b.items[id] == a.items[id];
      } else {
        var k :| 0 <= k < |items| && items[k] == b.items[id] && items[k].id == id;
        assert ProposalSealed(a, r.env, items[k]);
      }
    }
  }

  lemma NewRequestGrows(a: Db, b: Db, r: Request, items: seq<Item>)
    requires IdsHold(a) && r.id !in a.requests && r.env in a.envs
    requires b == a.(requests := a.requests[r.id := r], items := b.items)
    requires Inserted(a.(requests := b.requests), b, items)
    requires forall k :: 0 <= k < |items| ==> items[k].request == r.id
    ensures IdsHold(b) && Grows(a, b)
  {
    hide Inserted, Grows, RequestGrows, ItemGrows;
    NewItemsRequest(a.(requests := b.requests), b, items, r.id);
    OldItemsKept(a, b, items);
    NewRequestTables(a, b, r);
  }

  lemma OldItemsKept(a: Db, b: Db, items: seq<Item>)
    requires Inserted(a.(requests := b.requests), b, items)
    ensures forall i :: i in a.items ==> i in b.items && b.items[i] == a.items[i]
  {
    hide ItemAllowed;
  }

  lemma NewRequestTables(a: Db, b: Db, r: Request)
    requires IdsHold(a) && r.id !in a.requests
    requires b == a.(requests := a.requests[r.id := r], items := b.items)
    requires forall i :: i in b.items && i !in a.items ==> b.items[i].id == i && b.items[i].request == r.id
    requires forall i :: i in a.items ==> i in b.items && b.items[i] == a.items[i]
    ensures Grows(a, b)
  {
    hide VariableGrows;
    SameVariablesGrow(a, b);
  }

  lemma NewRequestItems(a: Db, b: Db, items: seq<Item>)
    requires ItemsHold(a) && Inserted(a.(requests := b.requests), b, items)
    ensures ItemsHold(b)
  {
    hide ItemAllowed;
    forall id | id in b.items ensures ItemAllowed(b.items[id]) {
      if id in a.items {
        assert b.items[id] == a.items[id];
      } else {
        var k :| 0 <= k < |items| && items[k] == b.items[id] && items[k].id == id;
      }
    }
  }

  /** A request inserted together with its items. */
  lemma NewRequestKeeps(a: Db, b: Db, r: Request, items: seq<Item>)
    requires Inv(a) && r.id !in a.requests && r.env in a.envs
    requires InsertItems(a.(requests := a.requests[r.id := r]), items) == Some(b)
    requires forall k :: 0 <= k < |items| ==> items[k].request == r.id && ProposalSealed(a, r.env, items[k])
    requires RequestAllowed(r) && r.status == StatusOf(r.rejected, r.applied, r.approved, AnyNeedsValue(items))
    ensures Inv(b) && Grows(a, b) && b == a.(requests := a.requests[r.id := r], items := b.items)
  {
    hide IdsHold, KeysUnique, HistoryComplete, StatusesHold, ItemsHold, Readable, Grows, StatusOf, RequestAllowed, ProposalSealed;
    hide AnyNeedsValue, InsertItems;
    var mid := a.(requests := a.requests[r.id := r]);
    InsertItemsInserts(mid, items);
    assert b == a.(requests := b.requests, items := b.items) && Inserted(a.(requests := b.requests), b, items) by {
      InsertedTables(mid, b, items);
    }
    VersionTablesOf(a, b);
    NewRequestStatuses(a, b, r, items);
    NewRequestReadable(a, b, r, items);
    NewRequestGrows(a, b, r, items);
    NewRequestItems(a, b, items);
  }

  lemma InsertedTables(a: Db, b: Db, items: seq<Item>)
    requires Inserted(a, b, items)
    ensures b == a.(items := b.items)
  {
  }

  lemma AuditedKeeps(a: Db, b: Db)
    requires Inv(a) && b == a.(audit := b.audit)
    ensures Inv(b) && Grows(a, b)
  {
    hide IdsHold, KeysUnique, HistoryComplete, StatusesHold, ItemsHold, Readable, Grows;
    SameVersionTables(a, b);
    AuditedIds(a, b);
    SameRequestsStatuses(a, b);
    assert Readable(b) by { AuditedReadable(a, b); }
  }

  lemma AuditedIds(a: Db, b: Db)
    requires IdsHold(a) && b == a.(audit := b.audit)
    ensures IdsHold(b) && Grows(a, b)
  {
  }

  lemma AuditedReadable(a: Db, b: Db)
    requires Readable(a) && b == a.(audit := b.audit)
    ensures Readable(b)
  {
    hide RowReadable, HistoryReadable, ItemReadable, DekByVersion;
    RowsStayReadable(a, b);
    ItemsStayReadable(a, b);
  }

  lemma CreateKeeps(db: Db, id: Id, env: Id, items: seq<Item>)
    requires Inv(db) && Create(db, id, env, items).Ok?
    requires forall i :: 0 <= i < |items| ==> ItemShaped(db, id, env, items[i])
    ensures Inv(Create(db, id, env, items).value) && Grows(db, Create(db, id, env, items).value)
  {
    hide Inv, Grows, InsertItems, AnyNeedsValue, ProposalSealed;
    var r := NewRequest(id, env, items);
    var b := InsertItems(db.(requests := db.requests[id := r]), items).value;
    NewRequestKeeps(db, b, r, items);
    AuditedKeeps(b, Create(db, id, env, items).value);
    GrowsTransitive(db, b, Create(db, id, env, items).value);
  }

  // ----- direct writes

  lemma DirectKeeps(db: Db, d: Direct)
    requires Inv(db) && DirectShaped(db, d) && PersistDirect(db, d).Ok?
    ensures Inv(PersistDirect(db, d).value) && Grows(db, PersistDirect(db, d).value)
    ensures var b := PersistDirect(db, d).value; b.keys == db.keys && b.envs == db.envs && b.active == db.active
  {
    hide Inv, Grows, InsertItems, WriteVersion, ProposalSealed, WriteSealed, WriteShaped;
    var w := d.write;
    var r, items := DirectRequest(w), [DirectItem(d)];
    var b := InsertItems(db.(requests := db.requests[w.request := r]), items).value;
    NewRequestKeeps(db, b, r, items);
    StillSealed(db, b, w);
    var c := WriteVersion(b, w).value;
    WriteKeeps(b, w);
    GrowsTransitive(db, b, c);
    AuditedKeeps(c, PersistDirect(db, d).value);
    GrowsTransitive(db, c, PersistDirect(db, d).value);
  }

  lemma StillShaped(a: Db, b: Db, d: Direct)
    requires DirectShaped(a, d) && a.keys == b.keys && a.envs == b.envs
    ensures DirectShaped(b, d)
  {
    hide WriteShaped;
    StillSealed(a, b, d.write);
  }

  lemma {:induction false} DirectsKeep(db: Db, directs: seq<Direct>)
    requires Inv(db) && (forall i :: 0 <= i < |directs| ==> DirectShaped(db, directs[i])) && PersistDirects(db, directs).Ok?
    ensures Inv(PersistDirects(db, directs).value) && Grows(db, PersistDirects(db, directs).value)
    decreases |directs|
  {
    hide Inv, Grows, PersistDirect, DirectShaped;
    if directs == [] {
      InvGrows(db);
    } else {
      DirectKeeps(db, directs[0]);
      var b := PersistDirect(db, directs[0]).value;
      forall i | 0 <= i < |directs[1..]| ensures DirectShaped(b, directs[1..][i]) {
        StillShaped(db, b, directs[i + 1]);
      }
      DirectsKeep(b, directs[1..]);
      GrowsTransitive(db, b, PersistDirects(db, directs).value);
    }
  }

  lemma ImportKeeps(db: Db, env: Id, directs: seq<Direct>)
    requires Inv(db) && (forall i :: 0 <= i < |directs| ==> DirectShaped(db, directs[i])) && PersistImport(db, env, directs).Ok?
    ensures Inv(PersistImport(db, env, directs).value) && Grows(db, PersistImport(db, env, directs).value)
  {
    hide Inv, Grows, PersistDirects, DirectShaped;
    DirectsKeep(db, directs);
    var b := PersistDirects(db, directs).value;
    AuditedKeeps(b, PersistImport(db, env, directs).value);
    GrowsTransitive(db, b, PersistImport(db, env, directs).value);
  }

  // ----- corrections

  lemma {:induction false} LoadedItems(db: Db, ids: seq<Id>)
    requires IdsHold(db)
    ensures forall k :: 0 <= k < |LoadItems(db, ids)| ==>
              var item := LoadItems(db, ids)[k];
              item.id in db.items && db.items[item.id] == item && item.request in ids
  {
    if ids != [] {
      LoadedItems(db, ids[1..]);
      var keys := RequestKeys(db, ids[0]);
      RequestItemIds(db, ids[0]);
      OrderedIdsComplete(keys);
      forall k | 0 <= k < |ItemsOf(db, ids[0])|
        ensures var item := ItemsOf(db, ids[0])[k]; item.id in db.items && db.items[item.id] == item && item.request == ids[0]
      {
        assert OrderedIds(keys)[k] in keys;
      }
    }
  }

  /** The digest says that the item a correction was prepared from is still the stored one. */
  lemma EditedIsCurrent(
    db: Db, ids: seq<Id>, env: Id, expected: Digest, edit: Edit, requests: seq<Request>, items: seq<Item>, rows: seq<Variable>)
    requires IdsHold(db) && EditShaped(db, ids, env, expected, edit, requests, items, rows)
    requires EditAllowed(db, ids, env, expected, edit)
    ensures edit.item.id in db.items && ViewItem(db.items[edit.item.id]) == ViewItem(edit.item)
    ensures edit.item.request in db.requests && db.requests[edit.item.request].status == READY_TO_APPLY
  {
    hide ViewItem, ProposalSealed, CurrentRows, Next, SelectionDigest;
    var current := LoadRequests(db, ids).value;
    var loaded := LoadItems(db, ids);
    DigestTellsSelection(requests, items, rows, current, loaded, CurrentRows(db, env));
    var k :| 0 <= k < |items| && items[k] == edit.item;
    LoadedItems(db, ids);
    assert ViewItems(items)[k] == ViewItem(items[k]) && ViewItems(loaded)[k] == ViewItem(loaded[k]);
    ViewTells(items[k], loaded[k]);
    var j :| 0 <= j < |current| && current[j].id == loaded[k].request;
  }

  lemma ViewTells(a: Item, b: Item)
    requires ViewItem(a) == ViewItem(b)
    ensures a.id == b.id && a.request == b.request && a.action == b.action && a.revision == b.revision && a.key == b.key
    ensures a.base == b.base && a.source == b.source && Unblank(a.variable) == Unblank(b.variable)
  {
  }

  lemma EditKeeps(
    db: Db, ids: seq<Id>, env: Id, expected: Digest, edit: Edit, requests: seq<Request>, items: seq<Item>, rows: seq<Variable>)
    requires Inv(db) && EditShaped(db, ids, env, expected, edit, requests, items, rows)
    requires EditTransaction(db, ids, env, expected, edit).Ok?
    ensures Inv(EditTransaction(db, ids, env, expected, edit).value)
    ensures Grows(db, EditTransaction(db, ids, env, expected, edit).value)
  {
    hide Inv, Grows, EditAllowed, Missing, HasItems, Reveal, SelectionDigest, ViewItem, ItemInScope;
    if edit.same {
      InvGrows(db);
    } else {
      InvIds(db);
      EditedIsCurrent(db, ids, env, expected, edit, requests, items, rows);
      var before := db.items[edit.item.id];
      ViewTells(before, edit.item);
      ItemOfRow(db, edit.item.id);
      StatusOfRow(db, edit.item.request);
      var item := EditedItem(before, edit, Next(edit.item.revision).value);
      var mid := db.(items := db.items[edit.item.id := item]);
      var b := EditTransaction(db, ids, env, expected, edit).value;
      MissingFrame(mid, b, edit.item.request);
      SameContext(db, env, item, edit.item.(proposed := Some(edit.sealed), revision := item.revision));
      ItemRowKeeps(db, b, edit.item.id, item, b.requests[edit.item.request]);
    }
  }

  lemma InvIds(db: Db)
    requires Inv(db)
    ensures IdsHold(db) && KeysUnique(db) && HistoryComplete(db) && StatusesHold(db) && ItemsHold(db) && Readable(db)
  {
    hide IdsHold, KeysUnique, HistoryComplete, StatusesHold, ItemsHold, Readable;
  }

  // ----- environments, archiving, rotation

  lemma EnvironmentKeeps(db: Db, env: Id, service: Id, key: Key)
    requires Inv(db) && CreateEnvironment(db, env, service, key).Ok?
    ensures var b := CreateEnvironment(db, env, service, key).value; Inv(b) && Grows(db, b)
  {
    hide IdsHold, KeysUnique, HistoryComplete, StatusesHold, ItemsHold, Readable, Grows;
    var b := CreateEnvironment(db, env, service, key).value;
    SameVersionTables(db, b);
    SameRequestsStatuses(db, b);
    NewEnvironmentIds(db, b, env);
    NewEnvironmentGrows(db, b, env);
    assert Readable(b) by { NewEnvironmentReadable(db, b, env); }
  }

  lemma NewEnvironmentIds(a: Db, b: Db, env: Id)
    requires IdsHold(a) && env !in a.envs && (env, 1) !in a.keys
    requires b == a.(envs := b.envs, keys := b.keys, active := b.active, audit := b.audit)
    requires env in b.envs && b.envs == a.envs[env := b.envs[env]]
    requires (env, 1) in b.keys && b.keys == a.keys[(env, 1) := b.keys[(env, 1)]]
    ensures IdsHold(b)
  {
  }

  lemma NewEnvironmentGrows(a: Db, b: Db, env: Id)
    requires env !in a.envs && (env, 1) !in a.keys
    requires b == a.(envs := b.envs, keys := b.keys, active := b.active, audit := b.audit)
    requires env in b.envs && b.envs == a.envs[env := b.envs[env]]
    requires (env, 1) in b.keys && b.keys == a.keys[(env, 1) := b.keys[(env, 1)]]
    ensures Grows(a, b)
  {
  }

  lemma NewEnvironmentReadable(a: Db, b: Db, env: Id)
    requires Readable(a) && env !in a.envs && (env, 1) !in a.keys
    requires b == a.(envs := b.envs, keys := b.keys, active := b.active, audit := b.audit)
    requires env in b.envs && b.envs == a.envs[env := b.envs[env]] && b.active == a.active[env := 1]
    requires (env, 1) in b.keys && b.keys == a.keys[(env, 1) := b.keys[(env, 1)]] && !b.keys[(env, 1)].destroyed
    ensures Readable(b)
  {
    hide Reveal;
    forall e, sealed, context | Reveal(a, e, sealed, context).Some? ensures Reveal(b, e, sealed, context).Some? {
      RevealWithMoreKeys(a, b, env, e, sealed, context);
    }
    forall id | id in b.vars ensures RowReadable(b, b.vars[id]) { assert RowReadable(a, a.vars[id]); }
    forall k | k in b.history ensures HistoryReadable(b, b.history[k]) { assert HistoryReadable(a, a.history[k]); }
    forall id | id in b.items ensures ItemReadable(b, b.items[id]) { assert ItemReadable(a, a.items[id]); }
  }

  lemma RevealWithMoreKeys(a: Db, b: Db, env: Id, e: Id, sealed: Sealed, context: Context)
    requires (env, 1) !in a.keys && (env, 1) in b.keys && b.keys == a.keys[(env, 1) := b.keys[(env, 1)]]
    requires Reveal(a, e, sealed, context).Some?
    ensures Reveal(b, e, sealed, context).Some?
  {
    hide Open;
  }

  lemma ArchiveKeeps(db: Db, env: Id, archived: bool, serviceArchived: bool)
    requires Inv(db) && env in db.envs
    ensures var b := SetArchived(db, env, archived, serviceArchived).value; Inv(b) && Grows(db, b)
  {
    hide IdsHold, KeysUnique, HistoryComplete, StatusesHold, ItemsHold, Readable, Grows;
    var b := SetArchived(db, env, archived, serviceArchived).value;
    SameVersionTables(db, b);
    SameRequestsStatuses(db, b);
    ArchivedIds(db, b);
    assert Readable(b) by { ArchivedReadable(db, b); }
  }

  lemma ArchivedIds(a: Db, b: Db)
    requires IdsHold(a) && b == a.(envs := b.envs) && b.envs.Keys == a.envs.Keys
    requires forall e :: e in a.envs ==> b.envs[e].service == a.envs[e].service
    ensures IdsHold(b) && Grows(a, b)
  {
  }

  lemma ArchivedReadable(a: Db, b: Db)
    requires Readable(a) && b == a.(envs := b.envs) && b.envs.Keys == a.envs.Keys
    requires forall e :: e in a.envs ==> b.envs[e].service == a.envs[e].service
    ensures Readable(b)
  {
    hide Reveal, DekByVersion;
    SameKeysReveal(a, b);
    forall id | id in b.vars ensures RowReadable(b, b.vars[id]) { assert RowReadable(a, a.vars[id]); }
    forall k | k in b.history ensures HistoryReadable(b, b.history[k]) { assert HistoryReadable(a, a.history[k]); }
    forall id | id in b.items ensures ItemReadable(b, b.items[id]) { assert ItemReadable(a, a.items[id]); }
  }

  lemma RekeyKeeps(a: Db, b: Db)
    requires Inv(a) && Rekeyed(a, b)
    ensures Inv(b) && Grows(a, b)
  {
    hide Rekeyed, IdsHold, KeysUnique, HistoryComplete, StatusesHold, ItemsHold, Readable, Grows;
    RekeyParts(a, b);
    RekeyIds(a, b);
    RekeyHistory(a, b);
    RekeyStatuses(a, b);
    RekeyGrows(a, b);
  }

  /** Each table of a rekeyed database. */
  predicate RowsRekeyed(a: Db, b: Db) {
    b.vars.Keys == a.vars.Keys &&
    forall id :: id in a.vars ==>
      b.vars[id] == a.vars[id].(sealed := b.vars[id].sealed) && SamePlain(a.vars[id].sealed, b.vars[id].sealed)
  }

  predicate HistoryRekeyed(a: Db, b: Db) {
    b.history.Keys == a.history.Keys &&
    forall k :: k in a.history ==>
      b.history[k] == a.history[k].(sealed := b.history[k].sealed) && SamePlain(a.history[k].sealed, b.history[k].sealed)
  }

  predicate ItemsRekeyed(a: Db, b: Db) {
    b.items.Keys == a.items.Keys &&
    forall id :: id in a.items ==>
      b.items[id] == a.items[id].(proposed := b.items[id].proposed) && SameProposal(a.items[id].proposed, b.items[id].proposed)
  }

  lemma RekeyParts(a: Db, b: Db)
    requires Rekeyed(a, b)
    ensures RowsRekeyed(a, b) && HistoryRekeyed(a, b) && ItemsRekeyed(a, b)
    ensures b.envs == a.envs && b.requests == a.requests && KeysGrow(a, b) && Readable(b)
  {
    hide KeysGrow, Readable, SamePlain, SameProposal;
  }

  lemma RekeyIds(a: Db, b: Db)
    requires IdsHold(a) && KeysUnique(a) && RowsRekeyed(a, b) && ItemsRekeyed(a, b)
    requires b.envs == a.envs && b.requests == a.requests
    ensures IdsHold(b) && KeysUnique(b)
  {
    hide SamePlain, SameProposal;
    assert forall id :: id in b.vars ==> id in a.vars && b.vars[id].id == a.vars[id].id && b.vars[id].env == a.vars[id].env
                                         && b.vars[id].key == a.vars[id].key;
    assert forall id :: id in b.items ==> id in a.items && b.items[id].id == a.items[id].id
                                          && b.items[id].request == a.items[id].request;
  }

  lemma RekeyGrows(a: Db, b: Db)
    requires RowsRekeyed(a, b) && ItemsRekeyed(a, b) && KeysGrow(a, b) && b.envs == a.envs && b.requests == a.requests
    ensures Grows(a, b)
  {
    hide SamePlain, SameProposal, KeysGrow;
  }

  lemma RekeyStatuses(a: Db, b: Db)
    requires StatusesHold(a) && ItemsHold(a) && ItemsRekeyed(a, b) && b.requests == a.requests
    ensures StatusesHold(b) && ItemsHold(b)
  {
    hide StatusOf, RequestAllowed, Missing, SamePlain;
    RekeyMissing(a, b);
    forall id | id in b.items ensures ItemAllowed(b.items[id]) { assert ItemAllowed(a.items[id]); }
  }

  lemma RekeyHistory(a: Db, b: Db)
    requires HistoryComplete(a) && RowsRekeyed(a, b) && HistoryRekeyed(a, b)
    ensures HistoryComplete(b)
  {
    hide SamePlain;
    forall id, n: Count ensures (id, n) in b.history <==> id in b.vars && 1 <= n <= b.vars[id].version {
      assert (id, n) in b.history <==> (id, n) in a.history;
      assert id in b.vars <==> id in a.vars;
    }
    forall id, n: Count | (id, n) in b.history
      ensures var h := b.history[(id, n)]; h.variable == id && h.version == n && id in b.vars && h.env == b.vars[id].env
    {
      assert (id, n) in a.history;
    }
    forall id | id in b.vars && (id, b.vars[id].version) in b.history
      ensures var h := b.history[(id, b.vars[id].version)];
              h.meta == b.vars[id].meta && h.lifecycle == b.vars[id].lifecycle && SamePlain(h.sealed, b.vars[id].sealed)
    {
      RekeyNewest(a, b, id);
    }
  }

  lemma RekeyNewest(a: Db, b: Db, id: Id)
    requires RowsRekeyed(a, b) && HistoryRekeyed(a, b) && id in a.vars && (id, a.vars[id].version) in a.history
    requires var h := a.history[(id, a.vars[id].version)];
             h.meta == a.vars[id].meta && h.lifecycle == a.vars[id].lifecycle && SamePlain(h.sealed, a.vars[id].sealed)
    ensures b.vars[id].version == a.vars[id].version
    ensures var h := b.history[(id, b.vars[id].version)];
            h.meta == b.vars[id].meta && h.lifecycle == b.vars[id].lifecycle && SamePlain(h.sealed, b.vars[id].sealed)
  {
  }

  lemma RekeyMissing(a: Db, b: Db)
    requires ItemsRekeyed(a, b)
    ensures forall id :: Missing(a, id) <==> Missing(b, id)
  {
    hide SamePlain;
    forall id ensures Missing(a, id) <==> Missing(b, id) {
      if Missing(a, id) {
        var x :| x in a.items && a.items[x].request == id && NeedsValue(a.items[x]);
        assert NeedsValue(b.items[x]) && b.items[x].request == id;
      }
      if Missing(b, id) {
        var x :| x in b.items && b.items[x].request == id && NeedsValue(b.items[x]);
        assert x in a.items && NeedsValue(a.items[x]) && a.items[x].request == id;
      }
    }
  }

  // ----- every interleaving

  /** One transaction keeps the invariants and only grows. */
  lemma OneTransaction(db: Db, op: Op)
    requires Inv(db)
    ensures Inv(Run1(db, op)) && Grows(db, Run1(db, op))
  {
    hide Inv, Grows, Create, Fulfill, Approve, Reject, StorePreview, EditTransaction, ApplyTransaction, PersistDirect, PersistImport, CreateEnvironment, Rekeyed;
    hide ItemShaped, FulfillShaped, EditShaped, WritesShaped, DirectShaped;
    if !Shaped(db, op) || Commit(db, op).Err? {
      InvGrows(db);
    } else {
      match op {
        case CreateOp(id, env, items) => CreateKeeps(db, id, env, items);
        case FulfillOp(read, sealed) => FulfillKeeps(db, read, sealed);
        case ApproveOp(id) => ApproveKeeps(db, id);
        case RejectOp(id) => RejectKeeps(db, id);
        case PreviewOp(seen, digest) => PreviewKeeps(db, seen, digest);
        case EditOp(ids, env, expected, edit, requests, items, rows) =>
          EditKeeps(db, ids, env, expected, edit, requests, items, rows);
        case ApplyOp(ids, env, expected, writes) => ApplyKeeps(db, ids, env, expected, writes);
        case DirectOp(direct) => DirectKeeps(db, direct);
        case ImportOp(env, directs) => ImportKeeps(db, env, directs);
        case EnvironmentOp(env, service, key) => EnvironmentKeeps(db, env, service, key);
        case ArchiveOp(env, archived, serviceArchived) => ArchiveKeeps(db, env, archived, serviceArchived);
        case RekeyOp(after) => RekeyKeeps(db, after);
      }
    }
  }

  /**
   * Over every interleaving of create, fulfill, approve, reject, preview, edit, apply, direct records,
   * direct deletes, imports, archiving and key rotation the invariants hold, and rows, items and requests only grow.
   */
  lemma {:induction false} EveryRun(db: Db, ops: seq<Op>)
    requires Inv(db)
    ensures Inv(Run(db, ops)) && Grows(db, Run(db, ops))
    decreases |ops|
  {
    hide Inv, Grows, Run1;
    if ops == [] {
      InvGrows(db);
    } else {
      OneTransaction(db, ops[0]);
      EveryRun(Run1(db, ops[0]), ops[1..]);
      GrowsTransitive(db, Run1(db, ops[0]), Run(db, ops));
    }
  }

  // ----- what the theorem says of one request, one variable

  /**
   * In every interleaving the status of a request is a function of its other columns and of its missing
   * values, its revision never falls, and REJECTED and APPLIED are final.
   */
  lemma StatusOverRuns(db: Db, ops: seq<Op>, id: Id)
    requires Inv(db) && id in db.requests
    ensures var after := Run(db, ops);
            id in after.requests
            && var r, r' := db.requests[id], after.requests[id];
            && r'.status == StatusOf(r'.rejected, r'.applied, r'.approved, Missing(after, id))
            && r.revision <= r'.revision
            && (r.status == REJECTED || r.status == APPLIED ==> r' == r)
  {
    hide Run, StatusOf, Missing;
    EveryRun(db, ops);
    StatusOfRow(Run(db, ops), id);
    RequestLater(db, Run(db, ops), id);
  }

  lemma RequestLater(a: Db, b: Db, id: Id)
    requires Grows(a, b) && id in a.requests
    ensures id in b.requests && RequestGrows(a.requests[id], b.requests[id])
  {
    hide VariableGrows, ItemGrows, KeysGrow;
  }

  /** The transaction of a fulfilment that read an open request fails once the request is rejected. */
  lemma FulfilAfterRejection(db: Db, read: Item, sealed: Sealed)
    requires Inv(db) && read.request in db.requests && db.requests[read.request].status == REJECTED
    ensures Fulfill(db, read, sealed).Err? && Run1(db, FulfillOp(read, sealed)) == db
  {
    hide Inv, Missing, HasItems, FulfillShaped, ItemInScope;
    StatusOfRow(db, read.request);
  }

  /** Over every run the history of a variable is 1..n, n its current version, and its newest row is the current row. */
  lemma HistoryOverRuns(db: Db, ops: seq<Op>, id: Id)
    requires Inv(db) && id in db.vars
    ensures var after := Run(db, ops);
            id in after.vars
            && var row := after.vars[id];
            && db.vars[id].version <= row.version
            && (forall n: Count :: (id, n) in after.history <==> 1 <= n <= row.version)
            && var h := after.history[(id, row.version)];
            h.meta == row.meta && h.lifecycle == row.lifecycle && h.sealed.blob.plain == row.sealed.blob.plain
  {
    hide Run, Inv, Grows;
    EveryRun(db, ops);
    VariableLater(db, Run(db, ops), id);
    NewestHistory(Run(db, ops), id);
  }

  lemma VariableLater(a: Db, b: Db, id: Id)
    requires Grows(a, b) && id in a.vars
    ensures id in b.vars && VariableGrows(a.vars[id], b.vars[id])
  {
    hide RequestGrows, ItemGrows, KeysGrow;
  }

  lemma NewestHistory(db: Db, id: Id)
    requires Inv(db) && id in db.vars
    ensures var row := db.vars[id];
      && (forall n: Count :: (id, n) in db.history <==> 1 <= n <= row.version)
      && (id, row.version) in db.history
      && var h := db.history[(id, row.version)];
      h.meta == row.meta && h.lifecycle == row.lifecycle && SamePlain(h.sealed, row.sealed)
  {
    hide IdsHold, KeysUnique, StatusesHold, ItemsHold, Readable;
    var row := db.vars[id];
    assert row.version >= 1;
    assert (id, row.version) in db.history;
  }

  /** A direct writer whose variable was changed, revived, deleted or created meanwhile changes nothing. */
  lemma StaleWriterChangesNothing(db: Db, d: Direct)
    requires IdsHold(db)
    requires match d.write.expected
             case Some(version) =>
               d.write.variable in db.vars && (db.vars[d.write.variable].version != version || db.vars[d.write.variable].lifecycle != d.write.from)
             case None => KeyTaken(db, d.write.env, d.write.key)
    ensures Run1(db, DirectOp(d)) == db
  {
    hide IdsHold, KeyTaken, DirectShaped, ItemInsertable;
    var w := d.write;
    if PersistDirect(db, d).Ok? {
      var db1 := db.(requests := db.requests[w.request := DirectRequest(w)]);
      var db2 := InsertItems(db1, [DirectItem(d)]).value;
      InsertItemsInserts(db1, [DirectItem(d)]);
      InsertedTables(db1, db2, [DirectItem(d)]);
      SameKeysTaken(db, db2, w.env, w.key);
    }
  }

  lemma SameKeysTaken(a: Db, b: Db, env: Id, key: Name)
    requires a.vars == b.vars
    ensures KeyTaken(a, env, key) == KeyTaken(b, env, key)
  {
  }

  /** An empty database satisfies the invariants, so runs have somewhere to start. */
  lemma EmptyHolds()
    ensures Inv(Db(map[], map[], map[], map[], map[], map[], map[], []))
  {
  }
}
