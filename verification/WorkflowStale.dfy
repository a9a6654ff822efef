/** What a matching fingerprint says of data that was read before the transaction. */
module WorkflowStale {
  import opened Text
  import opened Crypto
  import opened Model
  import opened Fingerprint
  import opened Store
  import opened StoreProofs
  import opened StoreRuns
  import opened Workflow

  predicate SameRow(a: Variable, b: Variable) { b == a.(sealed := b.sealed) && SamePlain(a.sealed, b.sealed) }

  predicate SameItem(a: Item, b: Item) { b == a.(proposed := b.proposed) && SameProposal(a.proposed, b.proposed) }

  predicate SameRows(a: seq<Variable>, b: seq<Variable>) { |a| == |b| && forall i :: 0 <= i < |a| ==> SameRow(a[i], b[i]) }

  predicate SameItems(a: seq<Item>, b: seq<Item>) { |a| == |b| && forall i :: 0 <= i < |a| ==> SameItem(a[i], b[i]) }

  // ----- rows

  /** Which variables an environment has, as its rows list them. */
  lemma RowsAreVariables(db: Db, env: Id)
    requires IdsHold(db)
    ensures var ids := OrderedIds(EnvironmentKeys(db, env));
      && |CurrentRows(db, env)| == |ids|
      && forall i :: 0 <= i < |ids| ==>
           ids[i] in db.vars && CurrentRows(db, env)[i] == db.vars[ids[i]] && CurrentRows(db, env)[i].id == ids[i]
           && CurrentRows(db, env)[i].env == env
  {
    hide OrderedIds;
    EnvironmentIds(db, env);
    OrderedIdsComplete(EnvironmentKeys(db, env));
    var ids := OrderedIds(EnvironmentKeys(db, env));
    forall i | 0 <= i < |ids| ensures ids[i] in EnvironmentKeys(db, env) { assert ids[i] in ids; }
  }

  lemma RowOfVariable(db: Db, env: Id, id: Id) returns (i: nat)
    requires IdsHold(db) && id in EnvironmentKeys(db, env)
    ensures i < |CurrentRows(db, env)| && CurrentRows(db, env)[i] == db.vars[id] && db.vars[id].id == id
  {
    hide OrderedIds;
    EnvironmentIds(db, env);
    OrderedIdsComplete(EnvironmentKeys(db, env));
    i :| 0 <= i < |OrderedIds(EnvironmentKeys(db, env))| && OrderedIds(EnvironmentKeys(db, env))[i] == id;
  }

  lemma ViewsGiveKeys(a: Db, c: Db, env: Id)
    requires IdsHold(a) && IdsHold(c) && ViewRows(CurrentRows(a, env)) == ViewRows(CurrentRows(c, env))
    ensures forall id :: id in EnvironmentKeys(c, env) ==>
              id in EnvironmentKeys(a, env) && EnvironmentKeys(a, env)[id] == EnvironmentKeys(c, env)[id]
              && a.vars[id].version == c.vars[id].version
  {
    hide OrderedIds, IdsHold, CurrentRows;
    RowsAreVariables(a, env);
    RowsAreVariables(c, env);
    forall id | id in EnvironmentKeys(c, env)
      ensures id in EnvironmentKeys(a, env) && EnvironmentKeys(a, env)[id] == EnvironmentKeys(c, env)[id]
              && a.vars[id].version == c.vars[id].version
    {
      var i := RowOfVariable(c, env, id);
      assert |ViewRows(CurrentRows(a, env))| == |ViewRows(CurrentRows(c, env))|;
      assert ViewRows(CurrentRows(a, env))[i] == ViewRows(CurrentRows(c, env))[i];
      assert OrderedIds(EnvironmentKeys(a, env))[i] == id;
    }
  }

  lemma KeysGrowTo(a: Db, b: Db, env: Id)
    requires Grows(a, b)
    ensures forall id :: id in EnvironmentKeys(a, env) ==>
              id in EnvironmentKeys(b, env) && EnvironmentKeys(b, env)[id] == EnvironmentKeys(a, env)[id]
  {
    hide ItemGrows, RequestGrows;
  }

  /** Between two states with equal row views nothing of a row changed but its ciphertext. */
  lemma RowsBetween(a: Db, b: Db, c: Db, env: Id)
    requires IdsHold(a) && IdsHold(b) && IdsHold(c) && Grows(a, b) && Grows(b, c)
    requires ViewRows(CurrentRows(a, env)) == ViewRows(CurrentRows(c, env))
    ensures SameRows(CurrentRows(b, env), CurrentRows(c, env))
  {
    hide OrderedIds, IdsHold, CurrentRows, ViewRows, Grows, SameRow;
    ViewsGiveKeys(a, c, env);
    KeysGrowTo(a, b, env);
    KeysGrowTo(b, c, env);
    assert EnvironmentKeys(b, env) == EnvironmentKeys(c, env);
    RowsAreVariables(b, env);
    RowsAreVariables(c, env);
    forall i | 0 <= i < |CurrentRows(b, env)| ensures SameRow(CurrentRows(b, env)[i], CurrentRows(c, env)[i]) {
      var id := CurrentRows(b, env)[i].id;
      assert id in EnvironmentKeys(c, env);
      VersionBetween(a, b, c, id);
    }
  }

  lemma VersionBetween(a: Db, b: Db, c: Db, id: Id)
    requires Grows(a, b) && Grows(b, c) && id in a.vars && id in c.vars && a.vars[id].version == c.vars[id].version
    ensures id in b.vars && SameRow(b.vars[id], c.vars[id])
  {
    hide ItemGrows, RequestGrows, KeysGrow;
    assert VariableGrows(a.vars[id], b.vars[id]) && VariableGrows(b.vars[id], c.vars[id]);
  }

  // ----- items

  function ItemIds(db: Db, ids: seq<Id>): seq<Id> {
    if ids == [] then [] else OrderedIds(RequestKeys(db, ids[0])) + ItemIds(db, ids[1..])
  }

  lemma {:induction false} LoadedAre(db: Db, ids: seq<Id>)
    requires IdsHold(db)
    ensures |LoadItems(db, ids)| == |ItemIds(db, ids)|
    ensures forall k :: 0 <= k < |ItemIds(db, ids)| ==>
              var id := ItemIds(db, ids)[k];
              id in db.items && LoadItems(db, ids)[k] == db.items[id] && db.items[id].id == id && db.items[id].request in ids
  {
    hide OrderedIds;
    if ids != [] {
      LoadedAre(db, ids[1..]);
      var keys := RequestKeys(db, ids[0]);
      RequestItemIds(db, ids[0]);
      OrderedIdsComplete(keys);
      forall k | 0 <= k < |OrderedIds(keys)|
        ensures var id := OrderedIds(keys)[k];
                id in db.items && ItemsOf(db, ids[0])[k] == db.items[id] && db.items[id].id == id && db.items[id].request == ids[0]
      {
        assert OrderedIds(keys)[k] in keys;
      }
    }
  }

  lemma {:induction false} ItemIdsGrow(a: Db, b: Db, ids: seq<Id>)
    requires Grows(a, b) && forall k :: 0 <= k < |ids| ==> ids[k] in a.requests
    ensures ItemIds(a, ids) == ItemIds(b, ids)
  {
    hide OrderedIds, Grows;
    if ids != [] {
      SameRequestKeys(a, b, ids[0]);
      ItemIdsGrow(a, b, ids[1..]);
    }
  }

  lemma SameRequestKeys(a: Db, b: Db, id: Id)
    requires Grows(a, b) && id in a.requests
    ensures RequestKeys(a, id) == RequestKeys(b, id)
  {
    hide VariableGrows, RequestGrows, KeysGrow;
    assert forall x :: x in a.items ==> ItemGrows(a.items[x], b.items[x]);
  }

  lemma RevisionBetween(a: Db, b: Db, c: Db, id: Id)
    requires Grows(a, b) && Grows(b, c) && id in a.items && id in c.items && a.items[id].revision == c.items[id].revision
    ensures id in b.items && SameItem(b.items[id], c.items[id]) && SameItem(a.items[id], c.items[id])
  {
    hide VariableGrows, RequestGrows, KeysGrow;
    assert ItemGrows(a.items[id], b.items[id]) && ItemGrows(b.items[id], c.items[id]);
  }

  lemma ItemsBetween(a: Db, b: Db, c: Db, ids: seq<Id>)
    requires IdsHold(a) && IdsHold(b) && IdsHold(c) && Grows(a, b) && Grows(b, c)
    requires forall k :: 0 <= k < |ids| ==> ids[k] in a.requests
    requires ViewItems(LoadItems(a, ids)) == ViewItems(LoadItems(c, ids))
    ensures SameItems(LoadItems(b, ids), LoadItems(c, ids)) && SameItems(LoadItems(a, ids), LoadItems(c, ids))
  {
    hide IdsHold, Grows, SameItem, LoadItems, ItemIds;
    assert forall k :: 0 <= k < |ids| ==> ids[k] in b.requests by { hide ItemGrows, VariableGrows, KeysGrow; RequestsStay(a, b); }
    ItemIdsGrow(a, b, ids);
    ItemIdsGrow(b, c, ids);
    LoadedAre(a, ids);
    LoadedAre(b, ids);
    LoadedAre(c, ids);
    forall k | 0 <= k < |ItemIds(a, ids)|
      ensures SameItem(LoadItems(b, ids)[k], LoadItems(c, ids)[k]) && SameItem(LoadItems(a, ids)[k], LoadItems(c, ids)[k])
    {
      assert ViewItems(LoadItems(a, ids))[k] == ViewItems(LoadItems(c, ids))[k];
      RevisionBetween(a, b, c, ItemIds(a, ids)[k]);
    }
  }

  lemma RequestsStay(a: Db, b: Db)
    requires Grows(a, b)
    ensures forall id :: id in a.requests ==> id in b.requests && b.requests[id].env == a.requests[id].env && b.requests[id].id == a.requests[id].id
    ensures forall env :: env in a.envs ==> env in b.envs && b.envs[env].service == a.envs[env].service
    ensures KeysGrow(a, b)
  {
    hide VariableGrows, ItemGrows, KeysGrow;
  }

  // ----- opening

  lemma OpenedItem(db: Db, env: Id, item: Item)
    ensures DecryptItem(db, env, item).Ok? ==>
              item.proposed.Some? && DecryptItem(db, env, item).value == item.proposed.value.blob.plain
  {
    hide DekByVersion;
  }

  lemma OpenedRow(db: Db, row: Variable)
    ensures DecryptRow(db, row).Ok? ==> DecryptRow(db, row).value == row.sealed.blob.plain
  {
    hide DekByVersion;
  }

  lemma ItemOpens(db: Db, env: Id, item: Item)
    requires ItemReadable(db, item) && item.request in db.requests && db.requests[item.request].env == env
    ensures DecryptItem(db, env, item) ==
            if item.proposed.None? then Err(Conflict) else Ok(item.proposed.value.blob.plain)
  {
    hide Reveal;
    OpenedItem(db, env, item);
  }

  lemma RowOpens(db: Db, row: Variable)
    requires RowReadable(db, row)
    ensures DecryptRow(db, row) == Ok(row.sealed.blob.plain)
  {
    hide Reveal;
    OpenedRow(db, row);
  }

  ghost predicate ItemsOpen(db: Db, env: Id, items: seq<Item>) {
    forall i :: 0 <= i < |items| ==>
      DecryptItem(db, env, items[i]) ==
      if items[i].proposed.None? then Err(Conflict) else Ok(items[i].proposed.value.blob.plain)
  }

  ghost predicate RowsOpen(db: Db, rows: seq<Variable>) {
    forall i :: 0 <= i < |rows| ==> DecryptRow(db, rows[i]) == Ok(rows[i].sealed.blob.plain)
  }

  lemma CurrentRowsOpen(db: Db, env: Id)
    requires IdsHold(db) && Readable(db)
    ensures RowsOpen(db, CurrentRows(db, env))
  {
    hide IdsHold, CurrentRows, DecryptRow, RowReadable, ItemReadable, HistoryReadable, DekByVersion;
    RowsAreVariables(db, env);
    forall i | 0 <= i < |CurrentRows(db, env)|
      ensures DecryptRow(db, CurrentRows(db, env)[i]) == Ok(CurrentRows(db, env)[i].sealed.blob.plain)
    {
      RowOpens(db, CurrentRows(db, env)[i]);
    }
  }

  lemma LoadedItemsOpen(db: Db, ids: seq<Id>, env: Id)
    requires IdsHold(db) && Readable(db)
    requires forall k :: 0 <= k < |ids| ==> ids[k] in db.requests && db.requests[ids[k]].env == env
    ensures ItemsOpen(db, env, LoadItems(db, ids))
  {
    hide IdsHold, LoadItems, ItemIds, DecryptItem, RowReadable, ItemReadable, HistoryReadable, DekByVersion;
    LoadedAre(db, ids);
    forall k | 0 <= k < |LoadItems(db, ids)|
      ensures var item := LoadItems(db, ids)[k];
              DecryptItem(db, env, item) == if item.proposed.None? then Err(Conflict) else Ok(item.proposed.value.blob.plain)
    {
      ItemOpens(db, env, LoadItems(db, ids)[k]);
    }
  }

  // ----- the same writes

  lemma {:induction false} SameMaps(a: seq<Variable>, b: seq<Variable>)
    requires SameRows(a, b)
    ensures ById(a).Keys == ById(b).Keys && ByKey(a).Keys == ByKey(b).Keys
    ensures forall id :: id in ById(a) ==> ById(a)[id] in a && ById(b)[id] in b && SameRow(ById(a)[id], ById(b)[id])
    ensures forall key :: key in ByKey(a) ==> ByKey(a)[key] in a && ByKey(b)[key] in b && SameRow(ByKey(a)[key], ByKey(b)[key])
    ensures forall id :: id in ById(a) ==> ById(a)[id].id == id
    ensures forall key :: key in ByKey(a) ==> ByKey(a)[key].key == key
  {
    if a != [] {
      var x, y := a[..|a| - 1], b[..|b| - 1];
      assert SameRows(x, y);
      SameMaps(x, y);
      assert SameRow(a[|a| - 1], b[|b| - 1]);
      assert forall r :: r in x ==> r in a;
      assert forall r :: r in y ==> r in b;
    }
  }

  ghost predicate MapsAgree(a: Db, b: Db, idA: map<Id, Variable>, idB: map<Id, Variable>, keyA: map<Name, Variable>, keyB: map<Name, Variable>) {
    && idA.Keys == idB.Keys && keyA.Keys == keyB.Keys
    && (forall id :: id in idA ==> SameRow(idA[id], idB[id]) && DecryptRow(a, idA[id]) == DecryptRow(b, idB[id]))
    && (forall key :: key in keyA ==> SameRow(keyA[key], keyB[key]))
  }

  lemma SameBasis(
    a: Db, b: Db, env: Id, idA: map<Id, Variable>, idB: map<Id, Variable>, keyA: map<Name, Variable>, keyB: map<Name, Variable>,
    x: Item, y: Item, drawn: Drawn)
    requires MapsAgree(a, b, idA, idB, keyA, keyB) && SameItem(x, y)
    requires DecryptItem(a, env, x) == DecryptItem(b, env, y)
    ensures ItemBasis(a, env, idA, keyA, x, drawn) == ItemBasis(b, env, idB, keyB, y, drawn)
  {
    hide DecryptItem, DecryptRow, Next;
  }

  lemma {:induction false} SamePreparation(
    a: Db, b: Db, env: Id, dek: Count, key: Key,
    idA: map<Id, Variable>, idB: map<Id, Variable>, keyA: map<Name, Variable>, keyB: map<Name, Variable>,
    x: seq<Item>, y: seq<Item>, supply: Id -> Drawn)
    requires env in a.envs && env in b.envs && a.envs[env].service == b.envs[env].service
    requires MapsAgree(a, b, idA, idB, keyA, keyB) && SameItems(x, y) && ItemsOpen(a, env, x) && ItemsOpen(b, env, y)
    ensures PrepareItems(a, env, dek, key, idA, keyA, x, supply) == PrepareItems(b, env, dek, key, idB, keyB, y, supply)
  {
    hide ItemBasis, DecryptItem, MapsAgree, Seal;
    if x != [] {
      assert SameItem(x[0], y[0]);
      SameBasis(a, b, env, idA, idB, keyA, keyB, x[0], y[0], supply(x[0].id));
      SamePreparation(a, b, env, dek, key, idA, idB, keyA, keyB, x[1..], y[1..], supply);
    }
  }

  lemma SameApplyPreparation(
    a: Db, b: Db, env: Id, x: seq<Item>, y: seq<Item>, rowsA: seq<Variable>, rowsB: seq<Variable>, supply: Id -> Drawn)
    requires env in a.envs && env in b.envs && a.envs[env].service == b.envs[env].service
    requires env in a.active && env in b.active && a.active[env] == b.active[env]
    requires DekByVersion(a, env, a.active[env]) == DekByVersion(b, env, b.active[env])
    requires SameRows(rowsA, rowsB) && SameItems(x, y)
    requires ItemsOpen(a, env, x) && ItemsOpen(b, env, y) && RowsOpen(a, rowsA) && RowsOpen(b, rowsB)
    ensures PrepareApply(a, env, x, rowsA, supply) == PrepareApply(b, env, y, rowsB, supply)
  {
    hide ById, ByKey, DekByVersion, DecryptRow, ItemsOpen, SameItems, PrepareItems;
    SameMaps(rowsA, rowsB);
    assert MapsAgree(a, b, ById(rowsA), ById(rowsB), ByKey(rowsA), ByKey(rowsB));
    if DekByVersion(a, env, a.active[env]).Some? {
      SamePreparation(a, b, env, a.active[env], DekByVersion(a, env, a.active[env]).value,
                      ById(rowsA), ById(rowsB), ByKey(rowsA), ByKey(rowsB), x, y, supply);
    }
  }

  // ----- what the check inside the transaction tells

  lemma {:induction false} LoadedRequests(db: Db, ids: seq<Id>)
    requires LoadRequests(db, ids).Ok?
    ensures |LoadRequests(db, ids).value| == |ids|
    ensures forall i :: 0 <= i < |ids| ==> ids[i] in db.requests && LoadRequests(db, ids).value[i] == db.requests[ids[i]]
  {
  }

  lemma SameLoadedIds(a: Db, c: Db, ids: seq<Id>)
    requires IdsHold(a) && IdsHold(c) && LoadRequests(a, ids).Ok? && LoadRequests(c, ids).Ok?
    ensures SameIds(LoadRequests(a, ids).value, LoadRequests(c, ids).value)
  {
  }

  /** The selection in one environment: each request exists and belongs to it. */
  lemma SelectedEnvironment(db: Db, ids: seq<Id>)
    requires LoadRequests(db, ids).Ok? && SelectionValid(LoadRequests(db, ids).value, LoadItems(db, ids))
    ensures ids != [] && ids[0] in db.requests
    ensures forall k :: 0 <= k < |ids| ==> ids[k] in db.requests && db.requests[ids[k]].env == db.requests[ids[0]].env
    ensures LoadItems(db, ids) != []
  {
    hide LoadItems, LoadRequests;
    LoadedRequests(db, ids);
  }

  /** A later state whose selection has the digest of an earlier one: nothing read in between differs. */
  lemma NothingChanged(s0: Db, s1: Db, s2: Db, ids: seq<Id>, env: Id, expected: Digest)
    requires Inv(s0) && Inv(s1) && Inv(s2) && Grows(s0, s1) && Grows(s1, s2)
    requires LoadRequests(s0, ids).Ok? && LoadRequests(s2, ids).Ok?
    requires SelectionDigest(LoadRequests(s0, ids).value, LoadItems(s0, ids), CurrentRows(s0, env)) == expected
    requires SelectionDigest(LoadRequests(s2, ids).value, LoadItems(s2, ids), CurrentRows(s2, env)) == expected
    ensures SameItems(LoadItems(s1, ids), LoadItems(s2, ids)) && SameItems(LoadItems(s0, ids), LoadItems(s2, ids))
    ensures SameRows(CurrentRows(s1, env), CurrentRows(s2, env)) && SameRows(CurrentRows(s0, env), CurrentRows(s2, env))
    ensures SameRevisions(LoadRequests(s0, ids).value, LoadRequests(s2, ids).value)
  {
    hide Inv, Grows, LoadRequests, LoadItems, CurrentRows, SelectionDigest, SameItem, SameRow, ViewItems, ViewRows;
    InvIds(s0);
    InvIds(s1);
    InvIds(s2);
    var r0, r2 := LoadRequests(s0, ids).value, LoadRequests(s2, ids).value;
    SameLoadedIds(s0, s2, ids);
    DigestTellsSelection(r0, LoadItems(s0, ids), CurrentRows(s0, env), r2, LoadItems(s2, ids), CurrentRows(s2, env));
    LoadedRequests(s0, ids);
    ItemsBetween(s0, s1, s2, ids);
    RowsBetween(s0, s1, s2, env);
    InvGrows(s0);
    GrowsTransitive(s0, s1, s2);
    RowsBetween(s0, s0, s2, env);
  }

  lemma {:induction false} PreparedDek(
    db: Db, env: Id, dek: Count, key: Key, byId: map<Id, Variable>, byKey: map<Name, Variable>, items: seq<Item>, supply: Id -> Drawn)
    requires env in db.envs && PrepareItems(db, env, dek, key, byId, byKey, items, supply).Ok?
    ensures var ws := PrepareItems(db, env, dek, key, byId, byKey, items, supply).value;
            |ws| == |items| && forall i :: 0 <= i < |ws| ==> ws[i].sealed.dek == dek
  {
    hide ItemBasis, Seal;
    if items != [] { PreparedDek(db, env, dek, key, byId, byKey, items[1..], supply); }
  }

  lemma ReadApplyParts(db: Db, ids: seq<Id>, supply: Id -> Drawn)
    requires ReadApply(db, ids, supply).Ok?
    ensures var p := ReadApply(db, ids, supply).value;
      && LoadRequests(db, ids).Ok? && SelectionValid(LoadRequests(db, ids).value, LoadItems(db, ids))
      && ids != [] && ids[0] in db.requests && p.env == db.requests[ids[0]].env && p.env in db.envs && p.env in db.active
      && PrepareApply(db, p.env, LoadItems(db, ids), CurrentRows(db, p.env), supply) == Ok(p.writes)
      && DekByVersion(db, p.env, db.active[p.env]).Some?
      && p.writes != [] && (forall i :: 0 <= i < |p.writes| ==> p.writes[i].sealed.dek == db.active[p.env])
  {
    hide LoadRequests, LoadItems, CurrentRows, PrepareItems, DekByVersion, ById, ByKey;
    LoadedRequests(db, ids);
    SelectedEnvironment(db, ids);
    var p := ReadApply(db, ids, supply).value;
    var rows := CurrentRows(db, p.env);
    PreparedDek(db, p.env, db.active[p.env], DekByVersion(db, p.env, db.active[p.env]).value, ById(rows), ByKey(rows), LoadItems(db, ids), supply);
  }

  lemma ApplyCheckParts(db: Db, ids: seq<Id>, env: Id, expected: Digest, writes: seq<VersionWrite>)
    requires ApplyChecks(db, ids, env, expected, writes).Ok?
    ensures LoadRequests(db, ids).Ok? && SelectionValid(LoadRequests(db, ids).value, LoadItems(db, ids))
    ensures ApplyChecks(db, ids, env, expected, writes).value == LoadRequests(db, ids).value
    ensures SelectionDigest(LoadRequests(db, ids).value, LoadItems(db, ids), CurrentRows(db, env)) == expected
    ensures env in db.active && forall i :: 0 <= i < |writes| ==> writes[i].sealed.dek == db.active[env]
  {
    hide LoadRequests, LoadItems, CurrentRows, SelectionDigest, SelectionValid;
  }

  lemma ReadPreviewParts(db: Db, ids: seq<Id>)
    requires ReadPreview(db, ids).Ok?
    ensures var p := ReadPreview(db, ids).value;
      && LoadRequests(db, ids).Ok? && SelectionValid(LoadRequests(db, ids).value, LoadItems(db, ids))
      && ids != [] && ids[0] in db.requests && db.requests[ids[0]].env in db.envs
      && var env := db.requests[ids[0]].env;
      && p.digest == SelectionDigest(LoadRequests(db, ids).value, LoadItems(db, ids), CurrentRows(db, env))
      && Resolve(db, env, CurrentRows(db, env), LoadItems(db, ids)).Ok?
      && p.text == DotenvRender.Render(PreviewEntries(Resolve(db, env, CurrentRows(db, env), LoadItems(db, ids)).value))
  {
    hide LoadRequests, LoadItems, CurrentRows, SelectionDigest, Resolve, SelectionValid;
    LoadedRequests(db, ids);
  }

  lemma KeyStays(a: Db, b: Db, env: Id, version: Count)
    requires KeysGrow(a, b) && DekByVersion(a, env, version).Some? && DekByVersion(b, env, version).Some?
    ensures DekByVersion(a, env, version) == DekByVersion(b, env, version)
  {
  }

  lemma ActiveKey(db: Db, env: Id)
    requires Inv(db) && env in db.envs
    ensures env in db.active && DekByVersion(db, env, db.active[env]).Some?
  {
    hide DekByVersion, IdsHold, KeysUnique, HistoryComplete, StatusesHold, ItemsHold, RowReadable, HistoryReadable, ItemReadable;
  }

  /**
   * With the fingerprint of an earlier preview, whatever was committed since: when the check inside the
   * transaction passes, the writes prepared from earlier reads are those that would be prepared inside it.
   */
  lemma StaleWritesAreCurrent(
    s0: Db, ops: seq<Op>, s1: Db, more: seq<Op>, s2: Db,
    ids: seq<Id>, preview: Preview, prepared: Prepared, supply: Id -> Drawn)
    requires Inv(s0) && ReadPreview(s0, ids) == Ok(preview)
    requires s1 == Run(s0, ops) && ReadApply(s1, ids, supply) == Ok(prepared)
    requires s2 == Run(s1, more) && ApplyChecks(s2, ids, prepared.env, preview.digest, prepared.writes).Ok?
    ensures prepared.env in s2.envs
    ensures PrepareApply(s2, prepared.env, LoadItems(s2, ids), CurrentRows(s2, prepared.env), supply) == Ok(prepared.writes)
  {
    hide Inv, Grows, Run, ReadPreview, ReadApply, ApplyChecks, PrepareApply, LoadItems, LoadRequests, CurrentRows, SelectionDigest;
    hide SelectionValid, DekByVersion, Resolve, SameItems, SameRows, KeysGrow;
    EveryRun(s0, ops);
    EveryRun(s1, more);
    StaleParts(s0, s1, s2, ids, supply);
    var env := prepared.env;
    SameApplyPreparation(s1, s2, env, LoadItems(s1, ids), LoadItems(s2, ids), CurrentRows(s1, env), CurrentRows(s2, env), supply);
  }

  lemma StaleParts(s0: Db, s1: Db, s2: Db, ids: seq<Id>, supply: Id -> Drawn)
    requires Inv(s0) && Inv(s1) && Inv(s2) && Grows(s0, s1) && Grows(s1, s2)
    requires ReadPreview(s0, ids).Ok? && ReadApply(s1, ids, supply).Ok?
    requires var p := ReadApply(s1, ids, supply).value;
             ApplyChecks(s2, ids, p.env, ReadPreview(s0, ids).value.digest, p.writes).Ok?
    ensures var p := ReadApply(s1, ids, supply).value;
      && p.env in s1.envs && p.env in s2.envs && s1.envs[p.env].service == s2.envs[p.env].service
      && p.env in s1.active && p.env in s2.active && s1.active[p.env] == s2.active[p.env]
      && DekByVersion(s1, p.env, s1.active[p.env]).Some?
      && DekByVersion(s1, p.env, s1.active[p.env]) == DekByVersion(s2, p.env, s2.active[p.env])
      && SameRows(CurrentRows(s1, p.env), CurrentRows(s2, p.env)) && SameItems(LoadItems(s1, ids), LoadItems(s2, ids))
      && SameRows(CurrentRows(s0, p.env), CurrentRows(s2, p.env)) && SameItems(LoadItems(s0, ids), LoadItems(s2, ids))
      && ItemsOpen(s1, p.env, LoadItems(s1, ids)) && ItemsOpen(s2, p.env, LoadItems(s2, ids))
      && RowsOpen(s1, CurrentRows(s1, p.env)) && RowsOpen(s2, CurrentRows(s2, p.env))
      && ids != [] && ids[0] in s0.requests && s0.requests[ids[0]].env == p.env
      && PrepareApply(s1, p.env, LoadItems(s1, ids), CurrentRows(s1, p.env), supply) == Ok(p.writes)
  {
    hide Inv, Grows, ReadPreview, ReadApply, ApplyChecks, PrepareApply, LoadItems, LoadRequests, CurrentRows, SelectionDigest;
    hide SelectionValid, DekByVersion, Resolve, SameItems, SameRows, KeysGrow, ItemsOpen, RowsOpen, IdsHold, Readable, KeysUnique;
    hide HistoryComplete, StatusesHold, ItemsHold;
    var expected := ReadPreview(s0, ids).value.digest;
    var p := ReadApply(s1, ids, supply).value;
    var env := p.env;
    ReadPreviewParts(s0, ids);
    ReadApplyParts(s1, ids, supply);
    ApplyCheckParts(s2, ids, env, expected, p.writes);
    RequestsStay(s0, s1);
    RequestsStay(s1, s2);
    ActiveKey(s2, env);
    assert p.writes[0].sealed.dek == s2.active[env];
    KeyStays(s1, s2, env, s1.active[env]);
    NothingChanged(s0, s1, s2, ids, env, expected);
    InvIds(s1);
    InvIds(s2);
    SelectedEnvironment(s1, ids);
    SelectedEnvironment(s2, ids);
    CurrentRowsOpen(s1, env);
    CurrentRowsOpen(s2, env);
    LoadedItemsOpen(s1, ids, env);
    LoadedItemsOpen(s2, ids, env);
  }
}
