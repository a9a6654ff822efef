/** What is previewed is what is exported after the apply. */
module PreviewExport {
  import opened Text
  import opened Crypto
  import Dotenv
  import opened DotenvRender
  import opened Model
  import opened Fingerprint
  import opened Store
  import opened StoreProofs
  import opened StoreRuns
  import opened Workflow
  import opened WorkflowStale

  function ShownRow(row: Variable): Shown {
    Shown(row.sealed.blob.plain, row.meta.group, row.meta.order)
  }

  predicate IsActive(db: Db, env: Id, id: Id) {
    id in db.vars && db.vars[id].env == env && db.vars[id].lifecycle == ACTIVE
  }

  /** The map holds exactly the ACTIVE rows of the environment. */
  ghost predicate Shows(db: Db, env: Id, values: map<Name, Shown>) {
    && (forall id :: IsActive(db, env, id) ==> db.vars[id].key in values && values[db.vars[id].key] == ShownRow(db.vars[id]))
    && (forall key :: key in values ==> exists id :: IsActive(db, env, id) && db.vars[id].key == key)
  }

  // ----- the rows of the preview

  ghost predicate ListsRows(rows: seq<Variable>, from: map<Name, Shown>, values: map<Name, Shown>) {
    && (forall i :: 0 <= i < |rows| && rows[i].lifecycle == ACTIVE ==>
          rows[i].key in values && values[rows[i].key] == ShownRow(rows[i]))
    && (forall key :: key in values ==>
          (key in from && values[key] == from[key])
          || exists i :: 0 <= i < |rows| && rows[i].lifecycle == ACTIVE && rows[i].key == key)
    && (forall key :: key in from && (forall i :: 0 <= i < |rows| ==> rows[i].key != key) ==> key in values && values[key] == from[key])
  }

  predicate RowKeysDiffer(rows: seq<Variable>) {
    forall i, j :: 0 <= i < j < |rows| ==> rows[i].key != rows[j].key
  }

  lemma {:induction false} ActiveValuesList(db: Db, rows: seq<Variable>, from: map<Name, Shown>)
    requires RowKeysDiffer(rows) && ActiveValues(db, rows, from).Ok?
    ensures ListsRows(rows, from, ActiveValues(db, rows, from).value)
    decreases |rows|
  {
    hide DecryptRow, ListsRows;
    if rows == [] {
      NoRows(from);
    } else {
      var row, rest := rows[0], rows[1..];
      assert RowKeysDiffer(rest);
      OpenedRow(db, row);
      var next := if row.lifecycle == ACTIVE then from[row.key := ShownRow(row)] else from;
      ActiveValuesList(db, rest, next);
      OneMoreRow(rows, from, next, ActiveValues(db, rows, from).value);
    }
  }

  lemma NoRows(from: map<Name, Shown>)
    ensures ListsRows([], from, from)
  {
  }

  lemma OneMoreRow(rows: seq<Variable>, from: map<Name, Shown>, next: map<Name, Shown>, values: map<Name, Shown>)
    requires rows != [] && RowKeysDiffer(rows)
    requires next == if rows[0].lifecycle == ACTIVE then from[rows[0].key := ShownRow(rows[0])] else from
    requires ListsRows(rows[1..], next, values)
    ensures ListsRows(rows, from, values)
  {
    var rest := rows[1..];
    assert forall i :: 0 <= i < |rest| ==> rest[i] == rows[i + 1];
    forall i | 0 <= i < |rows| && rows[i].lifecycle == ACTIVE
      ensures rows[i].key in values && values[rows[i].key] == ShownRow(rows[i])
    {
      if i > 0 { assert rest[i - 1] == rows[i]; }
    }
    forall key | key in values
      ensures (key in from && values[key] == from[key])
              || exists i :: 0 <= i < |rows| && rows[i].lifecycle == ACTIVE && rows[i].key == key
    {
      if exists i :: 0 <= i < |rest| && rest[i].lifecycle == ACTIVE && rest[i].key == key {
        var i :| 0 <= i < |rest| && rest[i].lifecycle == ACTIVE && rest[i].key == key;
        assert rows[i + 1] == rest[i];
      } else if rows[0].lifecycle == ACTIVE && rows[0].key == key {
        assert rows[0].key == key;
      }
    }
  }

  /** The starting map of a preview shows the environment as it is in any state with the same rows. */
  lemma StartShows(s: Db, env: Id, rows: seq<Variable>, values: map<Name, Shown>)
    requires IdsHold(s) && KeysUnique(s) && SameRows(rows, CurrentRows(s, env))
    requires ListsRows(rows, map[], values)
    ensures Shows(s, env, values)
  {
    hide IdsHold, OrderedIds, CurrentRows;
    RowsAreVariables(s, env);
    forall id | IsActive(s, env, id)
      ensures s.vars[id].key in values && values[s.vars[id].key] == ShownRow(s.vars[id])
    {
      var i := RowOfVariable(s, env, id);
      assert SameRow(rows[i], CurrentRows(s, env)[i]);
    }
    forall key | key in values ensures exists id :: IsActive(s, env, id) && s.vars[id].key == key {
      var i :| 0 <= i < |rows| && rows[i].lifecycle == ACTIVE && rows[i].key == key;
      assert SameRow(rows[i], CurrentRows(s, env)[i]);
      assert IsActive(s, env, CurrentRows(s, env)[i].id);
    }
  }

  lemma RowsHaveTheirKeys(s: Db, env: Id, rows: seq<Variable>)
    requires IdsHold(s) && KeysUnique(s) && SameRows(rows, CurrentRows(s, env))
    ensures RowKeysDiffer(rows)
  {
    hide IdsHold, OrderedIds, CurrentRows;
    RowsAreVariables(s, env);
    OrderedIdsComplete(EnvironmentKeys(s, env));
    forall i, j | 0 <= i < j < |rows| ensures rows[i].key != rows[j].key {
      assert SameRow(rows[i], CurrentRows(s, env)[i]) && SameRow(rows[j], CurrentRows(s, env)[j]);
    }
  }

  // ----- one item

  /** What one item does to the values. */
  function Effect(values: map<Name, Shown>, item: Item): map<Name, Shown> {
    if item.action == DELETE || item.proposed.None? then values - {item.key}
    else values[item.key := Shown(item.proposed.value.blob.plain, item.meta.group, item.meta.order)]
  }

  lemma ItemEffect(db: Db, env: Id, rows: seq<Variable>, values: map<Name, Shown>, item: Item)
    requires ResolveItem(db, env, rows, values, item).Ok?
    ensures ResolveItem(db, env, rows, values, item).value == Effect(values, item)
    ensures item.action != DELETE ==> item.proposed.Some?
  {
    hide DecryptItem, BaseRow;
    OpenedItem(db, env, item);
  }

  lemma SameEffect(values: map<Name, Shown>, a: Item, b: Item)
    requires SameItem(a, b)
    ensures Effect(values, a) == Effect(values, b)
  {
  }

  ghost predicate MapsOf(s: Db, byId: map<Id, Variable>, byKey: map<Name, Variable>) {
    && (forall id :: id in byId ==> byId[id].id in s.vars && s.vars[byId[id].id] == byId[id])
    && (forall key :: key in byKey ==> byKey[key].id in s.vars && s.vars[byKey[key].id] == byKey[key] && byKey[key].key == key)
  }

  /** What the prepared write of an item does. */
  ghost predicate WriteFits(s: Db, env: Id, item: Item, w: VersionWrite) {
    && WriteShaped(w) && w.env == env && w.action == item.action && w.key == item.key && w.meta == item.meta
    && (item.action != DELETE ==> item.proposed.Some? && w.sealed.blob.plain == item.proposed.value.blob.plain)
    && (w.expected.Some? ==> w.variable in s.vars && s.vars[w.variable].key == item.key)
  }

  lemma PreparedFits(
    s: Db, env: Id, dek: Count, key: Key, byId: map<Id, Variable>, byKey: map<Name, Variable>, item: Item, drawn: Drawn)
    requires MapsOf(s, byId, byKey) && env in s.envs && ItemBasis(s, env, byId, byKey, item, drawn).Ok?
    ensures WriteFits(s, env, item,
                      WriteOf(s.envs[env].service, env, dek, key, item, ItemBasis(s, env, byId, byKey, item, drawn).value, drawn.random))
  {
    hide DecryptItem, DecryptRow;
    OpenedItem(s, env, item);
  }

  /** Keys of variables never change. */
  ghost predicate OnTrack(s: Db, d: Db) {
    && d.envs == s.envs
    && forall id :: id in s.vars ==> id in d.vars && d.vars[id].key == s.vars[id].key
  }

  lemma WriteKeepsTrack(s: Db, d: Db, w: VersionWrite)
    requires OnTrack(s, d) && WriteShaped(w) && WriteVersion(d, w).Some?
    ensures OnTrack(s, WriteVersion(d, w).value)
  {
    hide WriteVersion, KeyTaken, WriteShaped;
    WriteTables(d, w);
  }

  /** One write turns the environment as the item turns the map. */
  lemma WriteShows(s: Db, d: Db, env: Id, values: map<Name, Shown>, item: Item, w: VersionWrite)
    requires IdsHold(d) && KeysUnique(d) && OnTrack(s, d) && env in d.envs
    requires WriteFits(s, env, item, w) && WriteVersion(d, w).Some?
    requires Shows(d, env, values)
    ensures Shows(WriteVersion(d, w).value, env, Effect(values, item))
  {
    hide WriteVersion, KeyTaken, IdsHold, Shows, KeysUnique;
    WriteTables(d, w);
    WriteKeepsIds(d, w);
    var d' := WriteVersion(d, w).value;
    assert d'.vars[w.variable].key == item.key;
    if item.action == DELETE {
      RowHidden(d, d', env, values, w.variable, item);
    } else {
      RowShown(d, d', env, values, w.variable, item);
    }
  }

  lemma RowShown(d: Db, d': Db, env: Id, values: map<Name, Shown>, id: Id, item: Item)
    requires Shows(d, env, values) && KeysUnique(d')
    requires id in d'.vars && d'.vars == d.vars[id := d'.vars[id]] && (id in d.vars ==> d.vars[id].key == item.key)
    requires IsActive(d', env, id) && d'.vars[id].key == item.key && d'.vars[id].meta == item.meta
    requires item.action != DELETE && item.proposed.Some? && d'.vars[id].sealed.blob.plain == item.proposed.value.blob.plain
    ensures Shows(d', env, Effect(values, item))
  {
    var values' := Effect(values, item);
    forall x | IsActive(d', env, x) ensures d'.vars[x].key in values' && values'[d'.vars[x].key] == ShownRow(d'.vars[x]) {
      if x != id { assert IsActive(d, env, x) && d'.vars[x] == d.vars[x]; }
    }
    forall key | key in values' ensures exists x :: IsActive(d', env, x) && d'.vars[x].key == key {
      if key == item.key {
        assert IsActive(d', env, id) && d'.vars[id].key == key;
      } else {
        var x :| IsActive(d, env, x) && d.vars[x].key == key;
        assert IsActive(d', env, x) && d'.vars[x].key == key;
      }
    }
  }

  lemma RowHidden(d: Db, d': Db, env: Id, values: map<Name, Shown>, id: Id, item: Item)
    requires Shows(d, env, values) && KeysUnique(d')
    requires id in d.vars && d.vars[id].key == item.key
    requires id in d'.vars && d'.vars == d.vars[id := d'.vars[id]]
    requires d'.vars[id].env == env && d'.vars[id].lifecycle == DELETED && d'.vars[id].key == item.key
    requires item.action == DELETE
    ensures Shows(d', env, Effect(values, item))
  {
    var values' := Effect(values, item);
    forall x | IsActive(d', env, x) ensures d'.vars[x].key in values' && values'[d'.vars[x].key] == ShownRow(d'.vars[x]) {
      assert IsActive(d, env, x) && d'.vars[x] == d.vars[x];
    }
    forall key | key in values' ensures exists x :: IsActive(d', env, x) && d'.vars[x].key == key {
      var x :| IsActive(d, env, x) && d.vars[x].key == key;
      assert IsActive(d', env, x) && d'.vars[x].key == key;
    }
  }

  // ----- all items

  /** The fold over a map and the writes to the table stay in step, item by item. */
  lemma {:induction false} WritesShow(
    s0: Db, rows: seq<Variable>, s: Db, d: Db, env: Id, dek: Count, key: Key,
    byId: map<Id, Variable>, byKey: map<Name, Variable>,
    values: map<Name, Shown>, x: seq<Item>, y: seq<Item>, supply: Id -> Drawn)
    requires IdsHold(d) && KeysUnique(d) && OnTrack(s, d) && env in s.envs && MapsOf(s, byId, byKey)
    requires SameItems(x, y) && Shows(d, env, values)
    requires ResolveItems(s0, env, rows, values, x).Ok?
    requires PrepareItems(s, env, dek, key, byId, byKey, y, supply).Ok?
    requires WriteVersions(d, PrepareItems(s, env, dek, key, byId, byKey, y, supply).value).Some?
    ensures Shows(WriteVersions(d, PrepareItems(s, env, dek, key, byId, byKey, y, supply).value).value, env,
                  ResolveItems(s0, env, rows, values, x).value)
    decreases |x|
  {
    hide IdsHold, KeysUnique, OnTrack, MapsOf, Shows, ResolveItem, ItemBasis, WriteOf, WriteVersion, WriteFits, Effect;
    if x != [] {
      var drawn := supply(y[0].id);
      var w := WriteOf(s.envs[env].service, env, dek, key, y[0], ItemBasis(s, env, byId, byKey, y[0], drawn).value, drawn.random);
      var d' := WriteVersion(d, w).value;
      assert SameItem(x[0], y[0]);
      ItemEffect(s0, env, rows, values, x[0]);
      SameEffect(values, x[0], y[0]);
      PreparedFits(s, env, dek, key, byId, byKey, y[0], drawn);
      assert env in d.envs && WriteShaped(w) && w.env == env by { TrackedEnvironment(s, d, env); FitParts(s, env, y[0], w); }
      WriteShows(s, d, env, values, y[0], w);
      WriteKeepsIds(d, w);
      WriteKeepsTrack(s, d, w);
      assert PrepareItems(s, env, dek, key, byId, byKey, y, supply).value[1..] ==
             PrepareItems(s, env, dek, key, byId, byKey, y[1..], supply).value;
      WritesShow(s0, rows, s, d', env, dek, key, byId, byKey, Effect(values, y[0]), x[1..], y[1..], supply);
    }
  }

  lemma TrackedEnvironment(s: Db, d: Db, env: Id)
    requires OnTrack(s, d) && env in s.envs
    ensures env in d.envs
  {
  }

  lemma FitParts(s: Db, env: Id, item: Item, w: VersionWrite)
    requires WriteFits(s, env, item, w)
    ensures WriteShaped(w) && w.env == env
  {
    hide WriteShaped;
  }

  lemma {:induction false} MapsOfRows(s: Db, rows: seq<Variable>)
    requires forall i :: 0 <= i < |rows| ==> rows[i].id in s.vars && s.vars[rows[i].id] == rows[i]
    ensures MapsOf(s, ById(rows), ByKey(rows))
  {
    if rows != [] { MapsOfRows(s, rows[..|rows| - 1]); }
  }

  lemma CurrentMaps(s: Db, env: Id)
    requires IdsHold(s)
    ensures MapsOf(s, ById(CurrentRows(s, env)), ByKey(CurrentRows(s, env)))
  {
    hide IdsHold, OrderedIds, CurrentRows;
    RowsAreVariables(s, env);
    MapsOfRows(s, CurrentRows(s, env));
  }

  // ----- the text

  lemma {:induction false} ExportedEntries(db: Db, ids: seq<Id>)
    requires forall i :: 0 <= i < |ids| ==> ids[i] in db.vars && RowReadable(db, db.vars[ids[i]])
    ensures ExportEntries(db, ids).Ok? && |ExportEntries(db, ids).value| == |ids|
    ensures forall i :: 0 <= i < |ids| ==>
              ExportEntries(db, ids).value[i] == ShownEntry(db.vars[ids[i]].key, ShownRow(db.vars[ids[i]]))
  {
    hide DecryptRow, RowReadable;
    if ids != [] {
      RowOpens(db, db.vars[ids[0]]);
      ExportedEntries(db, ids[1..]);
    }
  }

  lemma CoverageCounts(a: seq<Dotenv.Entry>, b: seq<Dotenv.Entry>)
    requires DistinctKeys(a) && DistinctKeys(b)
    requires (forall e :: e in a ==> e in b) && (forall e :: e in b ==> e in a)
    ensures multiset(a) == multiset(b)
  {
    forall e ensures multiset(a)[e] == multiset(b)[e] {
      CountOfDistinct(a, e);
      CountOfDistinct(b, e);
      assert e in a <==> e in b;
      assert e in multiset(a) <==> e in a;
      assert e in multiset(b) <==> e in b;
    }
  }

  lemma ExportedArePreviewed(db: Db, env: Id, values: map<Name, Shown>, ids: seq<Id>, es: seq<Dotenv.Entry>)
    requires Shows(db, env, values) && ListsActive(db, env, ids) && |es| == |ids|
    requires forall i :: 0 <= i < |ids| ==> ids[i] in db.vars && es[i] == ShownEntry(db.vars[ids[i]].key, ShownRow(db.vars[ids[i]]))
    ensures forall e :: e in es ==> e in PreviewEntries(values)
  {
    hide OrderedIds;
    var ps, keys := PreviewEntries(values), OrderedKeys(values);
    forall e | e in es ensures e in ps {
      var i :| 0 <= i < |es| && es[i] == e;
      assert ids[i] in ids;
      var key := db.vars[ids[i]].key;
      assert IsActive(db, env, ids[i]) && key in keys;
      var j :| 0 <= j < |keys| && keys[j] == key;
      assert ps[j] == e;
    }
  }

  lemma PreviewedAreExported(db: Db, env: Id, values: map<Name, Shown>, ids: seq<Id>, es: seq<Dotenv.Entry>)
    requires Shows(db, env, values) && ListsActive(db, env, ids) && |es| == |ids|
    requires forall i :: 0 <= i < |ids| ==> ids[i] in db.vars && es[i] == ShownEntry(db.vars[ids[i]].key, ShownRow(db.vars[ids[i]]))
    ensures forall e :: e in PreviewEntries(values) ==> e in es
  {
    hide OrderedIds;
    var ps, keys := PreviewEntries(values), OrderedKeys(values);
    forall e | e in ps ensures e in es {
      var j :| 0 <= j < |ps| && ps[j] == e;
      assert keys[j] in keys;
      var id :| IsActive(db, env, id) && db.vars[id].key == keys[j];
      assert id in ids;
      var i :| 0 <= i < |ids| && ids[i] == id;
      assert es[i] == e;
    }
  }

  lemma ExportedKeysDiffer(db: Db, env: Id, ids: seq<Id>, es: seq<Dotenv.Entry>)
    requires KeysUnique(db) && ListsActive(db, env, ids) && |es| == |ids|
    requires forall i :: 0 <= i < |ids| ==> ids[i] in db.vars && es[i] == ShownEntry(db.vars[ids[i]].key, ShownRow(db.vars[ids[i]]))
    ensures DistinctKeys(es)
  {
    assert forall i :: 0 <= i < |ids| ==> ids[i] in ids;
  }

  lemma PreviewKeysDiffer(values: map<Name, Shown>)
    ensures DistinctKeys(PreviewEntries(values))
  {
    hide OrderedIds;
  }

  /** An export of an environment that a map shows is the rendering of the map. */
  lemma ExportOfShown(db: Db, env: Id, values: map<Name, Shown>, ids: seq<Id>)
    requires KeysUnique(db) && Readable(db) && Shows(db, env, values) && ListsActive(db, env, ids)
    ensures forall i :: 0 <= i < |ids| ==> ids[i] in db.vars
    ensures Export(db, ids) == Ok(Render(PreviewEntries(values)))
  {
    hide RowReadable, ItemReadable, HistoryReadable, DekByVersion, DecryptRow, Render, PreviewEntries, KeysUnique, Shows;
    assert forall i :: 0 <= i < |ids| ==> ids[i] in ids;
    ExportedEntries(db, ids);
    var es, ps := ExportEntries(db, ids).value, PreviewEntries(values);
    ExportedKeysDiffer(db, env, ids, es);
    PreviewKeysDiffer(values);
    ExportedArePreviewed(db, env, values, ids, es);
    PreviewedAreExported(db, env, values, ids, es);
    CoverageCounts(es, ps);
    RenderOrderIndependent(es, ps);
  }

  // ----- the theorem

  /** The writes that an apply prepared from earlier reads are well formed when the check inside its transaction passes. */
  lemma ApplyIsShaped(s1: Db, s2: Db, ids: seq<Id>, expected: Digest, supply: Id -> Drawn)
    requires Inv(s1) && Inv(s2) && Grows(s1, s2) && ReadApply(s1, ids, supply).Ok?
    requires var p := ReadApply(s1, ids, supply).value; ApplyChecks(s2, ids, p.env, expected, p.writes).Ok?
    ensures var p := ReadApply(s1, ids, supply).value;
            WritesShaped(s2, p.env, p.writes) && Shaped(s2, ApplyOp(ids, p.env, expected, p.writes))
  {
    hide Inv, Grows, ReadApply, ApplyChecks, PrepareApply, LoadItems, LoadRequests, CurrentRows, SelectionDigest, SelectionValid;
    hide WritesShaped, DekByVersion, KeysGrow;
    var p := ReadApply(s1, ids, supply).value;
    ReadApplyParts(s1, ids, supply);
    ApplyCheckParts(s2, ids, p.env, expected, p.writes);
    RequestsStay(s1, s2);
    ActiveKey(s2, p.env);
    assert p.writes[0].sealed.dek == s2.active[p.env];
    KeyStays(s1, s2, p.env, s1.active[p.env]);
    PreparedShaped(s1, s2, p, LoadItems(s1, ids), CurrentRows(s1, p.env), supply);
  }

  lemma PreparedShaped(s1: Db, s2: Db, p: Prepared, items: seq<Item>, rows: seq<Variable>, supply: Id -> Drawn)
    requires p.env in s1.envs && p.env in s2.envs && s1.envs[p.env].service == s2.envs[p.env].service
    requires PrepareApply(s1, p.env, items, rows, supply) == Ok(p.writes)
    requires p.env in s1.active && DekByVersion(s1, p.env, s1.active[p.env]) == DekByVersion(s2, p.env, s1.active[p.env])
    ensures WritesShaped(s2, p.env, p.writes)
  {
    hide DekByVersion, ById, ByKey, WritesShaped, PrepareItems;
    ItemsShaped(s1, s2, p.env, s1.active[p.env], DekByVersion(s1, p.env, s1.active[p.env]).value, ById(rows), ByKey(rows), items, supply);
  }

  lemma {:induction false} ItemsShaped(
    s1: Db, s2: Db, env: Id, dek: Count, key: Key, byId: map<Id, Variable>, byKey: map<Name, Variable>, items: seq<Item>, supply: Id -> Drawn)
    requires env in s1.envs && env in s2.envs && s1.envs[env].service == s2.envs[env].service
    requires DekByVersion(s2, env, dek) == Some(key)
    requires PrepareItems(s1, env, dek, key, byId, byKey, items, supply).Ok?
    ensures WritesShaped(s2, env, PrepareItems(s1, env, dek, key, byId, byKey, items, supply).value)
  {
    hide ItemBasis, WriteOf, DekByVersion, WriteShaped, WriteSealed;
    if items != [] {
      var drawn := supply(items[0].id);
      var basis := ItemBasis(s1, env, byId, byKey, items[0], drawn).value;
      WriteOfShaped(s1, s2, env, dek, key, byId, byKey, items[0], drawn);
      ItemsShaped(s1, s2, env, dek, key, byId, byKey, items[1..], supply);
      var w := WriteOf(s1.envs[env].service, env, dek, key, items[0], basis, drawn.random);
      var ws := PrepareItems(s1, env, dek, key, byId, byKey, items, supply).value;
      assert ws == [w] + PrepareItems(s1, env, dek, key, byId, byKey, items[1..], supply).value;
    }
  }

  lemma WriteOfShaped(
    s1: Db, s2: Db, env: Id, dek: Count, key: Key, byId: map<Id, Variable>, byKey: map<Name, Variable>, item: Item, drawn: Drawn)
    requires env in s1.envs && env in s2.envs && s1.envs[env].service == s2.envs[env].service
    requires DekByVersion(s2, env, dek) == Some(key) && ItemBasis(s1, env, byId, byKey, item, drawn).Ok?
    ensures var w := WriteOf(s1.envs[env].service, env, dek, key, item, ItemBasis(s1, env, byId, byKey, item, drawn).value, drawn.random);
            WriteShaped(w) && w.env == env && WriteSealed(s2, w)
  {
    hide DecryptItem, DecryptRow, DekByVersion;
  }

  /** The theorem below, for three states in order. */
  lemma AppliedExports(s0: Db, s1: Db, s2: Db, ids: seq<Id>, supply: Id -> Drawn, listed: seq<Id>)
    requires Inv(s0) && Inv(s1) && Inv(s2) && Grows(s0, s1) && Grows(s1, s2)
    requires ReadPreview(s0, ids).Ok? && ReadApply(s1, ids, supply).Ok?
    requires var p := ReadApply(s1, ids, supply).value;
             var applied := ApplyTransaction(s2, ids, p.env, ReadPreview(s0, ids).value.digest, p.writes);
             applied.Ok? && ListsActive(applied.value, p.env, listed)
    ensures var p := ReadApply(s1, ids, supply).value;
            var s3 := ApplyTransaction(s2, ids, p.env, ReadPreview(s0, ids).value.digest, p.writes).value;
            && WritesShaped(s2, p.env, p.writes)
            && (forall i :: 0 <= i < |listed| ==> listed[i] in s3.vars)
            && Export(s3, listed) == Ok(ReadPreview(s0, ids).value.text)
  {
    hide Inv, Grows, ReadPreview, ReadApply, ApplyTransaction, ApplyChecks, Export, ListsActive, WritesShaped, Shows, Render, PreviewEntries;
    hide IdsHold, KeysUnique, HistoryComplete, StatusesHold, ItemsHold, Readable, WriteVersions;
    var p := ReadApply(s1, ids, supply).value;
    var expected := ReadPreview(s0, ids).value.digest;
    ApplyCommits(s2, ids, p.env, expected, p.writes);
    ApplyIsShaped(s1, s2, ids, expected, supply);
    ApplyKeeps(s2, ids, p.env, expected, p.writes);
    AppliedShows(s0, s1, s2, ids, supply);
    var s3 := ApplyTransaction(s2, ids, p.env, expected, p.writes).value;
    InvIds(s3);
    var values :| Shows(s3, p.env, values) && ReadPreview(s0, ids).value.text == Render(PreviewEntries(values));
    ExportOfShown(s3, p.env, values, listed);
  }

  /**
   * A preview at one time, reads for an apply later, any calls in between, and an apply that succeeds
   * with the fingerprint of the preview: the export of the committed environment is the previewed text.
   */
  lemma PreviewIsExported(
    s0: Db, ops: seq<Op>, s1: Db, more: seq<Op>, s2: Db, s3: Db,
    ids: seq<Id>, preview: Preview, prepared: Prepared, supply: Id -> Drawn, listed: seq<Id>)
    requires Inv(s0) && ReadPreview(s0, ids) == Ok(preview)
    requires s1 == Run(s0, ops) && ReadApply(s1, ids, supply) == Ok(prepared)
    requires s2 == Run(s1, more) && Commit(s2, ApplyOp(ids, prepared.env, preview.digest, prepared.writes)) == Ok(s3)
    requires ListsActive(s3, prepared.env, listed)
    ensures s3 == Run1(s2, ApplyOp(ids, prepared.env, preview.digest, prepared.writes))
    ensures (forall i :: 0 <= i < |listed| ==> listed[i] in s3.vars) && Export(s3, listed) == Ok(preview.text)
  {
    hide Inv, Grows, Run, ReadPreview, ReadApply, ApplyTransaction, Export, ListsActive, WritesShaped;
    EveryRun(s0, ops);
    EveryRun(s1, more);
    AppliedExports(s0, s1, s2, ids, supply, listed);
  }

  lemma ApplyCommits(db: Db, ids: seq<Id>, env: Id, expected: Digest, writes: seq<VersionWrite>)
    requires ApplyTransaction(db, ids, env, expected, writes).Ok?
    ensures ApplyChecks(db, ids, env, expected, writes).Ok? && WriteVersions(db, writes).Some?
    ensures ApplyTransaction(db, ids, env, expected, writes).value.vars == WriteVersions(db, writes).value.vars
  {
    hide ApplyChecks, WriteVersions, MarkRequests;
    MarkKeepsRows(WriteVersions(db, writes).value, ApplyChecks(db, ids, env, expected, writes).value, expected);
  }

  lemma {:induction false} MarkKeepsRows(db: Db, seen: seq<Request>, expected: Digest)
    requires MarkRequests(db, seen, expected).Ok?
    ensures MarkRequests(db, seen, expected).value.vars == db.vars
    decreases |seen|
  {
    hide RequestAllowed, TransitionAllowed, Next;
    if seen != [] {
      var r := db.requests[seen[0].id];
      var r' := r.(status := APPLIED, applied := true, revision := Next(r.revision).value);
      MarkKeepsRows(SaveRequest(db, seen[0].id, r', "APPLY_REQUEST").value, seen[1..], expected);
    }
  }

  lemma AppliedShows(s0: Db, s1: Db, s2: Db, ids: seq<Id>, supply: Id -> Drawn)
    requires Inv(s0) && Inv(s1) && Inv(s2) && Grows(s0, s1) && Grows(s1, s2)
    requires ReadPreview(s0, ids).Ok? && ReadApply(s1, ids, supply).Ok?
    requires var p := ReadApply(s1, ids, supply).value;
             var expected := ReadPreview(s0, ids).value.digest;
             ApplyChecks(s2, ids, p.env, expected, p.writes).Ok? && ApplyTransaction(s2, ids, p.env, expected, p.writes).Ok?
    ensures var p := ReadApply(s1, ids, supply).value;
            var s3 := ApplyTransaction(s2, ids, p.env, ReadPreview(s0, ids).value.digest, p.writes).value;
            exists values :: Shows(s3, p.env, values) && ReadPreview(s0, ids).value.text == Render(PreviewEntries(values))
  {
    hide Inv, Grows, ReadPreview, ReadApply, ApplyTransaction, ApplyChecks, WriteVersions, Shows, SameItems, SameRows;
    hide LoadItems, LoadRequests, CurrentRows, SelectionValid, SelectionDigest, Resolve, PrepareApply, Render, PreviewEntries;
    hide IdsHold, KeysUnique, HistoryComplete, StatusesHold, ItemsHold, Readable, DekByVersion, ItemsOpen, RowsOpen;
    var p := ReadApply(s1, ids, supply).value;
    var env := p.env;
    var expected := ReadPreview(s0, ids).value.digest;
    ReadPreviewParts(s0, ids);
    StaleParts(s0, s1, s2, ids, supply);
    SameApplyPreparation(s1, s2, env, LoadItems(s1, ids), LoadItems(s2, ids), CurrentRows(s1, env), CurrentRows(s2, env), supply);
    ApplyCommits(s2, ids, env, expected, p.writes);
    InvIds(s2);
    var values := Resolve(s0, env, CurrentRows(s0, env), LoadItems(s0, ids)).value;
    SelectionShows(s0, s2, env, CurrentRows(s0, env), LoadItems(s0, ids), LoadItems(s2, ids), p.writes, supply);
    var s3 := ApplyTransaction(s2, ids, env, expected, p.writes).value;
    SameShows(WriteVersions(s2, p.writes).value, s3, env, values);
  }

  lemma SameShows(a: Db, b: Db, env: Id, values: map<Name, Shown>)
    requires Shows(a, env, values) && a.vars == b.vars
    ensures Shows(b, env, values)
  {
    assert forall id :: IsActive(a, env, id) <==> IsActive(b, env, id);
  }

  lemma SelectionShows(
    s0: Db, s2: Db, env: Id, rows: seq<Variable>, x: seq<Item>, y: seq<Item>, writes: seq<VersionWrite>, supply: Id -> Drawn)
    requires IdsHold(s2) && KeysUnique(s2) && env in s2.envs
    requires SameRows(rows, CurrentRows(s2, env)) && SameItems(x, y)
    requires Resolve(s0, env, rows, x).Ok?
    requires PrepareApply(s2, env, y, CurrentRows(s2, env), supply) == Ok(writes)
    requires WriteVersions(s2, writes).Some?
    ensures Shows(WriteVersions(s2, writes).value, env, Resolve(s0, env, rows, x).value)
  {
    hide IdsHold, KeysUnique, CurrentRows, SameItems, SameRows, WriteVersions, Shows, ById, ByKey, DekByVersion, MapsOf, ListsRows;
    hide ActiveValues, ResolveItems, PrepareItems;
    RowsHaveTheirKeys(s2, env, rows);
    ActiveValuesList(s0, rows, map[]);
    var start := ActiveValues(s0, rows, map[]).value;
    StartShows(s2, env, rows, start);
    CurrentMaps(s2, env);
    var current := CurrentRows(s2, env);
    WritesShow(s0, rows, s2, s2, env, s2.active[env], DekByVersion(s2, env, s2.active[env]).value,
               ById(current), ByKey(current), start, x, y, supply);
  }
}
