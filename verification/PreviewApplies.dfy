/** An apply right after its preview succeeds, whenever identifiers are new and counters have a next number. */
module PreviewApplies {
  import opened Text
  import opened Bytes
  import opened Crypto
  import opened DotenvRender
  import opened Model
  import opened Fingerprint
  import opened Store
  import opened StoreProofs
  import opened StoreRuns
  import opened Outcomes
  import opened RowOutcomes
  import opened Workflow
  import opened WorkflowStale
  import opened PreviewContents
  import opened PreviewExport
  import opened CallValues

  // ----- each item fits the stored rows

  lemma {:induction false} ItemFitsRows(
    db: Db, env: Id, rows: seq<Variable>, values: map<Name, Shown>, items: seq<Item>, i: nat)
    requires ResolveItems(db, env, rows, values, items).Ok? && i < |items|
    requires forall i, j :: 0 <= i < j < |items| ==> items[i].key != items[j].key
    ensures items[i].action == ADD ==> items[i].key !in values
    ensures items[i].action != ADD ==> BaseRow(rows, items[i]).Some? && BaseRow(rows, items[i]).value.key == items[i].key
    decreases |items|
  {
    hide BaseRow, DecryptItem;
    if i > 0 {
      var next := ResolveItem(db, env, rows, values, items[0]).value;
      ItemEffect(db, env, rows, values, items[0]);
      assert items[1..][i - 1] == items[i];
      ItemFitsRows(db, env, rows, next, items[1..], i - 1);
    }
  }

  /** Every item of a selection that was previewed is about the row it names, or about a key without an ACTIVE row. */
  lemma PreviewedAbout(db: Db, env: Id, items: seq<Item>)
    requires IdsHold(db) && KeysUnique(db) && ItemsHold(db) && Resolve(db, env, CurrentRows(db, env), items).Ok?
    requires forall i, j :: 0 <= i < j < |items| ==> items[i].key != items[j].key
    requires forall i :: 0 <= i < |items| ==> ItemAllowed(items[i])
    ensures forall i :: 0 <= i < |items| ==> AboutRow(db, env, items[i])
  {
    hide IdsHold, KeysUnique, ItemsHold, CurrentRows, Shows, ListsRows, ActiveValues, ResolveItems, SameRows, AboutRow;
    var rows := CurrentRows(db, env);
    assert SameRows(rows, rows) by { SameRowsReflexive(rows); }
    RowsHaveTheirKeys(db, env, rows);
    ActiveValuesList(db, rows, map[]);
    var start := ActiveValues(db, rows, map[]).value;
    StartShows(db, env, rows, start);
    forall i | 0 <= i < |items| ensures AboutRow(db, env, items[i]) {
      ItemFitsRows(db, env, rows, start, items, i);
      FitsAbout(db, env, start, items[i]);
    }
  }

  lemma FitsAbout(db: Db, env: Id, start: map<Name, Shown>, item: Item)
    requires IdsHold(db) && Shows(db, env, start) && ItemAllowed(item)
    requires item.action == ADD ==> item.key !in start
    requires var row := BaseRow(CurrentRows(db, env), item); item.action != ADD ==> row.Some? && row.value.key == item.key
    ensures AboutRow(db, env, item)
  {
    hide IdsHold, CurrentRows, OrderedIds;
    RowsAreVariables(db, env);
    if item.action == ADD {
      forall id | id in db.vars && db.vars[id].env == env && db.vars[id].key == item.key ensures db.vars[id].lifecycle == DELETED {
        assert IsActive(db, env, id) <==> db.vars[id].lifecycle == ACTIVE;
      }
    }
  }

  // ----- the two maps hold every row

  lemma {:induction false} MapsComplete(rows: seq<Variable>)
    requires forall i, j :: 0 <= i < j < |rows| ==> rows[i].id != rows[j].id && rows[i].key != rows[j].key
    ensures forall i :: 0 <= i < |rows| ==> rows[i].id in ById(rows) && ById(rows)[rows[i].id] == rows[i]
    ensures forall i :: 0 <= i < |rows| ==> rows[i].key in ByKey(rows) && ByKey(rows)[rows[i].key] == rows[i]
  {
    if rows != [] {
      var front, last := rows[..|rows| - 1], rows[|rows| - 1];
      MapsComplete(front);
      forall i | 0 <= i < |rows| ensures rows[i].id in ById(rows) && ById(rows)[rows[i].id] == rows[i] {
        if i < |front| { assert front[i] == rows[i]; }
      }
      forall i | 0 <= i < |rows| ensures rows[i].key in ByKey(rows) && ByKey(rows)[rows[i].key] == rows[i] {
        if i < |front| { assert front[i] == rows[i]; }
      }
    }
  }

  /** Each variable of the environment stands in both maps. */
  lemma CurrentComplete(db: Db, env: Id)
    requires IdsHold(db) && KeysUnique(db)
    ensures var byId, byKey := ById(CurrentRows(db, env)), ByKey(CurrentRows(db, env));
      forall id :: id in db.vars && db.vars[id].env == env ==>
        id in byId && byId[id] == db.vars[id] && db.vars[id].key in byKey && byKey[db.vars[id].key] == db.vars[id]
  {
    hide IdsHold, OrderedIds, CurrentRows, ById, ByKey, KeysUnique;
    var rows := CurrentRows(db, env);
    RowsAreVariables(db, env);
    OrderedIdsComplete(EnvironmentKeys(db, env));
    assert SameRows(rows, rows) by { SameRowsReflexive(rows); }
    RowsHaveTheirKeys(db, env, rows);
    MapsComplete(rows);
    forall id | id in db.vars && db.vars[id].env == env
      ensures id in ById(rows) && ById(rows)[id] == db.vars[id]
      ensures db.vars[id].key in ByKey(rows) && ByKey(rows)[db.vars[id].key] == db.vars[id]
    {
      var i := RowOfVariable(db, env, id);
    }
  }

  // ----- every write is prepared and would commit

  /** What a call needs besides the stored rows: a new identifier for a new variable, a next version for an old one. */
  predicate CanFollow(db: Db, env: Id, item: Item, drawn: Drawn) {
    && drawn.id !in db.vars
    && forall id :: id in db.vars && db.vars[id].env == env && db.vars[id].key == item.key ==> HasNext(db.vars[id].version)
  }

  /** The write inserts a drawn variable, or changes the row of its key. */
  predicate Targets(db: Db, env: Id, drawn: Drawn, w: VersionWrite) {
    || (w.variable == drawn.id && w.variable !in db.vars)
    || (w.variable in db.vars && db.vars[w.variable].env == env && db.vars[w.variable].key == w.key)
  }

  lemma BasisFits(db: Db, env: Id, dek: Count, key: Key, item: Item, drawn: Drawn)
    requires IdsHold(db) && KeysUnique(db) && HistoryComplete(db) && env in db.envs
    requires AboutRow(db, env, item) && CanFollow(db, env, item, drawn)
    requires item.action != DELETE ==> DecryptItem(db, env, item).Ok?
    requires forall id :: id in db.vars && db.vars[id].env == env ==> DecryptRow(db, db.vars[id]).Ok?
    ensures var basis := ItemBasis(db, env, ById(CurrentRows(db, env)), ByKey(CurrentRows(db, env)), item, drawn);
      basis.Ok?
      && var w := WriteOf(db.envs[env].service, env, dek, key, item, basis.value, drawn.random);
         w.sealed.dek == dek && w.key == item.key && WriteVersion(db, w).Some? && Targets(db, env, drawn, w)
  {
    hide IdsHold, KeysUnique, HistoryComplete, CurrentRows, ById, ByKey, DecryptItem, DecryptRow, WriteVersion;
    var byId, byKey := ById(CurrentRows(db, env)), ByKey(CurrentRows(db, env));
    CurrentComplete(db, env);
    CurrentMaps(db, env);
    KeyRows(db, env, item.key);
    var basis := ItemBasis(db, env, byId, byKey, item, drawn);
    var w := WriteOf(db.envs[env].service, env, dek, key, item, basis.value, drawn.random);
    if w.expected.None? {
      Inserts(db, w);
    } else {
      RowId(db, w.variable);
      Updates(db, w);
    }
  }

  lemma RowId(db: Db, id: Id)
    requires IdsHold(db) && id in db.vars
    ensures db.vars[id].id == id
  {
  }

  /** A key in the map of the rows is the key of a variable of the environment. */
  lemma KeyRows(db: Db, env: Id, key: Name)
    requires IdsHold(db)
    ensures var byKey := ByKey(CurrentRows(db, env));
      key in byKey ==>
        byKey[key].id in db.vars && db.vars[byKey[key].id] == byKey[key] && byKey[key].env == env && byKey[key].key == key
  {
    hide IdsHold, OrderedIds, CurrentRows;
    RowsAreVariables(db, env);
    KeysOf(CurrentRows(db, env), key);
  }

  lemma {:induction false} KeysOf(rows: seq<Variable>, key: Name)
    ensures key in ByKey(rows) ==> ByKey(rows)[key] in rows && ByKey(rows)[key].key == key
  {
    if rows != [] { KeysOf(rows[..|rows| - 1], key); }
  }

  lemma Inserts(db: Db, w: VersionWrite)
    requires HistoryComplete(db) && w.expected.None? && w.variable !in db.vars
    requires forall id :: id in db.vars && db.vars[id].env == w.env ==> db.vars[id].key != w.key
    ensures WriteVersion(db, w).Some?
  {
  }

  lemma Updates(db: Db, w: VersionWrite)
    requires HistoryComplete(db) && w.variable in db.vars && w.expected == Some(db.vars[w.variable].version)
    requires db.vars[w.variable].env == w.env && db.vars[w.variable].lifecycle == w.from && w.version == db.vars[w.variable].version + 1
    ensures WriteVersion(db, w).Some?
  {
  }

  // ----- writes to different variables and keys do not disturb each other

  lemma Undisturbed(db: Db, w: VersionWrite, x: VersionWrite)
    requires WriteVersion(db, w).Some? && WriteVersion(db, x).Some? && w.variable != x.variable && w.key != x.key
    ensures WriteVersion(WriteVersion(db, w).value, x).Some?
  {
    hide WriteVersion, KeyTaken;
    var m := WriteVersion(db, w).value;
    VersionOutcome(db, w, m);
    CommitsExactly(db, x);
    CommitsExactly(m, x);
    if x.expected.None? { KeyStillFree(db, m, w, x); }
  }

  /** When a write commits. */
  predicate WouldCommit(db: Db, w: VersionWrite) {
    && (w.variable, w.version) !in db.history
    && match w.expected
       case None => w.variable !in db.vars && !KeyTaken(db, w.env, w.key)
       case Some(version) =>
         w.variable in db.vars && db.vars[w.variable].env == w.env && db.vars[w.variable].version == version
         && db.vars[w.variable].lifecycle == w.from
  }

  lemma CommitsExactly(db: Db, w: VersionWrite)
    ensures WriteVersion(db, w).Some? <==> WouldCommit(db, w)
  {
    hide KeyTaken, HistoryOf, After;
  }

  lemma KeyStillFree(db: Db, m: Db, w: VersionWrite, x: VersionWrite)
    requires OnlyKey(db.vars, m.vars, w.variable) && RowWritten(db, m, w) && w.key != x.key && !KeyTaken(db, x.env, x.key)
    ensures !KeyTaken(m, x.env, x.key)
  {
  }

  predicate Apart(writes: seq<VersionWrite>) {
    forall i, j :: 0 <= i < j < |writes| ==> writes[i].variable != writes[j].variable && writes[i].key != writes[j].key
  }

  lemma {:induction false} AllCommit(db: Db, writes: seq<VersionWrite>)
    requires Apart(writes) && forall i :: 0 <= i < |writes| ==> WriteVersion(db, writes[i]).Some?
    ensures WriteVersions(db, writes).Some?
    decreases |writes|
  {
    hide WriteVersion;
    if writes != [] {
      var rest := writes[1..];
      var next := WriteVersion(db, writes[0]).value;
      forall i | 0 <= i < |rest| ensures WriteVersion(next, rest[i]).Some? {
        assert rest[i] == writes[i + 1];
        Undisturbed(db, writes[0], rest[i]);
      }
      AllCommit(next, rest);
    }
  }

  // ----- the preparation

  predicate ItemCan(db: Db, env: Id, item: Item, drawn: Drawn) {
    && AboutRow(db, env, item) && CanFollow(db, env, item, drawn)
    && (item.action != DELETE ==> DecryptItem(db, env, item).Ok?)
  }

  /** Each write is under the given key version, for the key of its item, commits alone, and has its own target. */
  predicate WriteReady(db: Db, env: Id, dek: Count, item: Item, drawn: Drawn, w: VersionWrite) {
    w.sealed.dek == dek && w.key == item.key && WriteVersion(db, w).Some? && Targets(db, env, drawn, w)
  }

  lemma {:induction false} AllPrepared(db: Db, env: Id, dek: Count, key: Key, items: seq<Item>, supply: Id -> Drawn)
    requires IdsHold(db) && KeysUnique(db) && HistoryComplete(db) && env in db.envs
    requires forall i :: 0 <= i < |items| ==> ItemCan(db, env, items[i], supply(items[i].id))
    requires forall id :: id in db.vars && db.vars[id].env == env ==> DecryptRow(db, db.vars[id]).Ok?
    ensures var rows := CurrentRows(db, env);
            var r := PrepareItems(db, env, dek, key, ById(rows), ByKey(rows), items, supply);
      r.Ok? && |r.value| == |items|
      && forall i :: 0 <= i < |items| ==> WriteReady(db, env, dek, items[i], supply(items[i].id), r.value[i])
    decreases |items|
  {
    hide IdsHold, KeysUnique, HistoryComplete, CurrentRows, ById, ByKey, DecryptItem, DecryptRow, WriteVersion, ItemBasis, WriteOf, AboutRow, CanFollow, Targets;
    if items != [] {
      var rows := CurrentRows(db, env);
      BasisFits(db, env, dek, key, items[0], supply(items[0].id));
      AllPrepared(db, env, dek, key, items[1..], supply);
      var r := PrepareItems(db, env, dek, key, ById(rows), ByKey(rows), items, supply);
      forall i | 0 <= i < |items| ensures WriteReady(db, env, dek, items[i], supply(items[i].id), r.value[i]) {
        if i > 0 { assert items[1..][i - 1] == items[i] && r.value[1..][i - 1] == r.value[i]; }
      }
    }
  }

  lemma ReadyApart(db: Db, env: Id, dek: Count, items: seq<Item>, supply: Id -> Drawn, writes: seq<VersionWrite>)
    requires |writes| == |items| && forall i :: 0 <= i < |items| ==> WriteReady(db, env, dek, items[i], supply(items[i].id), writes[i])
    requires forall i, j :: 0 <= i < j < |items| ==> items[i].key != items[j].key && supply(items[i].id).id != supply(items[j].id).id
    ensures Apart(writes)
  {
    hide WriteVersion;
    forall i, j | 0 <= i < j < |writes| ensures writes[i].variable != writes[j].variable && writes[i].key != writes[j].key {
      assert WriteReady(db, env, dek, items[i], supply(items[i].id), writes[i]);
      assert WriteReady(db, env, dek, items[j], supply(items[j].id), writes[j]);
    }
  }

  // ----- the requests

  predicate Markable(db: Db, read: Request, digest: Digest) {
    && read.id in db.requests
    && var r := db.requests[read.id];
       r.revision == read.revision && r.status == READY_TO_APPLY && r.fingerprint == Some(digest) && HasNext(r.revision)
       && r.approved && !r.rejected
  }

  lemma {:induction false} MarksCommit(db: Db, seen: seq<Request>, digest: Digest)
    requires forall i :: 0 <= i < |seen| ==> Markable(db, seen[i], digest)
    requires forall i, j :: 0 <= i < j < |seen| ==> seen[i].id != seen[j].id
    ensures MarkRequests(db, seen, digest).Ok?
    decreases |seen|
  {
    if seen != [] {
      var m := MarkedFirst(db, seen[0]);
      forall i | 0 <= i < |seen[1..]| ensures Markable(m, seen[1..][i], digest) {
        assert Markable(db, seen[i + 1], digest) && seen[i + 1].id != seen[0].id;
      }
      MarksCommit(m, seen[1..], digest);
    }
  }

  // ----- the state after a preview

  lemma {:induction false} SameRequestBytes(a: seq<Request>, b: seq<Request>)
    requires |a| == |b| && forall i :: 0 <= i < |a| ==> a[i].id == b[i].id && a[i].revision == b[i].revision
    ensures RequestsBytes(a) == RequestsBytes(b)
  {
    hide Utf8, SignedBytes, Field;
    if a != [] { SameRequestBytes(a[1..], b[1..]); }
  }

  lemma SameDigest(a: seq<Request>, b: seq<Request>, items: seq<Item>, rows: seq<Variable>)
    requires |a| == |b| && forall i :: 0 <= i < |a| ==> a[i].id == b[i].id && a[i].revision == b[i].revision
    ensures SelectionDigest(a, items, rows) == SelectionDigest(b, items, rows)
  {
    hide RequestsBytes, ItemsBytes, RowsBytes, Utf8;
    SameRequestBytes(a, b);
  }

  lemma SameValidity(a: seq<Request>, b: seq<Request>, items: seq<Item>)
    requires |a| == |b| && SelectionValid(a, items)
    requires forall i :: 0 <= i < |a| ==> a[i].id == b[i].id && a[i].env == b[i].env && a[i].status == b[i].status && a[i].approved == b[i].approved
    ensures SelectionValid(b, items)
  {
    hide DistinctComplete;
    forall i | 0 <= i < |items| ensures Known(b, items[i].request) {
      assert Known(a, items[i].request);
      var j :| 0 <= j < |a| && a[j].id == items[i].request;
      assert b[j].id == items[i].request;
    }
  }

  lemma {:induction false} SameItemsLoaded(a: Db, b: Db, ids: seq<Id>)
    requires a.items == b.items
    ensures LoadItems(a, ids) == LoadItems(b, ids)
  {
    if ids != [] {
      assert RequestKeys(a, ids[0]) == RequestKeys(b, ids[0]);
      SameItemsLoaded(a, b, ids[1..]);
    }
  }

  lemma SameRowsLoaded(a: Db, b: Db, env: Id)
    requires a.vars == b.vars
    ensures CurrentRows(a, env) == CurrentRows(b, env)
  {
    assert EnvironmentKeys(a, env) == EnvironmentKeys(b, env);
  }

  lemma {:induction false} LoadsWhenPresent(db: Db, ids: seq<Id>)
    requires forall i :: 0 <= i < |ids| ==> ids[i] in db.requests
    ensures LoadRequests(db, ids).Ok?
  {
    if ids != [] { LoadsWhenPresent(db, ids[1..]); }
  }

  /** A request row with the fingerprint of a preview. */
  predicate Stamped(s: Db, t: Db, id: Id, digest: Digest) {
    id in s.requests && id in t.requests && t.requests[id] == s.requests[id].(fingerprint := Some(digest))
  }

  lemma RowsStamped(s: Db, ids: seq<Id>, p: Preview, t: Db)
    requires IdsHold(s) && ReadPreview(s, ids) == Ok(p) && StorePreview(s, p.requests, p.digest) == Ok(t)
    ensures t == s.(requests := t.requests, audit := t.audit)
    ensures LoadRequests(s, ids) == Ok(p.requests) && LoadRequests(t, ids).Ok?
    ensures forall i :: 0 <= i < |ids| ==> Stamped(s, t, ids[i], p.digest) && s.requests[ids[i]].id == ids[i]
  {
    hide IdsHold, ReadPreview, AuditedEach, StorePreview, LoadRequests;
    PreviewRequests(s, ids, p);
    PreviewOutcome(s, p.requests, p.digest);
    forall i | 0 <= i < |ids| ensures Stamped(s, t, ids[i], p.digest) && s.requests[ids[i]].id == ids[i] {
      assert p.requests[i] == s.requests[ids[i]];
      RequestId(s, ids[i]);
    }
    LoadsWhenPresent(t, ids);
  }

  /** The selection as an apply reads it after the preview: valid, with the digest of the preview. */
  lemma AfterPreview(s: Db, ids: seq<Id>, p: Preview, t: Db)
    requires IdsHold(s) && ReadPreview(s, ids) == Ok(p) && StorePreview(s, p.requests, p.digest) == Ok(t)
    ensures ids != [] && ids[0] in s.requests && t == s.(requests := t.requests, audit := t.audit)
    ensures var env := s.requests[ids[0]].env;
      && env in t.envs && !t.envs[env].archived && !t.envs[env].serviceArchived
      && LoadRequests(t, ids).Ok? && LoadItems(t, ids) == LoadItems(s, ids) && CurrentRows(t, env) == CurrentRows(s, env)
      && SelectionValid(LoadRequests(t, ids).value, LoadItems(t, ids)) && LoadRequests(t, ids).value[0].env == env
      && SelectionDigest(LoadRequests(t, ids).value, LoadItems(t, ids), CurrentRows(t, env)) == p.digest
  {
    hide IdsHold, ReadPreview, StorePreview, LoadRequests, SelectionValid, SelectionDigest, LoadItems, CurrentRows, Resolve;
    ReadPreviewParts(s, ids);
    PreviewOpen(s, ids, p);
    RowsStamped(s, ids, p, t);
    var env := s.requests[ids[0]].env;
    var before, after := p.requests, LoadRequests(t, ids).value;
    forall i | 0 <= i < |ids|
      ensures after[i] == before[i].(fingerprint := Some(p.digest))
    {
      assert Stamped(s, t, ids[i], p.digest);
    }
    SameItemsLoaded(s, t, ids);
    SameRowsLoaded(s, t, env);
    SameValidity(before, after, LoadItems(s, ids));
    SameDigest(before, after, LoadItems(s, ids), CurrentRows(s, env));
  }

  lemma PreviewRequests(s: Db, ids: seq<Id>, p: Preview)
    requires ReadPreview(s, ids) == Ok(p)
    ensures LoadRequests(s, ids) == Ok(p.requests)
  {
    hide SelectionValid, SelectionDigest, LoadItems, CurrentRows, Resolve, Render, PreviewEntries, LoadRequests;
  }

  lemma PreviewOpen(s: Db, ids: seq<Id>, p: Preview)
    requires ReadPreview(s, ids) == Ok(p) && ids != [] && ids[0] in s.requests
    ensures var env := s.requests[ids[0]].env; env in s.envs && !s.envs[env].archived && !s.envs[env].serviceArchived
  {
    hide SelectionValid, SelectionDigest, LoadItems, CurrentRows, Resolve, Render, PreviewEntries;
  }

  /** Distinct requests, new identifiers, and a next number for every counter that an apply moves. */
  predicate Supplied(s: Db, ids: seq<Id>, supply: Id -> Drawn) {
    && ids != [] && ids[0] in s.requests
    && var items, env := LoadItems(s, ids), s.requests[ids[0]].env;
    && (forall i, j :: 0 <= i < j < |ids| ==> ids[i] != ids[j])
    && (forall i :: 0 <= i < |ids| ==> ids[i] in s.requests && HasNext(s.requests[ids[i]].revision))
    && (forall i :: 0 <= i < |items| ==> CanFollow(s, env, items[i], supply(items[i].id)))
    && (forall i, j :: 0 <= i < j < |items| ==> supply(items[i].id).id != supply(items[j].id).id)
  }

  /** The transaction of the preview commits in the state that was read. */
  lemma PreviewStores(s: Db, ids: seq<Id>, p: Preview)
    requires IdsHold(s) && ReadPreview(s, ids) == Ok(p)
    ensures StorePreview(s, p.requests, p.digest).Ok?
  {
    hide IdsHold, ReadPreview, StorePreview, LoadRequests, SelectionDigest, LoadItems, CurrentRows, Resolve, DistinctComplete, Known;
    hide OnlyRows, AuditedEach, HoldDigest;
    ReadPreviewParts(s, ids);
    PreviewRequests(s, ids, p);
    PreviewOutcome(s, p.requests, p.digest);
    forall i | 0 <= i < |p.requests| ensures ReadyRow(s, p.requests[i]) {
      assert p.requests[i] == s.requests[ids[i]];
      RequestId(s, ids[i]);
    }
  }

  lemma SameAbout(s: Db, t: Db, env: Id, item: Item, drawn: Drawn)
    requires t.vars == s.vars && AboutRow(s, env, item) && CanFollow(s, env, item, drawn)
    ensures AboutRow(t, env, item) && CanFollow(t, env, item, drawn)
  {
  }

  lemma LoadedAllowed(s: Db, ids: seq<Id>)
    requires IdsHold(s) && ItemsHold(s)
    ensures forall i :: 0 <= i < |LoadItems(s, ids)| ==> ItemAllowed(LoadItems(s, ids)[i])
  {
    hide IdsHold, LoadItems, ItemAllowed;
    LoadedItems(s, ids);
  }

  /** Every item of the selection can be written in the state after the preview. */
  lemma AllCan(s: Db, ids: seq<Id>, p: Preview, t: Db, supply: Id -> Drawn)
    requires Inv(s) && ReadPreview(s, ids) == Ok(p) && StorePreview(s, p.requests, p.digest) == Ok(t) && Inv(t) && Supplied(s, ids, supply)
    ensures var env, items := s.requests[ids[0]].env, LoadItems(t, ids);
      && env in t.envs && (forall i :: 0 <= i < |items| ==> ItemCan(t, env, items[i], supply(items[i].id)))
      && (forall i, j :: 0 <= i < j < |items| ==> items[i].key != items[j].key)
  {
    hide Inv, IdsHold, KeysUnique, HistoryComplete, StatusesHold, ItemsHold, Readable, ReadPreview, StorePreview, LoadRequests, SelectionDigest;
    hide LoadItems, CurrentRows, Resolve, DecryptItem, AboutRow, CanFollow, OneReadyEnvironment, Known, NeedsValue;
    InvIds(s);
    InvIds(t);
    AfterPreview(s, ids, p, t);
    ReadPreviewParts(s, ids);
    var env, items := s.requests[ids[0]].env, LoadItems(t, ids);
    LoadedAllowed(s, ids);
    PreviewedAbout(s, env, items);
    OneEnvironment(t, ids, env);
    LoadedItemsOpen(t, ids, env);
    forall i | 0 <= i < |items| ensures ItemCan(t, env, items[i], supply(items[i].id)) {
      SameAbout(s, t, env, items[i], supply(items[i].id));
      GivenValue(items[i]);
    }
  }

  lemma GivenValue(item: Item)
    ensures !NeedsValue(item) && item.action != DELETE ==> item.proposed.Some?
  {
  }

  lemma OneEnvironment(t: Db, ids: seq<Id>, env: Id)
    requires ids != [] && LoadRequests(t, ids).Ok? && LoadRequests(t, ids).value[0].env == env
    requires SelectionValid(LoadRequests(t, ids).value, LoadItems(t, ids))
    ensures forall i :: 0 <= i < |ids| ==> ids[i] in t.requests && t.requests[ids[i]].env == env
  {
    hide LoadRequests, LoadItems, DistinctComplete, Known;
    forall i | 0 <= i < |ids| ensures ids[i] in t.requests && t.requests[ids[i]].env == env {
      assert LoadRequests(t, ids).value[i].env == env;
    }
  }

  /** The read phase of the apply succeeds, with writes that commit together. */
  lemma ApplyReads(s: Db, ids: seq<Id>, p: Preview, t: Db, supply: Id -> Drawn) returns (writes: seq<VersionWrite>)
    requires Inv(s) && ReadPreview(s, ids) == Ok(p) && StorePreview(s, p.requests, p.digest) == Ok(t) && Inv(t) && Supplied(s, ids, supply)
    ensures var env := s.requests[ids[0]].env;
      && ReadApply(t, ids, supply) == Ok(Prepared(env, writes)) && env in t.active
      && WriteVersions(t, writes).Some? && forall i :: 0 <= i < |writes| ==> writes[i].sealed.dek == t.active[env]
  {
    hide Inv, IdsHold, KeysUnique, HistoryComplete, StatusesHold, ItemsHold, Readable, ReadPreview, StorePreview, LoadRequests, SelectionDigest;
    hide LoadItems, CurrentRows, DekByVersion, ById, ByKey, PrepareItems, ItemCan, SelectionValid, WriteVersion, WriteVersions, Targets, Apart;
    InvIds(t);
    InvIds(s);
    AfterPreview(s, ids, p, t);
    AllCan(s, ids, p, t, supply);
    var env, items := s.requests[ids[0]].env, LoadItems(t, ids);
    ActiveKey(t, env);
    var dek := t.active[env];
    var key := DekByVersion(t, env, dek).value;
    forall id | id in t.vars && t.vars[id].env == env ensures DecryptRow(t, t.vars[id]).Ok? { RowOpened(t, id); }
    AllPrepared(t, env, dek, key, items, supply);
    var rows := CurrentRows(t, env);
    writes := PrepareItems(t, env, dek, key, ById(rows), ByKey(rows), items, supply).value;
    forall i | 0 <= i < |writes| ensures WriteVersion(t, writes[i]).Some? && writes[i].sealed.dek == dek {
      assert WriteReady(t, env, dek, items[i], supply(items[i].id), writes[i]);
    }
    ReadyApart(t, env, dek, items, supply, writes);
    AllCommit(t, writes);
  }

  /**
   * An apply read right after a stored preview commits with the digest of that preview, when its requests are
   * distinct, its identifiers new, and the counters it moves have a next number.
   */
  lemma PreviewThenApply(s: Db, ids: seq<Id>, p: Preview, supply: Id -> Drawn) returns (t: Db, q: Prepared, after: Db)
    requires Inv(s) && ReadPreview(s, ids) == Ok(p) && Supplied(s, ids, supply)
    ensures StorePreview(s, p.requests, p.digest) == Ok(t)
    ensures ReadApply(t, ids, supply) == Ok(q)
    ensures ApplyTransaction(t, ids, q.env, p.digest, q.writes) == Ok(after)
  {
    hide Inv, IdsHold, KeysUnique, HistoryComplete, StatusesHold, ItemsHold, Readable, ReadPreview, StorePreview, ReadApply, Grows;
    hide LoadRequests, SelectionDigest, LoadItems, CurrentRows, SelectionValid, WriteVersions, MarkRequests;
    InvIds(s);
    PreviewStores(s, ids, p);
    t := StorePreview(s, p.requests, p.digest).value;
    OneTransaction(s, PreviewOp(p.requests, p.digest));
    assert Commit(s, PreviewOp(p.requests, p.digest)) == Ok(t);
    var writes := ApplyReads(s, ids, p, t, supply);
    q := Prepared(s.requests[ids[0]].env, writes);
    AfterPreview(s, ids, p, t);
    RowsStamped(s, ids, p, t);
    var seen := LoadRequests(t, ids).value;
    assert ApplyChecks(t, ids, q.env, p.digest, writes) == Ok(seen) by {
      forall i | 0 <= i < |seen| ensures seen[i].fingerprint == Some(p.digest) { assert Stamped(s, t, ids[i], p.digest); }
    }
    var m := WriteVersions(t, writes).value;
    VersionsOnly(t, writes);
    SeenMarkable(s, ids, p, t, m, seen, supply);
    MarksCommit(m, seen, p.digest);
    after := MarkRequests(m, seen, p.digest).value;
  }

  lemma SeenMarkable(s: Db, ids: seq<Id>, p: Preview, t: Db, m: Db, seen: seq<Request>, supply: Id -> Drawn)
    requires Inv(t) && LoadRequests(t, ids) == Ok(seen) && SelectionValid(seen, LoadItems(t, ids)) && Supplied(s, ids, supply)
    requires forall i :: 0 <= i < |ids| ==> Stamped(s, t, ids[i], p.digest) && s.requests[ids[i]].id == ids[i]
    requires m.requests == t.requests
    ensures forall i :: 0 <= i < |seen| ==> Markable(m, seen[i], p.digest)
    ensures forall i, j :: 0 <= i < j < |seen| ==> seen[i].id != seen[j].id
  {
    hide IdsHold, KeysUnique, HistoryComplete, ItemsHold, Readable, LoadRequests, LoadItems, DistinctComplete, Known, CanFollow, Missing, StatusOf;
    forall i | 0 <= i < |seen| ensures Markable(m, seen[i], p.digest) && seen[i].id == ids[i] {
      assert Stamped(s, t, ids[i], p.digest) && seen[i] == t.requests[ids[i]];
      assert seen[i].status == READY_TO_APPLY && seen[i].approved;
      assert RequestAllowed(t.requests[ids[i]]);
    }
  }

  /** Preview, apply, export: the committed environment exports the previewed text. */
  lemma PreviewApplyExport(s: Db, ids: seq<Id>, p: Preview, supply: Id -> Drawn) returns (q: Prepared, after: Db)
    requires Inv(s) && ReadPreview(s, ids) == Ok(p) && Supplied(s, ids, supply)
    ensures after == Run(s, [PreviewOp(p.requests, p.digest), ApplyOp(ids, q.env, p.digest, q.writes)])
    ensures forall listed :: ListsActive(after, q.env, listed) ==>
              (forall i :: 0 <= i < |listed| ==> listed[i] in after.vars) && Export(after, listed) == Ok(p.text)
    ensures forall id :: id in ids ==> id in after.requests && after.requests[id].status == APPLIED
  {
    hide Inv, ReadPreview, StorePreview, ReadApply, ApplyTransaction, ListsActive, Export, Shaped, LoadItems, AppliedFrom, AuditedEach, OtherRows;
    hide IdsHold, KeysUnique, HistoryComplete, StatusesHold, ItemsHold, Readable, Run1;
    var t: Db;
    t, q, after := PreviewThenApply(s, ids, p, supply);
    var preview, apply := PreviewOp(p.requests, p.digest), ApplyOp(ids, q.env, p.digest, q.writes);
    assert Run1(s, preview) == t by { PreviewRuns(s, p, t); }
    assert [preview][1..] == [] && Run(s, [preview]) == Run(t, []) == t;
    assert Run(t, []) == t;
    OneTransaction(s, preview);
    InvIds(t);
    ApplyOutcome(t, ids, q.env, p.digest, q.writes, after);
    forall id | id in ids ensures after.requests[id].status == APPLIED { AppliedStatus(t.requests[id], after.requests[id]); }
    assert Commit(t, apply) == Ok(after);
    forall listed | ListsActive(after, q.env, listed)
      ensures (forall i :: 0 <= i < |listed| ==> listed[i] in after.vars) && Export(after, listed) == Ok(p.text)
    {
      PreviewIsExported(s, [preview], t, [], t, after, ids, p, q, supply, listed);
    }
    assert after == Run1(t, apply) by { ApplyRuns(s, t, after, ids, p, q, supply); }
    assert [preview, apply][1..] == [apply] && [apply][1..] == [];
    assert Run(s, [preview, apply]) == Run(t, [apply]) == Run(after, []);
  }

  lemma PreviewRuns(s: Db, p: Preview, t: Db)
    requires StorePreview(s, p.requests, p.digest) == Ok(t)
    ensures Run1(s, PreviewOp(p.requests, p.digest)) == t
  {
    hide StorePreview;
  }

  lemma AppliedStatus(r: Request, after: Request)
    requires AppliedFrom(r, after)
    ensures after.status == APPLIED
  {
  }

  lemma ApplyRuns(s: Db, t: Db, after: Db, ids: seq<Id>, p: Preview, q: Prepared, supply: Id -> Drawn)
    requires Inv(t) && ReadApply(t, ids, supply) == Ok(q) && ApplyTransaction(t, ids, q.env, p.digest, q.writes) == Ok(after)
    ensures Run1(t, ApplyOp(ids, q.env, p.digest, q.writes)) == after
  {
    hide Inv, ReadApply, ApplyTransaction, ApplyChecks, WriteVersions, Shaped, WritesShaped, Grows, Run1;
    InvGrows(t);
    ApplyCommits(t, ids, q.env, p.digest, q.writes);
    ApplyIsShaped(t, t, ids, p.digest, supply);
    RunCommits(t, ApplyOp(ids, q.env, p.digest, q.writes), after);
  }

  lemma RunCommits(db: Db, op: Op, after: Db)
    requires Shaped(db, op) && Commit(db, op) == Ok(after)
    ensures Run1(db, op) == after
  {
    hide Shaped, Commit;
  }
}
