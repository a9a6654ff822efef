/** Which values a preview shows: for each key, the proposal of its item, or else the row that is there. */
module PreviewContents {
  import opened Text
  import opened Crypto
  import opened DotenvRender
  import opened Model
  import opened Fingerprint
  import opened Store
  import opened StoreProofs
  import opened Workflow
  import opened WorkflowStale
  import opened PreviewExport

  /** An ADD or UPDATE item proposes the value. */
  predicate Proposed(items: seq<Item>, key: Name, shown: Shown) {
    exists i :: 0 <= i < |items| && items[i].key == key && items[i].action != DELETE && items[i].proposed.Some?
                && shown == Shown(items[i].proposed.value.blob.plain, items[i].meta.group, items[i].meta.order)
  }

  /** No item names the key, and an ACTIVE row holds the value. */
  ghost predicate Untouched(db: Db, env: Id, items: seq<Item>, key: Name, shown: Shown) {
    && (forall i :: 0 <= i < |items| ==> items[i].key != key)
    && exists id :: IsActive(db, env, id) && db.vars[id].key == key && shown == ShownRow(db.vars[id])
  }

  predicate Holds(values: map<Name, Shown>, key: Name, shown: Shown) { key in values && values[key] == shown }

  /** The previewed text is the rendering of exactly the proposed and the untouched values. */
  lemma PreviewHolds(db: Db, ids: seq<Id>, preview: Preview) returns (values: map<Name, Shown>)
    requires IdsHold(db) && KeysUnique(db) && ReadPreview(db, ids) == Ok(preview)
    ensures ids != [] && ids[0] in db.requests
    ensures preview.text == Render(PreviewEntries(values))
    ensures forall key: Name, shown ::
              Holds(values, key, shown) <==>
              Proposed(LoadItems(db, ids), key, shown) || Untouched(db, db.requests[ids[0]].env, LoadItems(db, ids), key, shown)
  {
    hide IdsHold, KeysUnique, ReadPreview, LoadItems, LoadRequests, CurrentRows, SelectionDigest, Resolve, SelectionValid;
    hide PreviewEntries, Render, Shows, ListsRows, Holds, Proposed, Untouched;
    ReadPreviewParts(db, ids);
    var env, items := db.requests[ids[0]].env, LoadItems(db, ids);
    var rows := CurrentRows(db, env);
    values := Resolve(db, env, rows, items).value;
    DistinctItems(LoadRequests(db, ids).value, items);
    forall key: Name, shown
      ensures Holds(values, key, shown) <==> Proposed(items, key, shown) || Untouched(db, env, items, key, shown)
    {
      ResolvedAt(db, env, items, key, shown);
    }
  }

  lemma DistinctItems(requests: seq<Request>, items: seq<Item>)
    requires SelectionValid(requests, items)
    ensures forall i, j :: 0 <= i < j < |items| ==> items[i].key != items[j].key
  {
  }

  lemma ResolvedAt(db: Db, env: Id, items: seq<Item>, key: Name, shown: Shown)
    requires IdsHold(db) && KeysUnique(db) && Resolve(db, env, CurrentRows(db, env), items).Ok?
    requires forall i, j :: 0 <= i < j < |items| ==> items[i].key != items[j].key
    ensures Holds(Resolve(db, env, CurrentRows(db, env), items).value, key, shown) <==>
            Proposed(items, key, shown) || Untouched(db, env, items, key, shown)
  {
    hide IdsHold, KeysUnique, CurrentRows, Shows, ListsRows, Holds, Proposed, Untouched, ActiveValues, ResolveItems, SameRows;
    var rows := CurrentRows(db, env);
    assert SameRows(rows, rows) by { SameRowsReflexive(rows); }
    RowsHaveTheirKeys(db, env, rows);
    ActiveValuesList(db, rows, map[]);
    var start := ActiveValues(db, rows, map[]).value;
    StartShows(db, env, rows, start);
    ItemsAt(db, env, rows, start, items, key, shown);
    ShownAt(db, env, start, items, key, shown);
  }

  lemma SameRowsReflexive(rows: seq<Variable>)
    ensures SameRows(rows, rows)
  {
  }

  lemma ShownAt(db: Db, env: Id, start: map<Name, Shown>, items: seq<Item>, key: Name, shown: Shown)
    requires Shows(db, env, start)
    ensures Untouched(db, env, items, key, shown) <==> Holds(start, key, shown) && forall i :: 0 <= i < |items| ==> items[i].key != key
  {
    if key in start {
      var id :| IsActive(db, env, id) && db.vars[id].key == key;
    }
  }

  /** Folding the items changes the map exactly at their keys. */
  lemma {:induction false} ItemsAt(
    db: Db, env: Id, rows: seq<Variable>, values: map<Name, Shown>, items: seq<Item>, key: Name, shown: Shown)
    requires ResolveItems(db, env, rows, values, items).Ok?
    requires forall i, j :: 0 <= i < j < |items| ==> items[i].key != items[j].key
    ensures Holds(ResolveItems(db, env, rows, values, items).value, key, shown) <==>
            Proposed(items, key, shown) || (Holds(values, key, shown) && forall i :: 0 <= i < |items| ==> items[i].key != key)
    decreases |items|
  {
    hide ResolveItem, Proposed;
    if items == [] {
      assert !Proposed(items, key, shown) by { NothingProposed(key, shown); }
    } else {
      var item, rest := items[0], items[1..];
      var next := ResolveItem(db, env, rows, values, item).value;
      ItemEffect(db, env, rows, values, item);
      ItemsAt(db, env, rows, next, rest, key, shown);
      ProposedCons(items, key, shown);
      assert forall i :: 0 <= i < |rest| ==> rest[i] == items[i + 1];
      if forall i :: 0 <= i < |rest| ==> rest[i].key != key {
        assert (forall i :: 0 <= i < |items| ==> items[i].key != key) <==> item.key != key;
        assert !Proposed(rest, key, shown) by { OthersProposed(rest, key, shown); }
      } else {
        assert item.key != key;
      }
    }
  }

  lemma NothingProposed(key: Name, shown: Shown)
    ensures !Proposed([], key, shown)
  {
  }

  lemma OthersProposed(items: seq<Item>, key: Name, shown: Shown)
    requires forall i :: 0 <= i < |items| ==> items[i].key != key
    ensures !Proposed(items, key, shown)
  {
  }

  lemma ProposedCons(items: seq<Item>, key: Name, shown: Shown)
    requires items != []
    ensures Proposed(items, key, shown) <==>
            Proposed(items[1..], key, shown)
            || (items[0].key == key && items[0].action != DELETE && items[0].proposed.Some?
                && shown == Shown(items[0].proposed.value.blob.plain, items[0].meta.group, items[0].meta.order))
  {
    var rest := items[1..];
    if Proposed(rest, key, shown) {
      var i :| 0 <= i < |rest| && rest[i].key == key && rest[i].action != DELETE && rest[i].proposed.Some?
               && shown == Shown(rest[i].proposed.value.blob.plain, rest[i].meta.group, rest[i].meta.order);
      assert items[i + 1] == rest[i];
    }
    if Proposed(items, key, shown) {
      var i :| 0 <= i < |items| && items[i].key == key && items[i].action != DELETE && items[i].proposed.Some?
               && shown == Shown(items[i].proposed.value.blob.plain, items[i].meta.group, items[i].meta.order);
      if i > 0 { assert rest[i - 1] == items[i]; }
    }
  }
}
