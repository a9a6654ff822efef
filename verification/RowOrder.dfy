/** The order in which the rows of an environment and the items of a request are read. */
module RowOrder {
  import opened Text
  import opened DotenvRender
  import opened DotenvOrder
  import opened Model
  import opened Store
  import opened WorkflowStale

  /** By key, then by identifier. */
  predicate KeyThenId(key: string, id: string, key': string, id': string) {
    Before(key, key') || (key == key' && Before(id, id'))
  }

  predicate Rises(keys: map<Id, Name>, ids: seq<Id>) {
    && (forall i :: 0 <= i < |ids| ==> ids[i] in keys)
    && forall i, j :: 0 <= i < j < |ids| ==> KeyThenId(keys[ids[i]], ids[i], keys[ids[j]], ids[j])
  }

  lemma {:induction false} OrderedIdsRise(keys: map<Id, Name>)
    ensures Rises(keys, OrderedIds(keys))
    decreases |keys|
  {
    hide IsLeast, Rises;
    OrderedIdsComplete(keys);
    if keys != map[] {
      var id := Least(keys);
      assert id in keys by { LeastIn(keys); }
      var rest := keys - {id};
      OrderedIdsComplete(rest);
      assert |rest.Keys| < |keys.Keys|;
      OrderedIdsRise(rest);
      RisesBehind(keys, rest, id, OrderedIds(rest));
    } else {
      assert Rises(keys, []) by { NothingRises(keys); }
    }
  }

  lemma NothingRises(keys: map<Id, Name>)
    ensures Rises(keys, [])
  {
  }

  /** The least identifier in front of the others. */
  lemma RisesBehind(keys: map<Id, Name>, rest: map<Id, Name>, id: Id, ids: seq<Id>)
    requires IsLeast(keys, id) && rest == keys - {id} && Rises(rest, ids)
    ensures Rises(keys, [id] + ids)
  {
    hide IsLeast, KeyThenId;
    var all := [id] + ids;
    forall i | 0 <= i < |ids| ensures ids[i] in keys && ids[i] != id && rest[ids[i]] == keys[ids[i]] {}
    forall i, j | 0 <= i < j < |all| ensures all[i] in keys && KeyThenId(keys[all[i]], all[i], keys[all[j]], all[j]) {
      if i == 0 {
        FirstIsBefore(keys, id, all[j]);
      } else {
        assert all[i] == ids[i - 1] && all[j] == ids[j - 1];
      }
    }
    assert id in keys by { LeastMember(keys, id); }
  }

  lemma LeastMember(keys: map<Id, Name>, id: Id)
    requires IsLeast(keys, id)
    ensures id in keys
  {
  }

  lemma FirstIsBefore(keys: map<Id, Name>, id: Id, other: Id)
    requires IsLeast(keys, id) && other in keys && other != id
    ensures id in keys && KeyThenId(keys[id], id, keys[other], other)
  {
    hide StrLess, Before;
    StrLessIsBefore(keys[id], keys[other]);
    StrLessIsBefore(id, other);
    assert IdLe(keys, id, other);
  }

  /** The rows of an environment are read once each, tombstones included, by key and then by identifier. */
  lemma RowsRise(db: Db, env: Id)
    requires IdsHold(db)
    ensures var rows := CurrentRows(db, env);
      && (forall i :: 0 <= i < |rows| ==> rows[i].id in db.vars && db.vars[rows[i].id] == rows[i] && rows[i].env == env)
      && (forall id :: id in db.vars && db.vars[id].env == env ==> exists i :: 0 <= i < |rows| && rows[i] == db.vars[id])
      && (forall i, j :: 0 <= i < j < |rows| ==> KeyThenId(rows[i].key, rows[i].id, rows[j].key, rows[j].id))
  {
    hide IdsHold, OrderedIds, CurrentRows, KeyThenId;
    RowsAreVariables(db, env);
    OrderedIdsRise(EnvironmentKeys(db, env));
    forall id | id in db.vars && db.vars[id].env == env ensures exists i :: 0 <= i < |CurrentRows(db, env)| && CurrentRows(db, env)[i] == db.vars[id] {
      var i := RowOfVariable(db, env, id);
    }
  }

  /** The items of a request are read once each, in the same order. */
  lemma ItemsRise(db: Db, request: Id)
    requires IdsHold(db)
    ensures var items := ItemsOf(db, request);
      && (forall i :: 0 <= i < |items| ==> items[i].id in db.items && db.items[items[i].id] == items[i] && items[i].request == request)
      && (forall id :: id in db.items && db.items[id].request == request ==> exists i :: 0 <= i < |items| && items[i] == db.items[id])
      && (forall i, j :: 0 <= i < j < |items| ==> KeyThenId(items[i].key, items[i].id, items[j].key, items[j].id))
  {
    hide OrderedIds, KeyThenId;
    RequestItemIds(db, request);
    var keys := RequestKeys(db, request);
    OrderedIdsRise(keys);
    OrderedIdsComplete(keys);
    var ids, items := OrderedIds(keys), ItemsOf(db, request);
    forall i | 0 <= i < |items| ensures ids[i] in keys && items[i] == db.items[ids[i]] && items[i].id == ids[i] { assert ids[i] in ids; }
    forall id | id in db.items && db.items[id].request == request ensures exists i :: 0 <= i < |items| && items[i] == db.items[id] {
      assert id in keys && id in ids;
      var i :| 0 <= i < |ids| && ids[i] == id;
      assert items[i] == db.items[id];
    }
  }
}
