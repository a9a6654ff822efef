/** The metadata and the target that a direct record and a new request write: what is asked for, what is kept, what is next. */
module CallMeta {
  import opened Text
  import opened Bytes
  import opened Crypto
  import Dotenv
  import opened Model
  import opened Fingerprint
  import opened Store
  import opened StoreProofs
  import opened StoreRuns
  import opened Workflow
  import opened WorkflowStale
  import opened Import
  import opened ImportProofs
  import opened Calls

  predicate KeyOf(a: Db, env: Id, key: Name, id: Id) { id in a.vars && a.vars[id].env == env && a.vars[id].key == key }

  ghost predicate KeyFree(a: Db, env: Id, key: Name) { forall id :: !KeyOf(a, env, key, id) }

  lemma FoundOrFree(a: Db, env: Id, key: Name)
    requires IdsHold(a) && KeysUnique(a)
    ensures RowByKey(a, env, key).None? <==> KeyFree(a, env, key)
    ensures forall id :: KeyOf(a, env, key, id) ==> RowByKey(a, env, key) == Some(a.vars[id])
    ensures RowByKey(a, env, key).Some? ==> KeyOf(a, env, key, RowByKey(a, env, key).value.id)
  {
    hide IdsHold, KeysUnique, RowByKey;
    RowFound(a, env, key);
    forall id | KeyOf(a, env, key, id) ensures RowByKey(a, env, key) == Some(a.vars[id]) { RowIs(a, env, id); }
  }

  // ----- the next display order

  lemma {:induction false} MaxOrderIs(rows: seq<Variable>)
    ensures forall i :: 0 <= i < |rows| ==> rows[i].meta.order <= MaxOrder(rows)
    ensures MaxOrder(rows) == -1 || exists i :: 0 <= i < |rows| && rows[i].meta.order == MaxOrder(rows)
    ensures MaxOrder(rows) >= -1
  {
    if rows != [] {
      MaxOrderIs(rows[1..]);
      forall i | 0 <= i < |rows| ensures rows[i].meta.order <= MaxOrder(rows) {
        if i > 0 { assert rows[1..][i - 1] == rows[i]; }
      }
      if MaxOrder(rows) != rows[0].meta.order && MaxOrder(rows) != -1 {
        var i :| 0 <= i < |rows[1..]| && rows[1..][i].meta.order == MaxOrder(rows[1..]);
        assert rows[i + 1].meta.order == MaxOrder(rows);
      }
    }
  }

  /** The next display order is right above the greatest in the environment, tombstones included, and 0 in an empty one. */
  lemma NextOrderIs(a: Db, env: Id)
    requires IdsHold(a)
    ensures var n := NextDisplayOrder(a, env);
      && (forall id :: id in a.vars && a.vars[id].env == env ==> a.vars[id].meta.order < n)
      && (n == 0 || exists id :: id in a.vars && a.vars[id].env == env && a.vars[id].meta.order == n - 1)
  {
    hide IdsHold, CurrentRows, OrderedIds;
    var rows := CurrentRows(a, env);
    RowsAreVariables(a, env);
    MaxOrderIs(rows);
    forall id | id in a.vars && a.vars[id].env == env ensures a.vars[id].meta.order < NextDisplayOrder(a, env) {
      var i := RowOfVariable(a, env, id);
    }
    if NextDisplayOrder(a, env) != 0 {
      var i :| 0 <= i < |rows| && rows[i].meta.order == MaxOrder(rows);
      assert a.vars[rows[i].id].meta.order == NextDisplayOrder(a, env) - 1;
    }
  }

  // ----- a direct record

  /** A group that is given is written, a blank one as none; otherwise the one of the row stays. */
  predicate GroupWritten(given: Option<Name>, kept: Option<Name>, written: Option<Name>) {
    if given.Some? then ValidateGroup(given) == Some(written) else written == kept
  }

  /**
   * A record of a key without a row inserts a new variable at version 1 above all orders; of a key with a row it writes
   * the next version, keeps the order, and revives a tombstone.
   */
  lemma RecordWrites(a: Db, env: Id, input: Input, draw: Draw, d: Direct)
    requires Inv(a) && PrepareDirect(a, env, input, draw) == Ok(d)
    ensures var w := d.write;
      && w.env == env && ValidateKey(input.key) == Some(w.key)
      && Some(w.meta.description) == ValidateDescription(input.description)
      && (KeyFree(a, env, w.key) ==>
            w.action == ADD && w.expected.None? && w.variable == draw.variable && w.version == 1
            && w.meta.order == NextDisplayOrder(a, env) + input.order && GroupWritten(input.group, None, w.meta.group))
      && (forall id :: KeyOf(a, env, w.key, id) ==>
            id in a.vars && var row := a.vars[id];
            w.variable == id && w.expected == Some(row.version) && w.version == row.version + 1 && w.from == row.lifecycle
            && w.action == (if row.lifecycle == ACTIVE then UPDATE else ADD)
            && w.meta.order == row.meta.order && GroupWritten(input.group, row.meta.group, w.meta.group))
  {
    hide Inv, IdsHold, KeysUnique, HistoryComplete, StatusesHold, ItemsHold, Readable;
    hide RowByKey, ValidateKey, ValidateDescription, DekByVersion, NextDisplayOrder, Utf8Len, GroupWritten, KeyFree, KeyOf;
    InvIds(a);
    FoundOrFree(a, env, ValidateKey(input.key).value);
    RecordParts(a, env, input, draw, d);
    forall id | KeyOf(a, env, d.write.key, id) ensures id in a.vars && a.vars[id].id == id { RowIdIs(a, env, d.write.key, id); }
  }

  lemma RowIdIs(a: Db, env: Id, key: Name, id: Id)
    requires IdsHold(a) && KeyOf(a, env, key, id)
    ensures id in a.vars && a.vars[id].id == id
  {
  }

  /** The preparation in terms of the row found under the key. */
  lemma RecordParts(a: Db, env: Id, input: Input, draw: Draw, d: Direct)
    requires PrepareDirect(a, env, input, draw) == Ok(d)
    ensures ValidateKey(input.key) == Some(d.write.key) && ValidateGroup(input.group).Some? && d.write.env == env
    ensures Some(d.write.meta.description) == ValidateDescription(input.description)
    ensures var w := d.write;
      match RowByKey(a, env, d.write.key)
      case None =>
        w.action == ADD && w.expected.None? && w.variable == draw.variable && w.version == 1
        && w.meta.order == NextDisplayOrder(a, env) + input.order && GroupWritten(input.group, None, w.meta.group)
      case Some(r) =>
        w.variable == r.id && w.expected == Some(r.version) && w.version == r.version + 1 && w.from == r.lifecycle
        && w.action == (if r.lifecycle == ACTIVE then UPDATE else ADD)
        && w.meta.order == r.meta.order && GroupWritten(input.group, r.meta.group, w.meta.group)
  {
    hide RowByKey, ValidateKey, ValidateDescription, ValidateGroup, DekByVersion, NextDisplayOrder, Utf8Len;
  }

  // ----- the items of a new request

  /** The order that is asked for, or the next free one. */
  function AskedOrder(asked: ItemInput, next: int): int { if asked.order.Some? then asked.order.value else next }

  /** A group that is not blank is written; otherwise the one of the row stays. */
  predicate ItemGroup(asked: ItemInput, kept: Option<Name>, written: Option<Name>) {
    var given := ValidateGroup(asked.group);
    given.Some? && written == if given.value.Some? then given.value else kept
  }

  /** Order and group of an item: those of the row of its key, or those asked for when there is none; a deletion keeps all. */
  ghost predicate MetaWritten(a: Db, env: Id, asked: ItemInput, next: int, item: Item) {
    && (KeyFree(a, env, item.key) ==>
          item.action == ADD && item.meta.order == AskedOrder(asked, next) && ItemGroup(asked, None, item.meta.group))
    && (forall id :: KeyOf(a, env, item.key, id) ==>
          if item.action == DELETE then item.meta == a.vars[id].meta
          else item.meta.order == a.vars[id].meta.order && ItemGroup(asked, a.vars[id].meta.group, item.meta.group))
  }

  lemma PreparedParts(
    service: Id, env: Id, dek: Count, secret: Key, request: Id, key: Name, existing: Option<Variable>, asked: ItemInput, next: int, drawn: Drawn)
    requires PrepareItem(service, env, dek, secret, request, key, existing, WithOrder(asked, existing, next), drawn).Ok?
    ensures var item := PrepareItem(service, env, dek, secret, request, key, existing, WithOrder(asked, existing, next), drawn).value;
      item.key == key &&
      match existing
      case None => item.action == ADD && item.meta.order == AskedOrder(asked, next) && ItemGroup(asked, None, item.meta.group)
      case Some(row) =>
        if item.action == DELETE then item.meta == row.meta
        else item.meta.order == row.meta.order && ItemGroup(asked, row.meta.group, item.meta.group)
  {
    hide Utf8Len, ValidateDescription, ValidateGroup;
  }

  lemma PreparedMeta(
    a: Db, env: Id, service: Id, dek: Count, secret: Key, request: Id, key: Name, asked: ItemInput, next: int, drawn: Drawn)
    requires IdsHold(a) && KeysUnique(a)
    requires var existing := RowByKey(a, env, key);
             PrepareItem(service, env, dek, secret, request, key, existing, WithOrder(asked, existing, next), drawn).Ok?
    ensures var existing := RowByKey(a, env, key);
            var item := PrepareItem(service, env, dek, secret, request, key, existing, WithOrder(asked, existing, next), drawn).value;
            MetaWritten(a, env, asked, next, item)
            && NextAfter(asked, existing, next) == next + if KeyFree(a, env, key) && asked.order.None? then 1 else 0
  {
    hide IdsHold, KeysUnique, RowByKey, PrepareItem, WithOrder, KeyFree, KeyOf, ItemGroup;
    FoundOrFree(a, env, key);
    PreparedParts(service, env, dek, secret, request, key, RowByKey(a, env, key), asked, next, drawn);
  }

  /** The free order that the item at `i` gets: one above for every earlier new key without an order of its own. */
  ghost function NextOf(a: Db, env: Id, inputs: seq<ItemInput>, next: int, i: nat): int
    requires i < |inputs|
  {
    if i == 0 then next
    else
      var key := ValidateKey(inputs[0].key);
      NextOf(a, env, inputs[1..], next + (if key.Some? && KeyFree(a, env, key.value) && inputs[0].order.None? then 1 else 0), i - 1)
  }

  lemma {:induction false} ItemsMeta(
    a: Db, env: Id, secret: Key, request: Id, inputs: seq<ItemInput>, draws: seq<Drawn>, keys: set<Name>, next: int)
    requires |inputs| == |draws| && IdsHold(a) && KeysUnique(a) && env in a.envs && env in a.active
    requires Calls.PrepareItems(a, env, secret, request, inputs, draws, keys, next).Ok?
    ensures var items := Calls.PrepareItems(a, env, secret, request, inputs, draws, keys, next).value;
      |items| == |inputs| && forall i :: 0 <= i < |items| ==> MetaWritten(a, env, inputs[i], NextOf(a, env, inputs, next, i), items[i])
  {
    hide IdsHold, KeysUnique, RowByKey, ValidateKey, PrepareItem, WithOrder, NextAfter, MetaWritten, KeyFree;
    if inputs != [] {
      var key := ValidateKey(inputs[0].key).value;
      var existing := RowByKey(a, env, key);
      PreparedMeta(a, env, a.envs[env].service, a.active[env], secret, request, key, inputs[0], next, draws[0]);
      var after := NextAfter(inputs[0], existing, next);
      ItemsMeta(a, env, secret, request, inputs[1..], draws[1..], keys + {key}, after);
      var items := Calls.PrepareItems(a, env, secret, request, inputs, draws, keys, next).value;
      forall i | 0 <= i < |items| ensures MetaWritten(a, env, inputs[i], NextOf(a, env, inputs, next, i), items[i]) {
        if i > 0 {
          assert inputs[i] == inputs[1..][i - 1] && items[i] == items[1..][i - 1];
          assert NextOf(a, env, inputs, next, i) == NextOf(a, env, inputs[1..], after, i - 1);
        }
      }
    }
  }

  lemma CreateWrites(a: Db, env: Id, request: Id, inputs: seq<ItemInput>, draws: seq<Drawn>, items: seq<Item>)
    requires |inputs| == |draws| && Inv(a) && ReadCreate(a, env, request, inputs, draws) == Ok(items)
    ensures |items| == |inputs|
    ensures forall i :: 0 <= i < |items| ==>
              MetaWritten(a, env, inputs[i], NextOf(a, env, inputs, NextDisplayOrder(a, env), i), items[i])
  {
    hide Inv, DekByVersion, Calls.PrepareItems, NextDisplayOrder, MetaWritten, NextOf, IdsHold, KeysUnique, HistoryComplete, StatusesHold, ItemsHold, Readable;
    InvIds(a);
    ItemsMeta(a, env, DekByVersion(a, env, a.active[env]).value, request, inputs, draws, {}, NextDisplayOrder(a, env));
  }
}
