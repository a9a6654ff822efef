/** What was submitted is what is stored: the values that the calls seal, and what opens after their transactions. */
module CallValues {
  import opened Text
  import opened Bytes
  import opened Crypto
  import opened Model
  import opened Fingerprint
  import opened Store
  import opened StoreProofs
  import opened StoreRuns
  import opened Outcomes
  import opened RowOutcomes
  import opened Workflow
  import opened WorkflowStale
  import opened Import
  import opened ImportProofs
  import opened Calls

  // ----- creation

  /** The ACTIVE row that an UPDATE or DELETE item is about, and the absence of one for ADD. */
  predicate AboutRow(a: Db, env: Id, item: Item) {
    if item.action == ADD then
      item.variable.None? && item.base.None?
      && forall id :: id in a.vars && a.vars[id].env == env && a.vars[id].key == item.key ==> a.vars[id].lifecycle == DELETED
    else
      item.variable.Some? && item.variable.value in a.vars
      && var row := a.vars[item.variable.value];
         row.env == env && row.key == item.key && row.lifecycle == ACTIVE && item.base == Some(row.version)
  }

  /** The proposal opens to what the requester gave; a value left to an operator and a deletion have none. */
  predicate HoldsSubmitted(a: Db, env: Id, input: ItemInput, item: Item) {
    if item.action == DELETE || input.source == Some(OperatorProvided) then item.proposed.None?
    else input.source == Some(RequesterProvided) && input.value.Some? && DecryptItem(a, env, item) == Ok(input.value.value)
  }

  /** Visibility, type and texts are those asked for, with the defaults of the program. */
  predicate MetaSubmitted(input: ItemInput, item: Item) {
    item.action != DELETE ==>
      && item.meta.visibility == (if input.visibility.Some? then input.visibility.value else Restricted)
      && item.meta.valueType == (if input.valueType.Some? then input.valueType.value else PlainString)
      && Some(item.meta.description) == ValidateDescription(input.description)
      && (input.group.Some? && TrimName(input.group.value) != "" ==> Some(item.meta.group) == ValidateGroup(input.group))
  }

  predicate Submitted(a: Db, env: Id, request: Id, input: ItemInput, drawn: Drawn, item: Item) {
    && item.id == drawn.id && item.request == request && item.action == input.action && item.revision == 1
    && ValidateKey(input.key) == Some(item.key)
    && AboutRow(a, env, item) && HoldsSubmitted(a, env, input, item) && MetaSubmitted(input, item)
  }

  lemma PreparedSubmitted(
    a: Db, env: Id, secret: Key, request: Id, key: Name, asked: ItemInput, next: int, drawn: Drawn)
    requires IdsHold(a) && KeysUnique(a) && env in a.envs && env in a.active
    requires DekByVersion(a, env, a.active[env]) == Some(secret) && ValidateKey(asked.key) == Some(key)
    requires var existing := RowByKey(a, env, key);
             PrepareItem(a.envs[env].service, env, a.active[env], secret, request, key, existing, WithOrder(asked, existing, next), drawn).Ok?
    ensures var existing := RowByKey(a, env, key);
            var item := PrepareItem(a.envs[env].service, env, a.active[env], secret, request, key, existing, WithOrder(asked, existing, next), drawn).value;
            Submitted(a, env, request, asked, drawn, item)
  {
    hide IdsHold, KeysUnique, RowByKey, Utf8Len, DekByVersion, ValidateKey, ValidateDescription, ValidateGroup, TrimName;
    assert asked.group.Some? && TrimName(asked.group.value) != "" ==> ValidateGroup(asked.group).Some? ==> ValidateGroup(asked.group).value.Some? by {
      GroupGiven(asked.group);
    }
    RowFound(a, env, key);
    forall id | id in a.vars && a.vars[id].env == env && a.vars[id].key == key ensures RowByKey(a, env, key) == Some(a.vars[id]) {
      RowIs(a, env, id);
    }
    var existing := RowByKey(a, env, key);
    var item := PrepareItem(a.envs[env].service, env, a.active[env], secret, request, key, existing, WithOrder(asked, existing, next), drawn).value;
    assert item.id == drawn.id && item.request == request && item.action == asked.action && item.revision == 1;
    assert AboutRow(a, env, item);
    assert HoldsSubmitted(a, env, asked, item);
    assert MetaSubmitted(asked, item);
  }

  lemma GroupGiven(group: Option<Name>)
    ensures group.Some? && TrimName(group.value) != "" && ValidateGroup(group).Some? ==> ValidateGroup(group).value.Some?
  {
    hide TrimName;
  }

  /** Every item of a prepared request is what was submitted, in order. */
  lemma {:induction false} ItemsSubmitted(
    a: Db, env: Id, secret: Key, request: Id, inputs: seq<ItemInput>, draws: seq<Drawn>, keys: set<Name>, next: int)
    requires |inputs| == |draws| && IdsHold(a) && KeysUnique(a) && env in a.envs && env in a.active
    requires DekByVersion(a, env, a.active[env]) == Some(secret)
    requires Calls.PrepareItems(a, env, secret, request, inputs, draws, keys, next).Ok?
    ensures var items := Calls.PrepareItems(a, env, secret, request, inputs, draws, keys, next).value;
            |items| == |inputs| && forall i :: 0 <= i < |items| ==> Submitted(a, env, request, inputs[i], draws[i], items[i])
  {
    hide IdsHold, KeysUnique, RowByKey, DekByVersion, ValidateKey, PrepareItem, WithOrder, NextAfter, Submitted;
    if inputs != [] {
      var key := ValidateKey(inputs[0].key).value;
      var existing := RowByKey(a, env, key);
      PreparedSubmitted(a, env, secret, request, key, inputs[0], next, draws[0]);
      ItemsSubmitted(a, env, secret, request, inputs[1..], draws[1..], keys + {key}, NextAfter(inputs[0], existing, next));
      var items := Calls.PrepareItems(a, env, secret, request, inputs, draws, keys, next).value;
      forall i | 0 <= i < |items| ensures Submitted(a, env, request, inputs[i], draws[i], items[i]) {
        if i > 0 { assert inputs[i] == inputs[1..][i - 1] && draws[i] == draws[1..][i - 1] && items[i] == items[1..][i - 1]; }
      }
    }
  }

  lemma CreateHoldsSubmitted(a: Db, env: Id, request: Id, inputs: seq<ItemInput>, draws: seq<Drawn>, items: seq<Item>)
    requires |inputs| == |draws| && Inv(a) && ReadCreate(a, env, request, inputs, draws) == Ok(items)
    ensures |items| == |inputs| && forall i :: 0 <= i < |items| ==> Submitted(a, env, request, inputs[i], draws[i], items[i])
  {
    hide Inv, DekByVersion, Calls.PrepareItems, NextDisplayOrder, Submitted, IdsHold, KeysUnique, HistoryComplete, StatusesHold, ItemsHold, Readable;
    InvIds(a);
    ItemsSubmitted(a, env, DekByVersion(a, env, a.active[env]).value, request, inputs, draws, {}, NextDisplayOrder(a, env));
  }

  // ----- fulfilment and correction

  lemma StoredOpens(t: Db, id: Id)
    requires Inv(t) && id in t.items && t.items[id].proposed.Some?
    ensures t.items[id].request in t.requests
    ensures DecryptItem(t, t.requests[t.items[id].request].env, t.items[id]) == Ok(t.items[id].proposed.value.blob.plain)
  {
    hide KeysUnique, HistoryComplete, StatusesHold, ItemsHold, RowReadable, HistoryReadable, DekByVersion, DecryptItem, ItemReadable;
    assert ItemReadable(t, t.items[id]);
    ItemOpens(t, t.requests[t.items[id].request].env, t.items[id]);
  }

  lemma HasKey<K, V>(a: map<K, V>, b: map<K, V>, k: K)
    requires OnlyKey(a, b, k)
    ensures k in b
  {
  }

  /** After a fulfilment the item opens to the value that was given. */
  lemma FulfillLands(a: Db, b: Db, id: Id, value: string, random: Random, item: Item, sealed: Sealed, t: Db)
    requires Inv(a) && Inv(b) && Grows(a, b) && ReadFulfill(a, id, value, random) == Ok((item, sealed))
    requires item.request in a.requests && DekByVersion(b, a.requests[item.request].env, sealed.dek).Some?
    requires Fulfill(b, item, sealed) == Ok(t)
    ensures id in t.items && t.items[id].request == item.request && item.request in t.requests
    ensures DecryptItem(t, t.requests[item.request].env, t.items[id]) == Ok(value)
  {
    hide Inv, Grows, DekByVersion, AuditedEach, WaitingStatus, Fulfill, FulfillShaped, OnlyKey, OtherRows, DecryptItem, ReadFulfill;
    hide IdsHold, KeysUnique, HistoryComplete, StatusesHold, ItemsHold, Readable;
    InvIds(a);
    InvIds(b);
    FulfillIsShaped(a, b, id, value, random);
    OneTransaction(b, FulfillOp(item, sealed));
    FulfillOutcome(b, item, sealed, t);
    FulfilledItem(a, id, value, random);
    SameRequest(b, item, sealed);
    HasKey(b.items, t.items, id);
    StoredOpens(t, id);
  }

  lemma FulfilledItem(a: Db, id: Id, value: string, random: Random)
    requires IdsHold(a) && ReadFulfill(a, id, value, random).Ok?
    ensures var (item, sealed) := ReadFulfill(a, id, value, random).value; item.id == id && sealed.blob.plain == value
  {
    hide DekByVersion, Utf8Len;
  }

  lemma SameRequest(b: Db, item: Item, sealed: Sealed)
    requires FulfillShaped(b, item, sealed) && item.id in b.items
    ensures b.items[item.id].request == item.request
  {
    hide ProposalSealed;
  }

  /** After a correction the item opens to the corrected value, or to the value it had when none was given. */
  lemma EditLands(
    a: Db, b: Db, ids: seq<Id>, fingerprint: Digest, correction: Correction, random: Random, r: EditRead, t: Db)
    requires Inv(a) && Inv(b) && Grows(a, b) && ReadEdit(a, ids, fingerprint, correction, random) == Ok(r)
    requires EditTransaction(b, ids, r.env, r.expected, r.edit) == Ok(t)
    ensures correction.id in t.items && t.items[correction.id].request in t.requests && DecryptItem(a, r.env, r.edit.item).Ok?
    ensures var item := t.items[correction.id];
      && DecryptItem(t, t.requests[item.request].env, item) ==
           (if correction.value.Some? then Ok(correction.value.value) else DecryptItem(a, r.env, r.edit.item))
      && Some(item.meta.group) == ValidateGroup(correction.group) && item.meta.order == correction.order
  {
    hide Inv, Grows, DekByVersion, AuditedEach, OnlyKey, OtherRows, EditAllowed, EditShaped, CorrectItem, ReadEdit, EditTransaction, DecryptItem;
    hide IdsHold, KeysUnique, HistoryComplete, StatusesHold, ItemsHold, Readable, LoadItems, LoadRequests, SelectionDigest, SelectionValid;
    hide ValidateGroup;
    InvIds(a);
    InvIds(b);
    EditKey(b, ids, r.env, r.expected, r.edit);
    EditIsShaped(a, b, ids, fingerprint, correction, random, r);
    OneTransaction(b, EditOp(ids, r.env, r.expected, r.edit, r.requests, r.items, r.rows));
    assert Commit(b, EditOp(ids, r.env, r.expected, r.edit, r.requests, r.items, r.rows)) == Ok(t);
    ReadEditParts(a, ids, fingerprint, correction, random, r);
    CorrectionValue(a, r.env, r.edit.item, correction, random);
    ReadItem(a, ids, fingerprint, correction, random, r);
    EditedIsCurrent(b, ids, r.env, r.expected, r.edit, r.requests, r.items, r.rows);
    EditOutcome(b, ids, r.env, r.expected, r.edit, t);
    if r.edit.same { SameStoredItem(a, b, r.edit.item); } else { HasKey(b.items, t.items, correction.id); }
    StoredOpens(t, correction.id);
  }

  lemma EditKey(b: Db, ids: seq<Id>, env: Id, expected: Digest, edit: Edit)
    requires Inv(b) && EditTransaction(b, ids, env, expected, edit).Ok?
    ensures EditAllowed(b, ids, env, expected, edit) && DekByVersion(b, env, edit.sealed.dek).Some?
  {
    hide IdsHold, KeysUnique, HistoryComplete, StatusesHold, ItemsHold, RowReadable, HistoryReadable, ItemReadable, DekByVersion;
    hide LoadItems, LoadRequests, CurrentRows, SelectionDigest, SelectionValid;
  }

  lemma CorrectionValue(a: Db, env: Id, item: Item, correction: Correction, random: Random)
    requires env in a.envs && CorrectItem(a, env, item, correction, random).Ok?
    ensures DecryptItem(a, env, item).Ok? && item.proposed.Some? && DecryptItem(a, env, item).value == item.proposed.value.blob.plain
    ensures var edit := CorrectItem(a, env, item, correction, random).value;
      && edit.sealed.blob.plain == (if correction.value.Some? then correction.value.value else DecryptItem(a, env, item).value)
      && Some(edit.group) == ValidateGroup(correction.group) && edit.order == correction.order
      && (edit.same ==> edit.sealed.blob.plain == item.proposed.value.blob.plain && edit.group == item.meta.group && edit.order == item.meta.order)
  {
    hide DekByVersion, DecryptItem, ValidateGroup, Utf8Len;
    OpenedItem(a, env, item);
  }

  /** The item that a correction read is the stored one with the given id. */
  lemma ReadItem(a: Db, ids: seq<Id>, fingerprint: Digest, correction: Correction, random: Random, r: EditRead)
    requires IdsHold(a) && ReadEdit(a, ids, fingerprint, correction, random) == Ok(r)
    ensures r.edit.item.id == correction.id && correction.id in a.items && a.items[correction.id] == r.edit.item
  {
    hide IdsHold, LoadRequests, LoadItems, CurrentRows, SelectionDigest, CorrectItem, SelectionValid;
    var items := LoadItems(a, ids);
    var item := ItemOfSelection(items, correction.id).value;
    CorrectedItem(a, LoadRequests(a, ids).value[0].env, item, correction, random);
    LoadedItems(a, ids);
    var k :| 0 <= k < |items| && items[k] == item;
  }

  /** At the same revision the stored item still holds the same value, group and order. */
  lemma SameStoredItem(a: Db, b: Db, item: Item)
    requires Grows(a, b) && item.id in a.items && a.items[item.id] == item && item.proposed.Some?
    requires item.id in b.items && ViewItem(b.items[item.id]) == ViewItem(item)
    ensures b.items[item.id].meta == item.meta && b.items[item.id].proposed.Some?
    ensures b.items[item.id].proposed.value.blob.plain == item.proposed.value.blob.plain
  {
    hide VariableGrows, RequestGrows, KeysGrow;
    ViewTells(b.items[item.id], item);
    assert ItemGrows(a.items[item.id], b.items[item.id]);
  }

  // ----- direct writes

  lemma RowOpened(t: Db, id: Id)
    requires Inv(t) && id in t.vars
    ensures DecryptRow(t, t.vars[id]) == Ok(t.vars[id].sealed.blob.plain)
  {
    hide KeysUnique, HistoryComplete, StatusesHold, ItemsHold, HistoryReadable, ItemReadable, DekByVersion, DecryptRow, RowReadable;
    RowOpens(t, t.vars[id]);
  }

  /** After a direct record the ACTIVE row of its key opens to the value that was given. */
  lemma RecordLands(a: Db, b: Db, env: Id, input: Input, draw: Draw, d: Direct, t: Db)
    requires Inv(a) && Inv(b) && Grows(a, b) && PrepareDirect(a, env, input, draw) == Ok(d)
    requires DekByVersion(b, env, d.write.sealed.dek).Some? && PersistDirect(b, d) == Ok(t)
    ensures d.write.variable in t.vars
    ensures var row := t.vars[d.write.variable];
      && row.env == env && Some(row.key) == ValidateKey(input.key) && row.lifecycle == ACTIVE && row.meta.visibility == input.visibility
      && row.meta.valueType == input.valueType && DecryptRow(t, row) == Ok(input.value)
  {
    hide Inv, Grows, DekByVersion, AuditedEach, PersistDirect, PrepareDirect, DirectShaped, DecryptRow, ValidateKey, InputMeta, RowByKey, OnlyKey;
    hide IdsHold, KeysUnique, HistoryComplete, StatusesHold, ItemsHold, Readable, WriteShaped;
    InvIds(a);
    InvIds(b);
    DirectParts(a, env, input, draw);
    RequestsStay(a, b);
    RecordIsShaped(a, b, env, input, draw);
    OneTransaction(b, DirectOp(d));
    DirectOutcome(b, d, t);
    HasKey(b.vars, t.vars, d.write.variable);
    RequestedMeta(a, env, RowByKey(a, env, d.write.key), input);
    if d.write.expected.Some? { RowsLater(a, b, d.write.variable); }
    RowOpened(t, d.write.variable);
  }

  lemma RowsLater(a: Db, b: Db, id: Id)
    requires Grows(a, b) && id in a.vars
    ensures id in b.vars && b.vars[id].key == a.vars[id].key
  {
    hide RequestGrows, ItemGrows, KeysGrow;
    assert VariableGrows(a.vars[id], b.vars[id]);
  }

  lemma RequestedMeta(a: Db, env: Id, existing: Option<Variable>, input: Input)
    requires InputMeta(a, env, existing, input).Some?
    ensures InputMeta(a, env, existing, input).value.visibility == input.visibility
    ensures InputMeta(a, env, existing, input).value.valueType == input.valueType
  {
    hide ValidateGroup, ValidateDescription, AppliedOrder, Utf8Len;
  }

  /** After a direct delete the row is a tombstone with the value it had. */
  lemma DeleteLands(a: Db, b: Db, id: Id, draw: Draw, d: Direct, t: Db)
    requires Inv(a) && Inv(b) && Grows(a, b) && ReadDelete(a, id, draw) == Ok(d)
    requires DekByVersion(b, d.write.env, d.write.sealed.dek).Some? && PersistDirect(b, d) == Ok(t)
    ensures id in t.vars && t.vars[id].lifecycle == DELETED && t.vars[id].version == a.vars[id].version + 1
    ensures t.vars[id].meta == a.vars[id].meta && t.vars[id].key == a.vars[id].key && DecryptRow(t, t.vars[id]) == DecryptRow(a, a.vars[id])
  {
    hide Inv, Grows, DekByVersion, AuditedEach, PersistDirect, DirectShaped, DecryptRow, OnlyKey;
    hide IdsHold, KeysUnique, HistoryComplete, StatusesHold, ItemsHold, Readable;
    InvIds(a);
    InvIds(b);
    DeleteIsShaped(a, b, id, draw);
    OneTransaction(b, DirectOp(d));
    DirectOutcome(b, d, t);
    DeletedWrite(a, id, draw);
    HasKey(b.vars, t.vars, id);
    RowsLater(a, b, id);
    RowOpened(t, id);
    RowOpened(a, id);
  }

  lemma DeletedWrite(a: Db, id: Id, draw: Draw)
    requires Inv(a) && ReadDelete(a, id, draw).Ok?
    ensures id in a.vars
    ensures var w := ReadDelete(a, id, draw).value.write;
      && w.variable == id && w.action == DELETE && w.expected == Some(a.vars[id].version) && w.version == a.vars[id].version + 1
      && w.meta == a.vars[id].meta && w.sealed.blob.plain == a.vars[id].sealed.blob.plain
  {
    hide Inv, DekByVersion, DecryptRow, KeysUnique, HistoryComplete, StatusesHold, ItemsHold, Readable;
    InvIds(a);
    DeleteKeepsValue(a, id, draw);
  }
}
