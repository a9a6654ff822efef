/** The read phases of the other calls, and that each yields a well-formed transaction whatever is committed since. */
module Calls {
  import opened Text
  import opened Bytes
  import opened Crypto
  import Dotenv
  import opened Model
  import opened Fingerprint
  import opened Store
  import opened StoreProofs
  import opened StoreRuns
  import opened Workflow
  import opened WorkflowStale
  import opened Import

  // ----- create

  /** One item of a new request as it is asked for; `wellTyped` says whether the value parses as its type. */
  datatype ItemInput = ItemInput(
    action: Action, key: Name, value: Option<string>, wellTyped: bool, source: Option<Source>,
    visibility: Option<Visibility>, valueType: Option<ValueType>, description: Option<Name>, group: Option<Name>, order: Option<int>)

  /** The variable and version an item is based on. */
  function ItemTarget(action: Action, existing: Option<Variable>): Option<(Option<Id>, Option<Count>)> {
    var active := existing.Some? && existing.value.lifecycle == ACTIVE;
    match action
    case ADD => if active then None else Some((None, None))
    case UPDATE => if active then Some((Some(existing.value.id), Some(existing.value.version))) else None
    case DELETE => if active then Some((Some(existing.value.id), Some(existing.value.version))) else None
  }

  function ItemMeta(existing: Option<Variable>, input: ItemInput): Option<Meta> {
    var description := ValidateDescription(input.description);
    var group := ValidateGroup(input.group);
    if description.None? || group.None? then None
    else
      var kept := if existing.Some? then existing.value.meta.group else None;
      var asked := if input.order.Some? then input.order.value else 0;
      if existing.None? && !OrderAllowed(asked) then None
      else
        Some(Meta(
          if input.visibility.Some? then input.visibility.value else Restricted,
          if input.valueType.Some? then input.valueType.value else PlainString,
          description.value,
          if group.value.Some? then group.value else kept,
          if existing.Some? then existing.value.meta.order else asked))
  }

  /** The value of a new item: given by the requester, or left to an operator. */
  function ItemValue(input: ItemInput): Option<Option<string>> {
    match input.source
    case None => None
    case Some(RequesterProvided) =>
      if input.value.None? || Utf8Len(input.value.value) > Dotenv.MAX_VALUE_BYTES || !input.wellTyped then None
      else Some(input.value)
    case Some(OperatorProvided) => if input.value.None? || input.value.value == "" then Some(None) else None
  }

  /** `prepare_item` and `prepare_delete_item` */
  function PrepareItem(
    service: Id, env: Id, dek: Count, secret: Key, request: Id, key: Name, existing: Option<Variable>, input: ItemInput, drawn: Drawn): Result<Item>
  {
    match ItemTarget(input.action, existing)
    case None => Err(Conflict)
    case Some(target) =>
      if input.action == DELETE then
        Ok(Item(drawn.id, request, target.0, DELETE, key, target.1, None, existing.value.meta, None, 1))
      else
        match ItemMeta(existing, input)
        case None => Err(InvalidRequest)
        case Some(meta) =>
          match ItemValue(input)
          case None => Err(InvalidRequest)
          case Some(value) =>
            var context := ProposedValue(service, env, request, drawn.id, 1, dek);
            var proposed := match value case None => None case Some(v) => Some(Sealed(Seal(secret, context, v, drawn.random), dek));
            Ok(Item(drawn.id, request, target.0, input.action, key, target.1, proposed, meta, input.source, 1))
  }

  /** An absent order of a new key is the next free one. */
  function WithOrder(input: ItemInput, existing: Option<Variable>, next: int): ItemInput {
    if existing.None? && input.order.None? then input.(order := Some(next)) else input
  }

  function NextAfter(input: ItemInput, existing: Option<Variable>, next: int): int {
    if existing.None? && input.order.None? then next + 1 else next
  }

  /** The item loop of `create`. */
  function PrepareItems(
    db: Db, env: Id, secret: Key, request: Id, inputs: seq<ItemInput>, draws: seq<Drawn>, keys: set<Name>, next: int): Result<seq<Item>>
    requires |inputs| == |draws| && env in db.envs && env in db.active
  {
    if inputs == [] then Ok([])
    else
      match ValidateKey(inputs[0].key)
      case None => Err(InvalidRequest)
      case Some(key) =>
        if key in keys then Err(InvalidRequest)
        else
          var existing := RowByKey(db, env, key);
          var input := WithOrder(inputs[0], existing, next);
          match PrepareItem(db.envs[env].service, env, db.active[env], secret, request, key, existing, input, draws[0])
          case Err(e) => Err(e)
          case Ok(item) =>
            match PrepareItems(db, env, secret, request, inputs[1..], draws[1..], keys + {key}, NextAfter(inputs[0], existing, next))
            case Err(e) => Err(e)
            case Ok(rest) => Ok([item] + rest)
  }

  const MAX_ITEMS := 500

  /** Everything that `create` does before its transaction. */
  function ReadCreate(db: Db, env: Id, request: Id, inputs: seq<ItemInput>, draws: seq<Drawn>): Result<seq<Item>>
    requires |inputs| == |draws|
  {
    if env !in db.envs then Err(NotFound)
    else if db.envs[env].archived || db.envs[env].serviceArchived then Err(Conflict)
    else if inputs == [] || |inputs| > MAX_ITEMS then Err(InvalidRequest)
    else if env !in db.active then Err(CryptoFailure)
    else
      match DekByVersion(db, env, db.active[env])
      case None => Err(CryptoFailure)
      case Some(secret) => PrepareItems(db, env, secret, request, inputs, draws, {}, NextDisplayOrder(db, env))
  }

  method PrepareCreate(db: Db, env: Id, request: Id, inputs: seq<ItemInput>, draws: seq<Drawn>) returns (r: Result<seq<Item>>)
    requires |inputs| == |draws|
    ensures r == ReadCreate(db, env, request, inputs, draws)
  {
    hide DekByVersion, PrepareItem, ValidateKey, RowByKey, NextDisplayOrder, WithOrder, NextAfter;
    if env !in db.envs { return Err(NotFound); }
    if db.envs[env].archived || db.envs[env].serviceArchived { return Err(Conflict); }
    if inputs == [] || |inputs| > MAX_ITEMS { return Err(InvalidRequest); }
    if env !in db.active { return Err(CryptoFailure); }
    var unwrapped := DekByVersion(db, env, db.active[env]);
    if unwrapped.None? { return Err(CryptoFailure); }
    var keys: set<Name> := {};
    var next := NextDisplayOrder(db, env);
    ghost var all := PrepareItems(db, env, unwrapped.value, request, inputs, draws, keys, next);
    var prepared: seq<Item> := [];
    var i := 0;
    ghost var more, drawn := inputs, draws;
    assert all.Ok? ==> [] + all.value == all.value;
    while i < |inputs|
      invariant 0 <= i <= |inputs| && more == inputs[i..] && drawn == draws[i..]
      invariant var rest := PrepareItems(db, env, unwrapped.value, request, more, drawn, keys, next);
                all == if rest.Err? then rest else Ok(prepared + rest.value)
    {
      var key := ValidateKey(inputs[i].key);
      if key.None? || key.value in keys { return Err(InvalidRequest); }
      var existing := RowByKey(db, env, key.value);
      var item := PrepareItem(db.envs[env].service, env, db.active[env], unwrapped.value, request, key.value, existing,
                              WithOrder(inputs[i], existing, next), draws[i]);
      if item.Err? { return Err(item.error); }
      keys, next := keys + {key.value}, NextAfter(inputs[i], existing, next);
      more, drawn := more[1..], drawn[1..];
      ghost var rest := PrepareItems(db, env, unwrapped.value, request, more, drawn, keys, next);
      assert rest.Ok? ==> prepared + ([item.value] + rest.value) == (prepared + [item.value]) + rest.value;
      prepared := prepared + [item.value];
      i := i + 1;
    }
    assert prepared + [] == prepared;
    return Ok(prepared);
  }

  /** What is known of a prepared item when it is inserted later. */
  ghost predicate ItemFits(db: Db, env: Id, request: Id, dek: Count, secret: Key, item: Item) {
    && item.request == request && item.revision == 1 && ItemAllowed(item)
    && (item.variable.Some? ==> item.variable.value in db.vars && db.vars[item.variable.value].env == env)
    && (item.proposed.Some? ==>
          item.proposed.value.dek == dek && item.proposed.value.blob.key == secret && env in db.envs
          && item.proposed.value.blob.context == ProposedValue(db.envs[env].service, env, request, item.id, 1, dek))
  }

  lemma PreparedItemFits(db: Db, env: Id, dek: Count, secret: Key, request: Id, key: Name, input: ItemInput, drawn: Drawn)
    requires IdsHold(db) && env in db.envs
    requires PrepareItem(db.envs[env].service, env, dek, secret, request, key, RowByKey(db, env, key), input, drawn).Ok?
    ensures var item := PrepareItem(db.envs[env].service, env, dek, secret, request, key, RowByKey(db, env, key), input, drawn).value;
            ItemFits(db, env, request, dek, secret, item) && item.key == key && item.id == drawn.id
  {
    hide IdsHold, RowByKey, ItemMeta, Utf8Len;
    RowInEnvironment(db, env, key);
  }

  lemma RowInEnvironment(db: Db, env: Id, key: string)
    requires IdsHold(db)
    ensures var r := RowByKey(db, env, key); r.Some? ==> r.value.id in db.vars && db.vars[r.value.id].env == env
  {
    hide IdsHold, CurrentRows, OrderedIds;
    RowsAreVariables(db, env);
  }

  lemma {:induction false} CreatedItemsFit(
    db: Db, env: Id, secret: Key, request: Id, inputs: seq<ItemInput>, draws: seq<Drawn>, keys: set<Name>, next: int)
    requires |inputs| == |draws| && env in db.envs && env in db.active && IdsHold(db)
    requires PrepareItems(db, env, secret, request, inputs, draws, keys, next).Ok?
    ensures var items := PrepareItems(db, env, secret, request, inputs, draws, keys, next).value;
      && |items| == |inputs|
      && (forall i :: 0 <= i < |items| ==>
            ItemFits(db, env, request, db.active[env], secret, items[i]) && items[i].id == draws[i].id && items[i].key !in keys)
      && (forall i, j :: 0 <= i < j < |items| ==> items[i].key != items[j].key)
  {
    hide IdsHold, ValidateKey, RowByKey, PrepareItem, ItemFits, WithOrder, NextAfter;
    if inputs != [] {
      var key := ValidateKey(inputs[0].key).value;
      var existing := RowByKey(db, env, key);
      PreparedItemFits(db, env, db.active[env], secret, request, key, WithOrder(inputs[0], existing, next), draws[0]);
      CreatedItemsFit(db, env, secret, request, inputs[1..], draws[1..], keys + {key}, NextAfter(inputs[0], existing, next));
      var items := PrepareItems(db, env, secret, request, inputs, draws, keys, next).value;
      var rest := items[1..];
      assert rest == PrepareItems(db, env, secret, request, inputs[1..], draws[1..], keys + {key}, NextAfter(inputs[0], existing, next)).value;
      forall i | 0 <= i < |items|
        ensures ItemFits(db, env, request, db.active[env], secret, items[i]) && items[i].id == draws[i].id && items[i].key !in keys
      {
        if i > 0 { assert items[i] == rest[i - 1]; }
      }
      forall i, j | 0 <= i < j < |items| ensures items[i].key != items[j].key {
        if i > 0 { assert items[i] == rest[i - 1] && items[j] == rest[j - 1]; } else { assert items[j] == rest[j - 1]; }
      }
    }
  }

  lemma FitsLater(a: Db, b: Db, env: Id, request: Id, dek: Count, secret: Key, item: Item)
    requires ItemFits(a, env, request, dek, secret, item) && Grows(a, b) && env in a.envs && env in b.envs
    requires DekByVersion(b, env, dek) == Some(secret)
    ensures ItemFits(b, env, request, dek, secret, item) && ItemShaped(b, request, env, item)
  {
    hide ItemAllowed, DekByVersion, Grows;
    RequestsStay(a, b);
    if item.variable.Some? { VariableLater(a, b, item.variable.value); }
  }

  /** While the key that sealed its values exists, a request read at one time is well formed at every later one. */
  lemma CreateIsShaped(a: Db, b: Db, env: Id, request: Id, inputs: seq<ItemInput>, draws: seq<Drawn>)
    requires |inputs| == |draws| && IdsHold(a) && Grows(a, b) && ReadCreate(a, env, request, inputs, draws).Ok?
    requires DekByVersion(b, env, a.active[env]).Some?
    ensures Shaped(b, CreateOp(request, env, ReadCreate(a, env, request, inputs, draws).value))
  {
    hide IdsHold, Grows, DekByVersion, PrepareItems, ItemFits, ItemShaped, NextDisplayOrder, KeysGrow;
    var secret := DekByVersion(a, env, a.active[env]).value;
    var items := ReadCreate(a, env, request, inputs, draws).value;
    CreatedItemsFit(a, env, secret, request, inputs, draws, {}, NextDisplayOrder(a, env));
    RequestsStay(a, b);
    KeyStays(a, b, env, a.active[env]);
    forall i | 0 <= i < |items| ensures ItemShaped(b, request, env, items[i]) {
      FitsLater(a, b, env, request, a.active[env], secret, items[i]);
    }
  }

  lemma {:induction false} ItemsInsert(db: Db, env: Id, request: Id, dek: Count, secret: Key, items: seq<Item>)
    requires forall i :: 0 <= i < |items| ==> ItemFits(db, env, request, dek, secret, items[i]) && items[i].id !in db.items
    requires forall i, j :: 0 <= i < j < |items| ==> items[i].key != items[j].key && items[i].id != items[j].id
    requires request in db.requests && db.requests[request].env == env && (env, dek) in db.keys
    requires forall i, id :: 0 <= i < |items| && id in db.items && db.items[id].request == request ==> db.items[id].key != items[i].key
    ensures InsertItems(db, items).Some?
    decreases |items|
  {
    hide ItemAllowed;
    if items != [] {
      var mid := db.(items := db.items[items[0].id := items[0]]);
      assert ItemInsertable(db, items[0]);
      ItemsInsert(mid, env, request, dek, secret, items[1..]);
    }
  }

  /** With new identifiers no constraint refuses a request whose key still exists. */
  lemma CreateCommits(a: Db, b: Db, env: Id, request: Id, inputs: seq<ItemInput>, draws: seq<Drawn>)
    requires |inputs| == |draws| && IdsHold(a) && IdsHold(b) && Grows(a, b) && ReadCreate(a, env, request, inputs, draws).Ok?
    requires DekByVersion(b, env, a.active[env]).Some?
    requires request !in b.requests && forall i :: 0 <= i < |draws| ==> draws[i].id !in b.items
    requires forall i, j :: 0 <= i < j < |draws| ==> draws[i].id != draws[j].id
    ensures Create(b, request, env, ReadCreate(a, env, request, inputs, draws).value).Ok?
  {
    hide Grows, PrepareItems, ItemFits, NextDisplayOrder, KeysGrow, InsertItems, AnyNeedsValue;
    var secret := DekByVersion(a, env, a.active[env]).value;
    var items := ReadCreate(a, env, request, inputs, draws).value;
    CreatedItemsFit(a, env, secret, request, inputs, draws, {}, NextDisplayOrder(a, env));
    RequestsStay(a, b);
    KeyStays(a, b, env, a.active[env]);
    var mid := b.(requests := b.requests[request := NewRequest(request, env, items)]);
    forall i | 0 <= i < |items| ensures ItemFits(mid, env, request, a.active[env], secret, items[i]) {
      FitsLater(a, b, env, request, a.active[env], secret, items[i]);
      FitsSameTables(b, mid, env, request, a.active[env], secret, items[i]);
    }
    assert forall i :: 0 <= i < |items| ==> items[i].id == draws[i].id;
    ItemsInsert(mid, env, request, a.active[env], secret, items);
  }

  lemma FitsSameTables(a: Db, b: Db, env: Id, request: Id, dek: Count, secret: Key, item: Item)
    requires ItemFits(a, env, request, dek, secret, item) && a.vars == b.vars && a.envs == b.envs
    ensures ItemFits(b, env, request, dek, secret, item)
  {
    hide ItemAllowed;
  }

  // ----- fulfil

  /** `fulfill_value` up to its transaction: the item it read and the value sealed for the next revision. */
  function ReadFulfill(db: Db, id: Id, value: string, random: Random): Result<(Item, Sealed)> {
    match FulfillRead(db, id)
    case Err(e) => Err(e)
    case Ok(item) =>
      var env := db.requests[item.request].env;
      if Utf8Len(value) > Dotenv.MAX_VALUE_BYTES then Err(InvalidRequest)
      else if env !in db.envs || env !in db.active then Err(CryptoFailure)
      else
        match DekByVersion(db, env, db.active[env])
        case None => Err(CryptoFailure)
        case Some(secret) =>
          var dek := db.active[env];
          var context := ProposedValue(db.envs[env].service, env, item.request, item.id, Next(item.revision).value, dek);
          Ok((item, Sealed(Seal(secret, context, value, random), dek)))
  }

  lemma FulfillIsShaped(a: Db, b: Db, id: Id, value: string, random: Random)
    requires IdsHold(a) && Grows(a, b) && ReadFulfill(a, id, value, random).Ok?
    requires var (item, sealed) := ReadFulfill(a, id, value, random).value;
             DekByVersion(b, a.requests[item.request].env, sealed.dek).Some?
    ensures var (item, sealed) := ReadFulfill(a, id, value, random).value; Shaped(b, FulfillOp(item, sealed))
  {
    hide DekByVersion, Grows, KeysGrow, Utf8Len;
    var (item, sealed) := ReadFulfill(a, id, value, random).value;
    RequestsStay(a, b);
    KeyStays(a, b, a.requests[item.request].env, sealed.dek);
    ItemLater(a, b, id);
  }

  lemma ItemLater(a: Db, b: Db, id: Id)
    requires Grows(a, b) && id in a.items
    ensures id in b.items && ItemGrows(a.items[id], b.items[id])
  {
    hide VariableGrows, RequestGrows, KeysGrow;
  }

  // ----- direct delete

  /** `delete_applied` up to its transaction. */
  function ReadDelete(db: Db, id: Id, draw: Draw): Result<Direct> {
    if id !in db.vars || db.vars[id].lifecycle != ACTIVE then Err(NotFound)
    else
      var row := db.vars[id];
      if row.env !in db.envs then Err(NotFound)
      else if db.envs[row.env].archived || db.envs[row.env].serviceArchived then Err(Conflict)
      else
        match DecryptRow(db, row)
        case Err(e) => Err(e)
        case Ok(plain) =>
          if Next(row.version).None? || row.env !in db.active then Err(CryptoFailure)
          else
            match DekByVersion(db, row.env, db.active[row.env])
            case None => Err(CryptoFailure)
            case Some(secret) =>
              var dek, version := db.active[row.env], Next(row.version).value;
              var context := CurrentValue(db.envs[row.env].service, row.env, row.id, version, dek);
              Ok(Direct(
                VersionWrite(row.id, row.env, row.key, DELETE, Some(row.version), ACTIVE, version, row.meta,
                             Sealed(Seal(secret, context, plain, draw.current), dek), draw.request, draw.item),
                None))
  }

  lemma DeleteIsShaped(a: Db, b: Db, id: Id, draw: Draw)
    requires IdsHold(a) && Grows(a, b) && ReadDelete(a, id, draw).Ok?
    requires var w := ReadDelete(a, id, draw).value.write; DekByVersion(b, w.env, w.sealed.dek).Some?
    ensures Shaped(b, DirectOp(ReadDelete(a, id, draw).value))
  {
    hide DekByVersion, Grows, KeysGrow, DecryptRow;
    var w := ReadDelete(a, id, draw).value.write;
    RequestsStay(a, b);
    KeyStays(a, b, w.env, w.sealed.dek);
  }

  /** A tombstone keeps the value it deletes. */
  lemma DeleteKeepsValue(db: Db, id: Id, draw: Draw)
    requires Inv(db) && ReadDelete(db, id, draw).Ok?
    ensures ReadDelete(db, id, draw).value.write.sealed.blob.plain == db.vars[id].sealed.blob.plain
    ensures ReadDelete(db, id, draw).value.write.meta == db.vars[id].meta
  {
    hide Inv, DekByVersion, DecryptRow;
    OpenedRow(db, db.vars[id]);
  }

  // ----- correction of a previewed item

  function ItemOfSelection(items: seq<Item>, id: Id): (r: Option<Item>)
    ensures r.Some? ==> r.value in items && r.value.id == id && r.value.action != DELETE
  {
    if items == [] then None
    else if items[0].id == id && items[0].action != DELETE then Some(items[0])
    else ItemOfSelection(items[1..], id)
  }

  datatype Correction = Correction(id: Id, value: Option<string>, wellTyped: bool, group: Option<Name>, order: int)

  datatype EditRead = EditRead(env: Id, expected: Digest, edit: Edit, requests: seq<Request>, items: seq<Item>, rows: seq<Variable>)

  /** The correction sealed for the next revision of its item. */
  function CorrectItem(db: Db, env: Id, item: Item, correction: Correction, random: Random): Result<Edit>
    requires env in db.envs
  {
    match DecryptItem(db, env, item)
    case Err(e) => Err(e)
    case Ok(previous) =>
      var value := if correction.value.Some? then correction.value.value else previous;
      var group := ValidateGroup(correction.group);
      if Utf8Len(value) > Dotenv.MAX_VALUE_BYTES || !correction.wellTyped || group.None? || !OrderAllowed(correction.order) then Err(InvalidRequest)
      else if Next(item.revision).None? then Err(Conflict)
      else if env !in db.active then Err(CryptoFailure)
      else
        match DekByVersion(db, env, db.active[env])
        case None => Err(CryptoFailure)
        case Some(secret) =>
          var dek := db.active[env];
          var context := ProposedValue(db.envs[env].service, env, item.request, item.id, Next(item.revision).value, dek);
          var same := value == previous && group.value == item.meta.group && correction.order == item.meta.order;
          Ok(Edit(item, Sealed(Seal(secret, context, value, random), dek), group.value, correction.order, same))
  }

  /** `edit_preview` up to its transaction. */
  function ReadEdit(db: Db, ids: seq<Id>, fingerprint: Digest, correction: Correction, random: Random): Result<EditRead> {
    if ids == [] then Err(InvalidRequest)
    else
      match LoadRequests(db, ids)
      case Err(e) => Err(e)
      case Ok(requests) =>
        var env := requests[0].env;
        if env !in db.envs then Err(NotFound)
        else if db.envs[env].archived || db.envs[env].serviceArchived then Err(Conflict)
        else
          var items := LoadItems(db, ids);
          if !SelectionValid(requests, items) then Err(Conflict)
          else
            var rows := CurrentRows(db, env);
            if SelectionDigest(requests, items, rows) != fingerprint
              || (exists i :: 0 <= i < |requests| && requests[i].fingerprint != Some(fingerprint)) then Err(Conflict)
            else
              match ItemOfSelection(items, correction.id)
              case None => Err(InvalidRequest)
              case Some(item) =>
                match CorrectItem(db, env, item, correction, random)
                case Err(e) => Err(e)
                case Ok(edit) => Ok(EditRead(env, fingerprint, edit, requests, items, rows))
  }

  lemma CorrectionSealed(a: Db, b: Db, env: Id, item: Item, correction: Correction, random: Random)
    requires env in a.envs && env in b.envs && a.envs[env].service == b.envs[env].service
    requires CorrectItem(a, env, item, correction, random).Ok?
    requires DekByVersion(b, env, a.active[env]).Some? && KeysGrow(a, b)
    ensures var edit := CorrectItem(a, env, item, correction, random).value;
      && edit.item == item && Next(item.revision).Some? && edit.sealed.dek == a.active[env]
      && ProposalSealed(b, env, item.(proposed := Some(edit.sealed), revision := Next(item.revision).value))
  {
    hide DekByVersion, DecryptItem, ValidateGroup, Utf8Len, KeysGrow;
    KeyStays(a, b, env, a.active[env]);
  }

  lemma ReadEditParts(a: Db, ids: seq<Id>, fingerprint: Digest, correction: Correction, random: Random, r: EditRead)
    requires IdsHold(a) && ReadEdit(a, ids, fingerprint, correction, random) == Ok(r)
    ensures ids != [] && LoadRequests(a, ids) == Ok(r.requests) && r.items == LoadItems(a, ids) && SelectionValid(r.requests, r.items)
    ensures r.requests != [] && r.env == r.requests[0].env && r.env in a.envs && r.expected == fingerprint
    ensures SelectionDigest(r.requests, r.items, r.rows) == fingerprint
    ensures r.edit.item in r.items && r.edit.item.action != DELETE
    ensures CorrectItem(a, r.env, r.edit.item, correction, random) == Ok(r.edit)
  {
    hide IdsHold, LoadRequests, LoadItems, CurrentRows, SelectionDigest, CorrectItem, SelectionValid;
    var item := ItemOfSelection(LoadItems(a, ids), correction.id).value;
    CorrectedItem(a, LoadRequests(a, ids).value[0].env, item, correction, random);
  }

  lemma CorrectedItem(db: Db, env: Id, item: Item, correction: Correction, random: Random)
    requires env in db.envs && CorrectItem(db, env, item, correction, random).Ok?
    ensures env in db.active && CorrectItem(db, env, item, correction, random).value.sealed.dek == db.active[env]
    ensures CorrectItem(db, env, item, correction, random).value.item == item
  {
    hide DekByVersion, DecryptItem, ValidateGroup, Utf8Len;
  }

  lemma EditIsShaped(a: Db, b: Db, ids: seq<Id>, fingerprint: Digest, correction: Correction, random: Random, r: EditRead)
    requires Inv(a) && Grows(a, b) && ReadEdit(a, ids, fingerprint, correction, random) == Ok(r)
    requires DekByVersion(b, r.env, r.edit.sealed.dek).Some?
    ensures Shaped(b, EditOp(ids, r.env, r.expected, r.edit, r.requests, r.items, r.rows))
  {
    hide Inv, Grows, KeysGrow, DekByVersion, LoadItems, LoadRequests, SelectionDigest, CorrectItem, ProposalSealed, Next, IdsHold, ReadEdit;
    hide SelectionValid;
    InvIds(a);
    ReadEditParts(a, ids, fingerprint, correction, random, r);
    RequestsStay(a, b);
    CorrectedItem(a, r.env, r.edit.item, correction, random);
    CorrectionSealed(a, b, r.env, r.edit.item, correction, random);
    SelectedEnvironment(a, ids);
    LoadedRequests(a, ids);
    LoadedIds(a, ids);
    ItemRequestIn(a, ids, r.items, r.edit.item);
  }

  lemma ItemRequestIn(db: Db, ids: seq<Id>, items: seq<Item>, item: Item)
    requires IdsHold(db) && items == LoadItems(db, ids) && item in items
    ensures item.request in ids
  {
    hide IdsHold, LoadItems;
    LoadedItems(db, ids);
    var k :| 0 <= k < |items| && items[k] == item;
  }

  lemma LoadedIds(db: Db, ids: seq<Id>)
    requires IdsHold(db) && LoadRequests(db, ids).Ok?
    ensures forall i :: 0 <= i < |ids| ==> LoadRequests(db, ids).value[i].id == ids[i]
  {
    hide LoadRequests;
    LoadedRequests(db, ids);
  }
}
