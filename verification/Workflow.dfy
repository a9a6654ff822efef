/** What the preview and the apply of a selection compute before their transactions, and the export. */
module Workflow {
  import opened Text
  import opened Bytes
  import opened Crypto
  import Dotenv
  import opened DotenvRender
  import opened Model
  import opened Fingerprint
  import opened Store
  import opened PreviewLines

  // ----- the preview

  datatype Shown = Shown(value: string, group: Option<Name>, order: Count)

  /** The rows that are not deleted, added to a map from key to value. */
  function ActiveValues(db: Db, rows: seq<Variable>, values: map<Name, Shown>): Result<map<Name, Shown>>
    decreases |rows|
  {
    if rows == [] then Ok(values)
    else
      var row := rows[0];
      if row.lifecycle != ACTIVE then ActiveValues(db, rows[1..], values)
      else
        match DecryptRow(db, row)
        case Err(e) => Err(e)
        case Ok(value) => ActiveValues(db, rows[1..], values[row.key := Shown(value, row.meta.group, row.meta.order)])
  }

  function RowById(rows: seq<Variable>, id: Id): (r: Option<Variable>)
    ensures r.Some? ==> r.value in rows && r.value.id == id
  {
    if rows == [] then None else if rows[0].id == id then Some(rows[0]) else RowById(rows[1..], id)
  }

  /** The active row that an UPDATE or DELETE item names, at the version it is based on. */
  function BaseRow(rows: seq<Variable>, item: Item): (r: Option<Variable>)
    ensures r.Some? ==> r.value in rows && item.variable == Some(r.value.id) && r.value.lifecycle == ACTIVE
    ensures r.Some? ==> item.base == Some(r.value.version)
  {
    if item.variable.None? then None
    else
      match RowById(rows, item.variable.value)
      case None => None
      case Some(row) => if row.lifecycle == ACTIVE && item.base == Some(row.version) then Some(row) else None
  }

  /** One turn of the item loop in `resolve_dotenv`. */
  function ResolveItem(db: Db, env: Id, rows: seq<Variable>, values: map<Name, Shown>, item: Item): Result<map<Name, Shown>> {
    match item.action
    case DELETE =>
      var row := BaseRow(rows, item);
      if row.None? || row.value.key != item.key || item.key !in values then Err(Conflict)
      else Ok(values - {item.key})
    case ADD =>
      if item.key in values then Err(Conflict)
      else
        (match DecryptItem(db, env, item)
         case Err(e) => Err(e)
         case Ok(value) => Ok(values[item.key := Shown(value, item.meta.group, item.meta.order)]))
    case UPDATE =>
      var row := BaseRow(rows, item);
      if row.None? || row.value.key != item.key then Err(Conflict)
      else
        (match DecryptItem(db, env, item)
         case Err(e) => Err(e)
         case Ok(value) => Ok(values[item.key := Shown(value, item.meta.group, item.meta.order)]))
  }

  function ResolveItems(db: Db, env: Id, rows: seq<Variable>, values: map<Name, Shown>, items: seq<Item>): Result<map<Name, Shown>>
    decreases |items|
  {
    if items == [] then Ok(values)
    else
      match ResolveItem(db, env, rows, values, items[0])
      case Err(e) => Err(e)
      case Ok(values') => ResolveItems(db, env, rows, values', items[1..])
  }

  function Resolve(db: Db, env: Id, rows: seq<Variable>, items: seq<Item>): Result<map<Name, Shown>> {
    match ActiveValues(db, rows, map[])
    case Err(e) => Err(e)
    case Ok(values) => ResolveItems(db, env, rows, values, items)
  }

  /** The keys of a map in their order. */
  function OrderedKeys(values: map<Name, Shown>): (r: seq<Name>)
    ensures forall k :: k in r <==> k in values
    ensures forall i, j :: 0 <= i < j < |r| ==> r[i] != r[j]
  {
    OrderedIdsComplete(map k | k in values :: k);
    OrderedIds(map k | k in values :: k)
  }

  function ShownEntry(key: Name, shown: Shown): Dotenv.Entry {
    Dotenv.Entry.Entry(key, shown.value, shown.group, shown.order)
  }

  function EntriesOf(values: map<Name, Shown>, keys: seq<Name>): (es: seq<Dotenv.Entry>)
    requires forall i :: 0 <= i < |keys| ==> keys[i] in values
    ensures |es| == |keys| && forall i :: 0 <= i < |keys| ==> es[i] == ShownEntry(keys[i], values[keys[i]])
  {
    seq(|keys|, i requires 0 <= i < |keys| => ShownEntry(keys[i], values[keys[i]]))
  }

  function PreviewEntries(values: map<Name, Shown>): seq<Dotenv.Entry> {
    EntriesOf(values, OrderedKeys(values))
  }

  datatype Preview = Preview(requests: seq<Request>, items: seq<Item>, digest: Digest, text: string, lines: seq<PreviewLine>)

  /** Everything that `preview_resulting` does before its transaction. */
  function ReadPreview(db: Db, ids: seq<Id>): Result<Preview> {
    if ids == [] then Err(InvalidRequest)
    else
      match LoadRequests(db, ids)
      case Err(e) => Err(e)
      case Ok(requests) =>
        var env := requests[0].env;
        if env !in db.envs then Err(NotFound)
        else if db.envs[env].archived || db.envs[env].serviceArchived then Err(Conflict)
        else
          var items := LoadItems(db, ids);
          if !SelectionValid(requests, items) then Err(Conflict)
          else
            var rows := CurrentRows(db, env);
            match Resolve(db, env, rows, items)
            case Err(e) => Err(e)
            case Ok(values) =>
              var es := PreviewEntries(values);
              Ok(Preview(requests, items, SelectionDigest(requests, items, rows), Render(es), Annotated(Render(es), es, items)))
  }

  // ----- the preparation of an apply

  /** What a call draws for one item: a new variable id, and the bytes of its encryption. */
  datatype Drawn = Drawn(id: Id, random: Random)

  function ById(rows: seq<Variable>): map<Id, Variable> {
    if rows == [] then map[] else ById(rows[..|rows| - 1])[rows[|rows| - 1].id := rows[|rows| - 1]]
  }

  function ByKey(rows: seq<Variable>): map<Name, Variable> {
    if rows == [] then map[] else ByKey(rows[..|rows| - 1])[rows[|rows| - 1].key := rows[|rows| - 1]]
  }

  /** The row that an item changes, the version and lifecycle it must still have, and the new version and value. */
  datatype Basis = Basis(variable: Id, expected: Option<Count>, from: Lifecycle, version: Count, value: string)

  function FollowingVersion(row: Variable, value: Result<string>): Result<Basis> {
    match value
    case Err(e) => Err(e)
    case Ok(plain) =>
      match Next(row.version)
      case None => Err(CryptoFailure)
      case Some(version) => Ok(Basis(row.id, Some(row.version), row.lifecycle, version, plain))
  }

  /** The `match` on the action in `prepare_apply_items`. */
  function ItemBasis(
    db: Db, env: Id, byId: map<Id, Variable>, byKey: map<Name, Variable>, item: Item, drawn: Drawn): Result<Basis>
  {
    if item.action == ADD then
      if item.key in byKey then
        if byKey[item.key].lifecycle == DELETED then FollowingVersion(byKey[item.key], DecryptItem(db, env, item))
        else Err(Conflict)
      else
        (match DecryptItem(db, env, item)
         case Err(e) => Err(e)
         case Ok(plain) => Ok(Basis(drawn.id, None, ACTIVE, 1, plain)))
    else if item.variable.None? || item.variable.value !in byId then Err(Conflict)
    else
      var row := byId[item.variable.value];
      if row.lifecycle != ACTIVE || item.base != Some(row.version) || row.key != item.key then Err(Conflict)
      else FollowingVersion(row, if item.action == UPDATE then DecryptItem(db, env, item) else DecryptRow(db, row))
  }

  function WriteOf(service: Id, env: Id, dek: Count, key: Key, item: Item, basis: Basis, random: Random): VersionWrite {
    VersionWrite(
      basis.variable, env, item.key, item.action, basis.expected, basis.from, basis.version, item.meta,
      Sealed(Seal(key, CurrentValue(service, env, basis.variable, basis.version, dek), basis.value, random), dek),
      item.request, item.id)
  }

  function PrepareItems(
    db: Db, env: Id, dek: Count, key: Key, byId: map<Id, Variable>, byKey: map<Name, Variable>,
    items: seq<Item>, supply: Id -> Drawn): Result<seq<VersionWrite>>
    requires env in db.envs
    decreases |items|
  {
    if items == [] then Ok([])
    else
      var drawn := supply(items[0].id);
      match ItemBasis(db, env, byId, byKey, items[0], drawn)
      case Err(e) => Err(e)
      case Ok(basis) =>
        match PrepareItems(db, env, dek, key, byId, byKey, items[1..], supply)
        case Err(e) => Err(e)
        case Ok(rest) => Ok([WriteOf(db.envs[env].service, env, dek, key, items[0], basis, drawn.random)] + rest)
  }

  /** `prepare_apply_items` */
  function PrepareApply(db: Db, env: Id, items: seq<Item>, rows: seq<Variable>, supply: Id -> Drawn): Result<seq<VersionWrite>>
    requires env in db.envs
  {
    if env !in db.active then Err(CryptoFailure)
    else
      match DekByVersion(db, env, db.active[env])
      case None => Err(CryptoFailure)
      case Some(key) => PrepareItems(db, env, db.active[env], key, ById(rows), ByKey(rows), items, supply)
  }

  datatype Prepared = Prepared(env: Id, writes: seq<VersionWrite>)

  /** Everything that `mark_applied` does before its transaction. */
  function ReadApply(db: Db, ids: seq<Id>, supply: Id -> Drawn): Result<Prepared> {
    if ids == [] then Err(InvalidRequest)
    else
      match LoadRequests(db, ids)
      case Err(e) => Err(e)
      case Ok(requests) =>
        var env := requests[0].env;
        var items := LoadItems(db, ids);
        if !SelectionValid(requests, items) then Err(Conflict)
        else if env !in db.envs then Err(NotFound)
        else if db.envs[env].archived || db.envs[env].serviceArchived then Err(Conflict)
        else
          match PrepareApply(db, env, items, CurrentRows(db, env), supply)
          case Err(e) => Err(e)
          case Ok(writes) => Ok(Prepared(env, writes))
  }

  // ----- the export

  /** The rows that an export reads: each ACTIVE row of the environment once, in any order. */
  ghost predicate ListsActive(db: Db, env: Id, ids: seq<Id>) {
    && (forall i, j :: 0 <= i < j < |ids| ==> ids[i] != ids[j])
    && (forall id :: id in ids <==> id in db.vars && db.vars[id].env == env && db.vars[id].lifecycle == ACTIVE)
  }

  function ExportEntries(db: Db, ids: seq<Id>): Result<seq<Dotenv.Entry>>
    requires forall i :: 0 <= i < |ids| ==> ids[i] in db.vars
  {
    if ids == [] then Ok([])
    else
      var row := db.vars[ids[0]];
      match DecryptRow(db, row)
      case Err(e) => Err(e)
      case Ok(value) =>
        match ExportEntries(db, ids[1..])
        case Err(e) => Err(e)
        case Ok(rest) => Ok([Dotenv.Entry.Entry(row.key, value, row.meta.group, row.meta.order)] + rest)
  }

  /** `export_environment` */
  function Export(db: Db, ids: seq<Id>): Result<string>
    requires forall i :: 0 <= i < |ids| ==> ids[i] in db.vars
  {
    match ExportEntries(db, ids)
    case Err(e) => Err(e)
    case Ok(es) => Ok(Render(es))
  }
}

/** The loops of the preview, the preparation and the export, each computing the function that specifies it. */
module WorkflowReads {
  import opened Text
  import opened Crypto
  import Dotenv
  import opened DotenvRender
  import opened DotenvWriter
  import opened Model
  import opened Fingerprint
  import opened Store
  import opened PreviewLines
  import opened Workflow

  /** The ids of the requests, when all of them are ready in one environment. */
  method CheckRequests(requests: seq<Request>) returns (ids: Option<set<Id>>)
    ensures ids.Some? <==> OneReadyEnvironment(requests)
    ensures ids.Some? ==> forall id :: id in ids.value <==> Known(requests, id)
  {
    if requests == [] { return None; }
    var seen: set<Id> := {};
    var i := 0;
    while i < |requests|
      invariant 0 <= i <= |requests|
      invariant forall k :: 0 <= k < i ==>
                  requests[k].env == requests[0].env && requests[k].status == READY_TO_APPLY && requests[k].approved
      invariant forall id :: id in seen <==> exists k :: 0 <= k < i && requests[k].id == id
    {
      if requests[i].env != requests[0].env || requests[i].status != READY_TO_APPLY || !requests[i].approved { return None; }
      seen := seen + {requests[i].id};
      i := i + 1;
    }
    return Some(seen);
  }

  /** Every item has a key of its own, and a value unless it deletes. */
  method CheckItems(items: seq<Item>) returns (valid: bool)
    ensures valid == DistinctComplete(items)
  {
    hide NeedsValue;
    var keys: set<Name> := {};
    var i := 0;
    while i < |items|
      invariant 0 <= i <= |items|
      invariant forall key :: key in keys <==> exists k :: 0 <= k < i && items[k].key == key
      invariant forall k :: 0 <= k < i ==> !NeedsValue(items[k])
      invariant forall j, k :: 0 <= j < k < i ==> items[j].key != items[k].key
    {
      if items[i].key in keys || NeedsValue(items[i]) { return false; }
      keys := keys + {items[i].key};
      i := i + 1;
    }
    return true;
  }

  /** `validate_selection` */
  method ValidateSelection(requests: seq<Request>, items: seq<Item>) returns (valid: bool)
    ensures valid == SelectionValid(requests, items)
  {
    hide OneReadyEnvironment, DistinctComplete, Known;
    var ids := CheckRequests(requests);
    if ids.None? || items == [] { return false; }
    var i := 0;
    while i < |items|
      invariant 0 <= i <= |items|
      invariant forall k :: 0 <= k < i ==> Known(requests, items[k].request)
    {
      if items[i].request !in ids.value { return false; }
      i := i + 1;
    }
    valid := CheckItems(items);
  }

  /** `resolve_dotenv`: rows inserted, then items inserted, replaced and removed. */
  method ResolveDotenv(db: Db, env: Id, items: seq<Item>, rows: seq<Variable>)
    returns (r: Result<(string, seq<PreviewLine>)>)
    ensures Resolve(db, env, rows, items).Err? ==> r == Err(Resolve(db, env, rows, items).error)
    ensures Resolve(db, env, rows, items).Ok? ==>
              var es := PreviewEntries(Resolve(db, env, rows, items).value);
              r == Ok((Render(es), Annotated(Render(es), es, items)))
  {
    hide DecryptRow, ResolveItem, Render, Annotated, OrderedIds, IsLeast;
    var values: map<Name, Shown> := map[];
    var i := 0;
    ghost var rest := rows;
    while i < |rows|
      invariant 0 <= i <= |rows| && rest == rows[i..]
      invariant ActiveValues(db, rest, values) == ActiveValues(db, rows, map[])
    {
      if rows[i].lifecycle == ACTIVE {
        var value := DecryptRow(db, rows[i]);
        if value.Err? { return Err(value.error); }
        values := values[rows[i].key := Shown(value.value, rows[i].meta.group, rows[i].meta.order)];
      }
      i := i + 1;
      rest := rest[1..];
    }
    ghost var start := values;
    i := 0;
    ghost var more := items;
    while i < |items|
      invariant 0 <= i <= |items| && more == items[i..]
      invariant ResolveItems(db, env, rows, values, more) == ResolveItems(db, env, rows, start, items)
    {
      var step := ApplyToValues(db, env, rows, values, items[i]);
      if step.Err? { return Err(step.error); }
      values := step.value;
      i := i + 1;
      more := more[1..];
    }
    var es := PreviewEntries(values);
    var text := RenderText(es);
    var lines := AnnotateLines(text, es, items);
    return Ok((text, lines));
  }

  /** One item, applied to the values so far. */
  method ApplyToValues(db: Db, env: Id, rows: seq<Variable>, values: map<Name, Shown>, item: Item)
    returns (r: Result<map<Name, Shown>>)
    ensures r == ResolveItem(db, env, rows, values, item)
  {
    hide DecryptItem;
    if item.action == ADD {
      if item.key in values { return Err(Conflict); }
    } else {
      var row := FindBase(rows, item);
      if row.None? || row.value.key != item.key { return Err(Conflict); }
      if item.action == DELETE {
        if item.key !in values { return Err(Conflict); }
        return Ok(values - {item.key});
      }
    }
    var value := DecryptItem(db, env, item);
    if value.Err? { return Err(value.error); }
    return Ok(values[item.key := Shown(value.value, item.meta.group, item.meta.order)]);
  }

  method FindBase(rows: seq<Variable>, item: Item) returns (r: Option<Variable>)
    ensures r == BaseRow(rows, item)
  {
    if item.variable.None? { return None; }
    var i := 0;
    ghost var rest := rows;
    while i < |rows|
      invariant 0 <= i <= |rows| && rest == rows[i..]
      invariant RowById(rest, item.variable.value) == RowById(rows, item.variable.value)
    {
      if rows[i].id == item.variable.value {
        return if rows[i].lifecycle == ACTIVE && item.base == Some(rows[i].version) then Some(rows[i]) else None;
      }
      i := i + 1;
      rest := rest[1..];
    }
    return None;
  }

  /** `prepare_apply_items`: one write pushed for each item. */
  method PrepareApplyItems(db: Db, env: Id, items: seq<Item>, rows: seq<Variable>, supply: Id -> Drawn)
    returns (r: Result<seq<VersionWrite>>)
    requires env in db.envs
    ensures r == PrepareApply(db, env, items, rows, supply)
  {
    hide ItemBasis, WriteOf, DekByVersion;
    if env !in db.active { return Err(CryptoFailure); }
    var dek := db.active[env];
    var unwrapped := DekByVersion(db, env, dek);
    if unwrapped.None? { return Err(CryptoFailure); }
    var byId: map<Id, Variable> := map[];
    var byKey: map<Name, Variable> := map[];
    var i := 0;
    while i < |rows|
      invariant 0 <= i <= |rows| && byId == ById(rows[..i]) && byKey == ByKey(rows[..i])
    {
      assert rows[..i + 1][..i] == rows[..i];
      byId := byId[rows[i].id := rows[i]];
      byKey := byKey[rows[i].key := rows[i]];
      i := i + 1;
    }
    assert rows[..i] == rows;
    var prepared: seq<VersionWrite> := [];
    i := 0;
    ghost var all := PrepareItems(db, env, dek, unwrapped.value, byId, byKey, items, supply);
    ghost var more := items;
    assert all.Ok? ==> [] + all.value == all.value;
    while i < |items|
      invariant 0 <= i <= |items| && more == items[i..]
      invariant var rest := PrepareItems(db, env, dek, unwrapped.value, byId, byKey, more, supply);
                all == if rest.Err? then rest else Ok(prepared + rest.value)
    {
      var drawn := supply(items[i].id);
      var basis := ItemBasis(db, env, byId, byKey, items[i], drawn);
      if basis.Err? { return Err(basis.error); }
      var write := WriteOf(db.envs[env].service, env, dek, unwrapped.value, items[i], basis.value, drawn.random);
      ghost var rest := PrepareItems(db, env, dek, unwrapped.value, byId, byKey, more[1..], supply);
      assert rest.Ok? ==> prepared + ([write] + rest.value) == (prepared + [write]) + rest.value;
      prepared := prepared + [write];
      i := i + 1;
      more := more[1..];
    }
    assert prepared + [] == prepared;
    return Ok(prepared);
  }

  /** The read phase of `preview_resulting`. */
  method PreviewResulting(db: Db, ids: seq<Id>) returns (r: Result<Preview>)
    ensures r == ReadPreview(db, ids)
  {
    hide SelectionValid, SelectionDigest, Resolve, Annotated, Render, LoadItems, CurrentRows, PreviewEntries;
    if ids == [] { return Err(InvalidRequest); }
    var requests := LoadRequests(db, ids);
    if requests.Err? { return Err(requests.error); }
    var env := requests.value[0].env;
    if env !in db.envs { return Err(NotFound); }
    if db.envs[env].archived || db.envs[env].serviceArchived { return Err(Conflict); }
    var items := LoadItems(db, ids);
    var valid := ValidateSelection(requests.value, items);
    if !valid { return Err(Conflict); }
    var rows := CurrentRows(db, env);
    var digest := SelectionFingerprint(requests.value, items, rows);
    var resolved := ResolveDotenv(db, env, items, rows);
    if resolved.Err? { return Err(resolved.error); }
    return Ok(Preview(requests.value, items, digest, resolved.value.0, resolved.value.1));
  }

  /** `export_environment`: each row decrypted in turn, then rendered. */
  method ExportEnvironment(db: Db, ids: seq<Id>) returns (r: Result<string>)
    requires forall i :: 0 <= i < |ids| ==> ids[i] in db.vars
    ensures r == Export(db, ids)
  {
    hide DecryptRow, Render;
    var es: seq<Dotenv.Entry> := [];
    var i := 0;
    ghost var more := ids;
    assert ExportEntries(db, ids).Ok? ==> [] + ExportEntries(db, ids).value == ExportEntries(db, ids).value;
    while i < |ids|
      invariant 0 <= i <= |ids| && more == ids[i..]
      invariant var rest := ExportEntries(db, more);
                ExportEntries(db, ids) == if rest.Err? then rest else Ok(es + rest.value)
    {
      var row := db.vars[ids[i]];
      var value := DecryptRow(db, row);
      if value.Err? { return Err(value.error); }
      var entry := Dotenv.Entry.Entry(row.key, value.value, row.meta.group, row.meta.order);
      ghost var rest := ExportEntries(db, more[1..]);
      assert rest.Ok? ==> es + ([entry] + rest.value) == (es + [entry]) + rest.value;
      es := es + [entry];
      i := i + 1;
      more := more[1..];
    }
    assert es + [] == es;
    var text := RenderText(es);
    return Ok(text);
  }
}
