/** Direct records and imports: preparation, review of visibilities, and the transaction of an import. */
module Import {
  import opened Text
  import opened Bytes
  import opened Crypto
  import Dotenv
  import opened Model
  import opened Fingerprint
  import opened Store

  const MAX_DESCRIPTION_CHARS := 1000

  /** One record or imported entry; `wellTyped` says whether the value parses as its type. */
  datatype Input = Input(
    key: Name, value: string, wellTyped: bool, visibility: Visibility, valueType: ValueType,
    description: Option<Name>, group: Option<Name>, order: int)

  /** What a call draws for one record: three identifiers, and the bytes of two encryptions. */
  datatype Draw = Draw(variable: Id, request: Id, item: Id, current: Random, proposal: Random)

  // ----- validation

  lemma TrimShorter(s: string)
    ensures |Trim(s)| <= |s|
  {
  }

  function TrimName(s: Name): Name {
    TrimShorter(s);
    Trim(s)
  }

  function ValidateKey(raw: Name): Option<Name> {
    if Dotenv.ValidKey(TrimName(raw)) then Some(TrimName(raw)) else None
  }

  function ValidateDescription(d: Option<Name>): Option<Option<Name>> {
    if d.None? || TrimName(d.value) == "" then Some(None)
    else if |TrimName(d.value)| > MAX_DESCRIPTION_CHARS then None
    else Some(Some(TrimName(d.value)))
  }

  predicate IsControl(c: char) { c < ' ' || '\U{7f}' <= c <= '\U{9f}' }

  function ValidateGroup(g: Option<Name>): Option<Option<Name>> {
    if g.None? || TrimName(g.value) == "" then Some(None)
    else
      var name := TrimName(g.value);
      if |name| > Dotenv.MAX_GROUP_CHARS || (exists i :: 0 <= i < |name| && IsControl(name[i])) then None
      else Some(Some(name))
  }

  predicate OrderAllowed(n: int) { 0 <= n < Dotenv.MAX_ENTRIES }

  // ----- rows by key

  function FirstWithKey(rows: seq<Variable>, key: string): (r: Option<Variable>)
    ensures r.Some? ==> r.value in rows && r.value.key == key
    ensures r.None? ==> forall i :: 0 <= i < |rows| ==> rows[i].key != key
  {
    if rows == [] then None else if rows[0].key == key then Some(rows[0]) else FirstWithKey(rows[1..], key)
  }

  /** `WHERE environment_id = ? AND key = ?` */
  function RowByKey(db: Db, env: Id, key: string): Option<Variable> { FirstWithKey(CurrentRows(db, env), key) }

  /** The same with `AND lifecycle_status = 'ACTIVE'`. */
  function ActiveRow(db: Db, env: Id, key: string): Option<Variable> {
    var row := RowByKey(db, env, key);
    if row.Some? && row.value.lifecycle == ACTIVE then row else None
  }

  function MaxOrder(rows: seq<Variable>): int {
    if rows == [] then -1
    else if MaxOrder(rows[1..]) > rows[0].meta.order then MaxOrder(rows[1..]) else rows[0].meta.order
  }

  function NextDisplayOrder(db: Db, env: Id): int { MaxOrder(CurrentRows(db, env)) + 1 }

  // ----- preparation

  function AppliedOrder(db: Db, env: Id, existing: Option<Variable>, requested: int): Option<Count> {
    match existing
    case Some(row) => Some(row.meta.order)
    case None =>
      var order := NextDisplayOrder(db, env) + requested;
      if OrderAllowed(order) then Some(order) else None
  }

  /** The metadata to write, when every field is valid. */
  function InputMeta(db: Db, env: Id, existing: Option<Variable>, input: Input): Option<Meta> {
    var group := ValidateGroup(input.group);
    var description := ValidateDescription(input.description);
    if Utf8Len(input.value) > Dotenv.MAX_VALUE_BYTES || !input.wellTyped || group.None? || description.None?
      || !OrderAllowed(input.order) then None
    else
      match AppliedOrder(db, env, existing, input.order)
      case None => None
      case Some(order) =>
        var kept := if existing.Some? then existing.value.meta.group else None;
        Some(Meta(input.visibility, input.valueType, description.value, if input.group.Some? then group.value else kept, order))
  }

  /** The variable, the version and the kind of write. */
  function InputTarget(existing: Option<Variable>, draw: Draw): Option<(Id, Count, Action, Option<Count>, Lifecycle)> {
    match existing
    case None => Some((draw.variable, 1, ADD, None, ACTIVE))
    case Some(row) =>
      match Next(row.version)
      case None => None
      case Some(version) => Some((row.id, version, if row.lifecycle == ACTIVE then UPDATE else ADD, Some(row.version), row.lifecycle))
  }

  function DirectOf(
    service: Id, env: Id, key: Name, target: (Id, Count, Action, Option<Count>, Lifecycle), meta: Meta, value: string,
    dek: Count, secret: Key, draw: Draw): Direct
  {
    var current := Seal(secret, CurrentValue(service, env, target.0, target.1, dek), value, draw.current);
    var proposal := Seal(secret, ProposedValue(service, env, draw.request, draw.item, 1, dek), value, draw.proposal);
    Direct(VersionWrite(target.0, env, key, target.2, target.3, target.4, target.1, meta, Sealed(current, dek), draw.request, draw.item),
           Some(Sealed(proposal, dek)))
  }

  /** `prepare_applied` */
  function PrepareDirect(db: Db, env: Id, input: Input, draw: Draw): Result<Direct> {
    if env !in db.envs then Err(NotFound)
    else if db.envs[env].archived || db.envs[env].serviceArchived then Err(Conflict)
    else
      match ValidateKey(input.key)
      case None => Err(InvalidRequest)
      case Some(key) =>
        var existing := RowByKey(db, env, key);
        match InputMeta(db, env, existing, input)
        case None => Err(InvalidRequest)
        case Some(meta) =>
          match InputTarget(existing, draw)
          case None => Err(CryptoFailure)
          case Some(target) =>
            if env !in db.active then Err(CryptoFailure)
            else
              match DekByVersion(db, env, db.active[env])
              case None => Err(CryptoFailure)
              case Some(secret) =>
                Ok(DirectOf(db.envs[env].service, env, key, target, meta, input.value, db.active[env], secret, draw))
  }

  /** A prepared entry of an import, with the ACTIVE row that was there and whether the write would change it. */
  datatype Line = Line(direct: Direct, snapshot: Option<Variable>, same: bool)

  /** `import_is_unchanged` */
  function IsUnchanged(db: Db, w: VersionWrite, current: Option<Variable>, value: string): Result<bool> {
    match current
    case None => Ok(false)
    case Some(row) =>
      if w.expected != Some(row.version) || w.meta != row.meta then Ok(false)
      else
        match DecryptRow(db, row)
        case Err(e) => Err(e)
        case Ok(plain) => Ok(plain == value)
  }

  /** A missing description defaults to the one of the ACTIVE row under the key as it was given. */
  function WithDescription(input: Input, current: Option<Variable>): Input {
    if input.description.None? && current.Some? then input.(description := current.value.meta.description) else input
  }

  function ReadLine(db: Db, env: Id, input: Input, draw: Draw): Result<Line> {
    var snapshot := ActiveRow(db, env, input.key);
    match PrepareDirect(db, env, WithDescription(input, snapshot), draw)
    case Err(e) => Err(e)
    case Ok(direct) =>
      match IsUnchanged(db, direct.write, snapshot, input.value)
      case Err(e) => Err(e)
      case Ok(same) => Ok(Line(direct, snapshot, same))
  }

  function ReadLines(db: Db, env: Id, inputs: seq<Input>, draws: seq<Draw>, seen: set<Name>): Result<seq<Line>>
    requires |inputs| == |draws|
  {
    if inputs == [] then Ok([])
    else
      match ValidateKey(inputs[0].key)
      case None => Err(InvalidRequest)
      case Some(key) =>
        if key in seen then Err(InvalidRequest)
        else
          match ReadLine(db, env, inputs[0], draws[0])
          case Err(e) => Err(e)
          case Ok(line) =>
            match ReadLines(db, env, inputs[1..], draws[1..], seen + {key})
            case Err(e) => Err(e)
            case Ok(rest) => Ok([line] + rest)
  }

  /** Everything that `import_applied_reviewed` does before its transaction. */
  function ImportRead(db: Db, env: Id, inputs: seq<Input>, draws: seq<Draw>): Result<seq<Line>>
    requires |inputs| == |draws|
  {
    if inputs == [] || |inputs| > Dotenv.MAX_ENTRIES then Err(InvalidRequest)
    else ReadLines(db, env, inputs, draws, {})
  }

  // ----- the review

  /** A use of a key in the App: a variable, or an item of an open request. */
  datatype Reference = Reference(
    id: Id, env: Id, key: Name, visibility: Visibility, active: bool, pending: bool, revision: Count)

  function VariableReference(db: Db, row: Variable): Reference
    requires row.env in db.envs
  {
    Reference(row.id, row.env, row.key, row.meta.visibility, !db.envs[row.env].archived && row.lifecycle == ACTIVE, false, row.version)
  }

  predicate IsOpen(db: Db, item: Item) {
    && item.request in db.requests && db.requests[item.request].env in db.envs
    && db.requests[item.request].status in {REQUESTED, NEEDS_INPUT, READY_TO_APPLY}
  }

  predicate OpenIn(db: Db, service: Id, item: Item) {
    IsOpen(db, item) && db.envs[db.requests[item.request].env].service == service
  }

  predicate StoredIn(db: Db, service: Id, row: Variable) {
    row.env in db.envs && db.envs[row.env].service == service
  }

  function ItemReference(db: Db, item: Item): Reference
    requires IsOpen(db, item)
  {
    var env := db.requests[item.request].env;
    Reference(item.id, env, item.key, item.meta.visibility, !db.envs[env].archived, true, item.revision)
  }

  predicate FromVariable(db: Db, service: Id, r: Reference) {
    exists id :: id in db.vars && StoredIn(db, service, db.vars[id]) && r == VariableReference(db, db.vars[id])
  }

  predicate FromItem(db: Db, service: Id, r: Reference) {
    exists id :: id in db.items && OpenIn(db, service, db.items[id]) && r == ItemReference(db, db.items[id])
  }

  /** `load`, in any order: every variable and every open item of the App, and nothing else. */
  ghost predicate IsReferenceList(db: Db, service: Id, refs: seq<Reference>) {
    && (forall i :: 0 <= i < |refs| ==> FromVariable(db, service, refs[i]) || FromItem(db, service, refs[i]))
    && (forall id :: id in db.vars && StoredIn(db, service, db.vars[id]) ==> VariableReference(db, db.vars[id]) in refs)
    && (forall id :: id in db.items && OpenIn(db, service, db.items[id]) ==> ItemReference(db, db.items[id]) in refs)
  }

  datatype ReviewStatus = Conflicting | Existing | Inherited | NewKey | Historical

  datatype Review = Review(
    key: Name, status: ReviewStatus, visibility: Visibility, locked: bool, conflict: bool, references: seq<Reference>)

  function Matching(refs: seq<Reference>, key: Name): (r: seq<Reference>)
    ensures forall x :: x in r <==> x in refs && x.key == key
  {
    if refs == [] then []
    else (if refs[0].key == key then [refs[0]] else []) + Matching(refs[1..], key)
  }

  function Current(refs: seq<Reference>): (r: seq<Reference>)
    ensures forall x :: x in r <==> x in refs && x.active && !x.pending
  {
    if refs == [] then []
    else (if refs[0].active && !refs[0].pending then [refs[0]] else []) + Current(refs[1..])
  }

  predicate HasPending(refs: seq<Reference>) { exists i :: 0 <= i < |refs| && refs[i].active && refs[i].pending }

  /** The closure of `review` for one key. */
  function ReviewKey(refs: seq<Reference>, env: Id, key: Name): Review {
    var matches := Matching(refs, key);
    var current := Current(matches);
    var visibility := if current == [] then Restricted else current[0].visibility;
    var conflict :=
      (exists i :: 0 <= i < |current| && current[i].visibility != visibility)
      || (exists i :: 0 <= i < |matches| && matches[i].active && matches[i].pending
                      && (matches[i].env == env || matches[i].visibility != visibility));
    var status :=
      if conflict then Conflicting
      else if exists i :: 0 <= i < |current| && current[i].env == env then Existing
      else if current != [] then Inherited
      else if matches == [] then NewKey
      else Historical;
    Review(key, status, if conflict then Restricted else visibility,
           current != [] || conflict || HasPending(matches), conflict, matches)
  }

  function Reviews(refs: seq<Reference>, env: Id, keys: seq<Name>): (r: seq<Review>)
    ensures |r| == |keys| && forall i :: 0 <= i < |keys| ==> r[i] == ReviewKey(refs, env, keys[i])
  {
    seq(|keys|, i requires 0 <= i < |keys| => ReviewKey(refs, env, keys[i]))
  }

  // ----- the transaction

  function LineKeys(lines: seq<Line>): (r: seq<Name>)
    ensures |r| == |lines| && forall i :: 0 <= i < |lines| ==> r[i] == lines[i].direct.write.key
  {
    seq(|lines|, i requires 0 <= i < |lines| => lines[i].direct.write.key)
  }

  predicate ReviewAllows(review: Review, w: VersionWrite) {
    !review.conflict && (review.locked ==> review.visibility == w.meta.visibility)
  }

  predicate ReviewsAllow(reviews: seq<Review>, lines: seq<Line>)
    requires |reviews| == |lines|
  {
    forall i :: 0 <= i < |lines| ==> ReviewAllows(reviews[i], lines[i].direct.write)
  }

  /** The columns that the snapshot compares. */
  predicate SameStored(a: Variable, b: Variable) {
    && a.id == b.id && a.env == b.env && a.key == b.key && a.meta == b.meta && a.version == b.version
    && a.sealed.dek == b.sealed.dek && a.sealed.blob.ciphertext == b.sealed.blob.ciphertext && a.sealed.blob.nonce == b.sealed.blob.nonce
  }

  predicate SameSnapshot(a: Option<Variable>, b: Option<Variable>) {
    (a.None? <==> b.None?) && (a.Some? ==> SameStored(a.value, b.value))
  }

  predicate LineCurrent(db: Db, env: Id, line: Line) {
    && SameSnapshot(ActiveRow(db, env, line.direct.write.key), line.snapshot)
    && env in db.active && line.direct.write.sealed.dek == db.active[env]
  }

  function Changed(lines: seq<Line>): (r: seq<Direct>)
    ensures |r| <= |lines|
  {
    if lines == [] then []
    else (if lines[0].same then [] else [lines[0].direct]) + Changed(lines[1..])
  }

  /** The transaction of `import_applied_reviewed`: the new database and the number of changed variables. */
  function ImportCommit(db: Db, env: Id, lines: seq<Line>, refs: seq<Reference>, expected: Option<seq<Review>>): Result<(Db, nat)> {
    if env !in db.envs then Err(NotFound)
    else if db.envs[env].archived || db.envs[env].serviceArchived then Err(Conflict)
    else
      var reviews := Reviews(refs, env, LineKeys(lines));
      if (expected.Some? && expected.value != reviews) || !ReviewsAllow(reviews, lines) then Err(ImportReviewConflict)
      else if env !in db.active then Err(CryptoFailure)
      else if exists i :: 0 <= i < |lines| && !LineCurrent(db, env, lines[i]) then Err(Conflict)
      else
        match PersistImport(db, env, Changed(lines))
        case Err(e) => Err(e)
        case Ok(db') => Ok((db', |Changed(lines)|))
  }
}
