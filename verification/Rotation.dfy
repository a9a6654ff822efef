/** Master keys, environment keys and what they seal; every transaction that touches them. */
module Rotation {
  import opened Text
  import opened Bytes
  import opened Crypto
  import opened Model

  datatype KeyStatus = ActiveKey | PendingKey | RetiredKey

  /** A wrapped environment key: it opens under one master key with one authenticated data. */
  datatype Wrapped = Wrapped(master: Key, context: Context, dek: Key)

  datatype KeyRow = KeyRow(status: KeyStatus, kek: Count, wrapped: Option<Wrapped>)

  /** A row of the master-key registry; the fingerprint is injective, so the key itself. */
  datatype Kek = Kek(master: Key, active: bool)

  datatype Table = CurrentTable | HistoryTable | ProposalTable

  /**
   * What a ciphertext is bound to besides its environment and key version. An old direct proposal may
   * still be bound like the history row `legacy` names: its variable and version.
   */
  datatype Place =
    | ValuePlace(service: Id, variable: Id, version: Count)
    | ProposalPlace(service: Id, request: Id, item: Id, revision: Count, legacy: Option<(Id, Count)>)

  datatype Cell = Cell(env: Id, place: Place, dek: Count, blob: Blob)

  /** The row of a ciphertext: a variable, one of its versions, or an item. */
  datatype CellId = CurrentCell(id: Id) | HistoryCell(variable: Id, version: Count) | ProposalCell(id: Id)

  function TableOf(k: CellId): Table {
    match k
    case CurrentCell(_) => CurrentTable
    case HistoryCell(_, _) => HistoryTable
    case ProposalCell(_) => ProposalTable
  }

  datatype OpStatus = MIGRATING | VERIFYING | COMPLETED

  /** A DEK operation, or a completed KEK operation. */
  datatype Operation = Operation(kek: bool, env: Id, source: Count, target: Count, status: OpStatus, total: nat, processed: nat)

  datatype Seed = Seed(crypto: Count, kek: Count, blob: Blob)

  /** The tables, and the master keys that the running process has mounted. */
  datatype Sys = Sys(
    envs: map<Id, Id>,
    keks: map<Count, Kek>,
    keys: map<(Id, Count), KeyRow>,
    ops: map<Id, Operation>,
    cells: map<CellId, Cell>,
    seeds: map<Id, Seed>,
    primary: Key,
    previous: Option<Key>)

  // ----- opening

  function Wrap(master: Key, env: Id, dek: Count, kek: Count, secret: Key): Wrapped {
    Wrapped(master, WrappedDek(env, dek, kek), secret)
  }

  function Unwrap(master: Key, env: Id, dek: Count, kek: Count, w: Wrapped): Option<Key> {
    if w.master == master && w.context == WrappedDek(env, dek, kek) then Some(w.dek) else None
  }

  /** `unwrap_dek`: the primary key, then the previous one. */
  function UnwrapMounted(s: Sys, env: Id, dek: Count, kek: Count, w: Wrapped): Option<Key> {
    match Unwrap(s.primary, env, dek, kek, w)
    case Some(key) => Some(key)
    case None => if s.previous.Some? then Unwrap(s.previous.value, env, dek, kek, w) else None
  }

  /** `load_dek` */
  function LoadDek(s: Sys, env: Id, version: Count): Option<Key> {
    if (env, version) !in s.keys then None
    else
      var row := s.keys[(env, version)];
      if row.wrapped.None? then None else UnwrapMounted(s, env, version, row.kek, row.wrapped.value)
  }

  function PlaceContext(env: Id, place: Place, dek: Count): Context {
    match place
    case ValuePlace(service, variable, version) => CurrentValue(service, env, variable, version, dek)
    case ProposalPlace(service, request, item, revision, _) => ProposedValue(service, env, request, item, revision, dek)
  }

  /** Decryption in a batch: an old direct proposal may open as the value of its history row. */
  function OpenCell(secret: Key, cell: Cell): Option<string> {
    match Open(secret, PlaceContext(cell.env, cell.place, cell.dek), cell.blob)
    case Some(plain) => Some(plain)
    case None =>
      if cell.place.ProposalPlace? && cell.place.legacy.Some? then
        var (variable, version) := cell.place.legacy.value;
        Open(secret, CurrentValue(cell.place.service, cell.env, variable, version, cell.dek), cell.blob)
      else None
  }

  /** A cell sealed afresh for another version of the key. */
  function Reseal(secret: Key, cell: Cell, target: Count, plain: string, random: Random): Cell {
    cell.(dek := target, blob := Seal(secret, PlaceContext(cell.env, cell.place, target), plain, random))
  }

  /** The key of a seed is derived from the master key; the derivation is injective. */
  function OpenSeed(master: Key, user: Id, seed: Seed): Option<string> {
    Open(master, TotpSeed(user, seed.crypto), seed.blob)
  }

  function SealSeed(master: Key, user: Id, crypto: Count, kek: Count, plain: string, random: Random): Seed {
    Seed(crypto, kek, Seal(master, TotpSeed(user, crypto), plain, random))
  }

  // ----- queries

  predicate IsActiveKek(s: Sys, v: Count) { v in s.keks && s.keks[v].active }

  predicate HasStatus(s: Sys, env: Id, v: Count, status: KeyStatus) {
    (env, v) in s.keys && s.keys[(env, v)].status == status
  }

  predicate IsOpen(s: Sys, op: Id) { op in s.ops && s.ops[op].status != COMPLETED }

  predicate AnyOpen(s: Sys) { exists op :: op in s.ops && IsOpen(s, op) }

  /** `ensure_primary_kek_active` */
  predicate PrimaryActive(s: Sys) { exists v :: v in s.keks && IsActiveKek(s, v) && s.keks[v].master == s.primary }

  /** `write_blocked` */
  predicate WriteBlocked(s: Sys) { AnyOpen(s) || !PrimaryActive(s) }

  function RefSet(s: Sys, env: Id, v: Count): set<CellId> {
    set k | k in s.cells && s.cells[k].env == env && s.cells[k].dek == v
  }

  /** `count_dek_references` */
  function Refs(s: Sys, env: Id, v: Count): nat { |RefSet(s, env, v)| }

  /** `COALESCE(MAX(dek_version), 0) + 1` */
  predicate IsNextDek(s: Sys, env: Id, v: Count) {
    && (forall k :: k in s.keys && k.0 == env ==> k.1 < v)
    && (v == 1 || (env, v - 1) in s.keys)
  }

  predicate IsNextKek(s: Sys, v: Count) {
    && (forall k :: k in s.keks ==> k < v)
    && (v == 1 || v - 1 in s.keks)
  }

  // ----- ordinary writes, environments, seeds, restarts

  /** A cell as every ordinary write leaves it: sealed in its place under the ACTIVE key. */
  predicate FreshlySealed(s: Sys, cell: Cell) {
    && cell.env in s.envs && HasStatus(s, cell.env, cell.dek, ActiveKey)
    && var secret := LoadDek(s, cell.env, cell.dek);
    secret.Some? && Open(secret.value, PlaceContext(cell.env, cell.place, cell.dek), cell.blob).Some?
  }

  /** Any configuration write, as one step: rows appear, change or disappear. */
  predicate WriteAllowed(s: Sys, cells: map<CellId, Cell>) {
    && !WriteBlocked(s)
    && forall k :: k in cells && !(k in s.cells && s.cells[k] == cells[k]) ==> FreshlySealed(s, cells[k])
  }

  predicate EnvironmentAllowed(s: Sys, env: Id, kek: Count) {
    && !WriteBlocked(s) && env !in s.envs && (forall k :: k in s.keys ==> k.0 != env) && IsActiveKek(s, kek)
  }

  function AddEnvironment(s: Sys, env: Id, service: Id, kek: Count, secret: Key): Sys {
    s.(envs := s.envs[env := service], keys := s.keys[(env, 1) := KeyRow(ActiveKey, kek, Some(Wrap(s.primary, env, 1, kek, secret)))])
  }

  /** `create_pending_totp`: not behind the write gate, so it tests the primary key itself. */
  predicate EnrolAllowed(s: Sys, user: Id, kek: Count) {
    user !in s.seeds && IsActiveKek(s, kek) && s.keks[kek].master == s.primary
  }

  /** The checks at start-up: the registry, every ACTIVE environment key, every seed. */
  predicate StartAllowed(s: Sys) {
    && (exists v :: v in s.keks && IsActiveKek(s, v) && (s.keks[v].master == s.primary || s.previous == Some(s.keks[v].master)))
    && (forall k :: k in s.keys && s.keys[k].status == ActiveKey ==> LoadDek(s, k.0, k.1).Some?)
    && (forall u :: u in s.seeds ==>
          IsActiveKek(s, s.seeds[u].kek)
          && (OpenSeed(s.primary, u, s.seeds[u]).Some? || (s.previous.Some? && OpenSeed(s.previous.value, u, s.seeds[u]).Some?)))
  }

  // ----- DEK rotation

  /** The first transaction of `load_or_prepare_dek_operation`, with the tests before it. */
  predicate PrepareAllowed(s: Sys, op: Id, env: Id, source: Count, target: Count) {
    && env in s.envs && PrimaryActive(s) && !AnyOpen(s) && op !in s.ops
    && HasStatus(s, env, source, ActiveKey) && LoadDek(s, env, source).Some? && IsNextDek(s, env, target)
  }

  function PrepareDek(s: Sys, op: Id, env: Id, source: Count, target: Count, secret: Key): Sys
    requires (env, source) in s.keys
  {
    var kek := s.keys[(env, source)].kek;
    s.(keys := s.keys[(env, target) := KeyRow(PendingKey, kek, Some(Wrap(s.primary, env, target, kek, secret)))],
       ops := s.ops[op := Operation(false, env, source, target, MIGRATING, Refs(s, env, source), 0)])
  }

  const BATCH_SIZE := 64

  /** The rows a batch selects: some of those of one table that name the source version. */
  predicate IsBatch(s: Sys, o: Operation, table: Table, batch: set<CellId>) {
    && batch <= RefSet(s, o.env, o.source) && batch != {} && |batch| <= BATCH_SIZE
    && forall k :: k in batch ==> TableOf(k) == table
  }

  /** One batch of `migrate_dek_batches`: every row opens, and the checkpoint is accepted. */
  predicate BatchAllowed(s: Sys, op: Id, table: Table, batch: set<CellId>) {
    && op in s.ops && !s.ops[op].kek && s.ops[op].status == MIGRATING
    && var o := s.ops[op];
    && PrimaryActive(s) && LoadDek(s, o.env, o.source).Some? && LoadDek(s, o.env, o.target).Some?
    && IsBatch(s, o, table, batch)
    && (forall k :: k in batch ==> OpenCell(LoadDek(s, o.env, o.source).value, s.cells[k]).Some?)
    && o.processed + |batch| <= o.total
  }

  function MigrateCells(s: Sys, o: Operation, batch: set<CellId>, former: Key, secret: Key, supply: CellId -> Random): map<CellId, Cell>
    requires forall k :: k in batch ==> k in s.cells && OpenCell(former, s.cells[k]).Some?
  {
    map k | k in s.cells ::
      if k in batch then Reseal(secret, s.cells[k], o.target, OpenCell(former, s.cells[k]).value, supply(k)) else s.cells[k]
  }

  function MigrateBatch(s: Sys, op: Id, table: Table, batch: set<CellId>, supply: CellId -> Random): Sys
    requires BatchAllowed(s, op, table, batch)
  {
    var o := s.ops[op];
    var former, secret := LoadDek(s, o.env, o.source).value, LoadDek(s, o.env, o.target).value;
    s.(cells := MigrateCells(s, o, batch, former, secret, supply), ops := s.ops[op := o.(processed := o.processed + |batch|)])
  }

  /** The end of `migrate_dek_batches`: all three tables gave no rows. */
  predicate VerifyAllowed(s: Sys, op: Id) {
    && op in s.ops && !s.ops[op].kek && s.ops[op].status == MIGRATING
    && Refs(s, s.ops[op].env, s.ops[op].source) == 0
  }

  function BeginVerify(s: Sys, op: Id): Sys
    requires op in s.ops
  {
    s.(ops := s.ops[op := s.ops[op].(status := VERIFYING)])
  }

  /** `verify_dek_ciphertexts`: every cell of the target version opens in its own place. */
  predicate CiphertextsVerified(s: Sys, env: Id, target: Count) {
    && LoadDek(s, env, target).Some?
    && forall k :: k in RefSet(s, env, target) ==>
         Open(LoadDek(s, env, target).value, PlaceContext(env, s.cells[k].place, target), s.cells[k].blob).Some?
  }

  /** `verify_and_finalize_dek`: the counts, the ciphertexts, then the transaction with its two row counts. */
  predicate FinishAllowed(s: Sys, op: Id) {
    && IsOpen(s, op) && !s.ops[op].kek
    && var o := s.ops[op];
    && PrimaryActive(s)
    && Refs(s, o.env, o.source) == 0 && Refs(s, o.env, o.target) == o.total && CiphertextsVerified(s, o.env, o.target)
    && HasStatus(s, o.env, o.source, ActiveKey) && HasStatus(s, o.env, o.target, PendingKey)
  }

  function Finish(s: Sys, op: Id): Sys
    requires FinishAllowed(s, op)
  {
    var o := s.ops[op];
    var sourceRow, targetRow := s.keys[(o.env, o.source)], s.keys[(o.env, o.target)];
    s.(keys := s.keys[(o.env, o.source) := sourceRow.(status := RetiredKey, wrapped := None)]
                     [(o.env, o.target) := targetRow.(status := ActiveKey)],
       ops := s.ops[op := o.(status := COMPLETED, processed := o.total)])
  }

  // ----- KEK rotation

  /** The tests of `rotate_kek` before its transaction: versions, fingerprints, every key, every seed. */
  predicate KekAllowed(s: Sys, op: Id, source: Count, target: Count) {
    && IsActiveKek(s, source) && op !in s.ops && !AnyOpen(s)
    && s.previous == Some(s.keks[source].master) && s.primary != s.keks[source].master
    && (forall v :: v in s.keks ==> s.keks[v].master != s.primary) && IsNextKek(s, target)
    && (forall k :: k in s.keys && s.keys[k].status == ActiveKey ==> KeyRewraps(s, source, k))
    && (forall u :: u in s.seeds ==> SeedReseals(s, source, u))
  }

  predicate KeyRewraps(s: Sys, source: Count, k: (Id, Count))
    requires k in s.keys && s.previous.Some?
  {
    var row := s.keys[k];
    row.kek == source && row.wrapped.Some? && Unwrap(s.previous.value, k.0, k.1, row.kek, row.wrapped.value).Some?
  }

  predicate SeedReseals(s: Sys, source: Count, u: Id)
    requires u in s.seeds && s.previous.Some?
  {
    s.seeds[u].kek == source && OpenSeed(s.previous.value, u, s.seeds[u]).Some?
  }

  function Rewrapped(s: Sys, source: Count, target: Count, k: (Id, Count)): KeyRow
    requires k in s.keys && s.previous.Some? && KeyRewraps(s, source, k)
  {
    var row := s.keys[k];
    var secret := Unwrap(s.previous.value, k.0, k.1, row.kek, row.wrapped.value).value;
    row.(kek := target, wrapped := Some(Wrap(s.primary, k.0, k.1, target, secret)))
  }

  function Resealed(s: Sys, source: Count, target: Count, u: Id, random: Random): Seed
    requires u in s.seeds && s.previous.Some? && SeedReseals(s, source, u)
  {
    SealSeed(s.primary, u, s.seeds[u].crypto, target, OpenSeed(s.previous.value, u, s.seeds[u]).value, random)
  }

  function RewrapKeys(s: Sys, source: Count, target: Count): map<(Id, Count), KeyRow>
    requires s.previous.Some? && forall k :: k in s.keys && s.keys[k].status == ActiveKey ==> KeyRewraps(s, source, k)
  {
    map k | k in s.keys :: if s.keys[k].status == ActiveKey then Rewrapped(s, source, target, k) else s.keys[k]
  }

  function ResealSeeds(s: Sys, source: Count, target: Count, supply: Id -> Random): map<Id, Seed>
    requires s.previous.Some? && forall u :: u in s.seeds ==> SeedReseals(s, source, u)
  {
    map u | u in s.seeds :: Resealed(s, source, target, u, supply(u))
  }

  function MoveKek(s: Sys, source: Count, target: Count): map<Count, Kek>
    requires source in s.keks
  {
    s.keks[source := s.keks[source].(active := false)][target := Kek(s.primary, true)]
  }

  /** The one transaction of `rotate_kek`. */
  function RotateKek(s: Sys, op: Id, source: Count, target: Count, supply: Id -> Random): Sys
    requires KekAllowed(s, op, source, target)
  {
    var total := |set k | k in s.keys && s.keys[k].status == ActiveKey| + |s.seeds|;
    s.(keks := MoveKek(s, source, target), keys := RewrapKeys(s, source, target), seeds := ResealSeeds(s, source, target, supply),
       ops := s.ops[op := Operation(true, "", source, target, COMPLETED, total, total)])
  }

  // ----- runs

  /** One transaction, or one restart of the process; a crash is the end of a call between two of them. */
  datatype Step =
    | WriteStep(cells: map<CellId, Cell>)
    | EnvironmentStep(env: Id, service: Id, kek: Count, secret: Key)
    | EnrolStep(user: Id, kek: Count, plain: string, random: Random)
    | ResetStep(user: Id)
    | RestartStep(primary: Key, previous: Option<Key>)
    | PrepareStep(op: Id, env: Id, source: Count, target: Count, secret: Key)
    | BatchStep(op: Id, table: Table, batch: set<CellId>, supply: CellId -> Random)
    | VerifyStep(op: Id)
    | FinishStep(op: Id)
    | KekStep(op: Id, source: Count, target: Count, seeds: Id -> Random)

  predicate Allowed(s: Sys, step: Step) {
    match step
    case WriteStep(cells) => WriteAllowed(s, cells)
    case EnvironmentStep(env, _, kek, _) => EnvironmentAllowed(s, env, kek)
    case EnrolStep(user, kek, _, _) => EnrolAllowed(s, user, kek)
    case ResetStep(user) => !WriteBlocked(s)
    case RestartStep(primary, previous) => StartAllowed(s.(primary := primary, previous := previous))
    case PrepareStep(op, env, source, target, _) => PrepareAllowed(s, op, env, source, target)
    case BatchStep(op, table, batch, _) => BatchAllowed(s, op, table, batch)
    case VerifyStep(op) => VerifyAllowed(s, op)
    case FinishStep(op) => FinishAllowed(s, op)
    case KekStep(op, source, target, _) => KekAllowed(s, op, source, target)
  }

  function Take(s: Sys, step: Step): Sys
    requires Allowed(s, step)
  {
    match step
    case WriteStep(cells) => s.(cells := cells)
    case EnvironmentStep(env, service, kek, secret) => AddEnvironment(s, env, service, kek, secret)
    case EnrolStep(user, kek, plain, random) => s.(seeds := s.seeds[user := SealSeed(s.primary, user, 1, kek, plain, random)])
    case ResetStep(user) => s.(seeds := s.seeds - {user})
    case RestartStep(primary, previous) => s.(primary := primary, previous := previous)
    case PrepareStep(op, env, source, target, secret) => PrepareDek(s, op, env, source, target, secret)
    case BatchStep(op, table, batch, supply) => MigrateBatch(s, op, table, batch, supply)
    case VerifyStep(op) => BeginVerify(s, op)
    case FinishStep(op) => Finish(s, op)
    case KekStep(op, source, target, supply) => RotateKek(s, op, source, target, supply)
  }

  /** A step whose tests fail leaves everything as it was. */
  function Step1(s: Sys, step: Step): Sys {
    if Allowed(s, step) then Take(s, step) else s
  }

  function Steps(s: Sys, steps: seq<Step>): Sys
    decreases |steps|
  {
    if steps == [] then s else Steps(Step1(s, steps[0]), steps[1..])
  }

  // ----- what every state keeps

  ghost predicate KeksHold(s: Sys) {
    && (exists v :: IsActiveKek(s, v))
    && (forall v, w :: IsActiveKek(s, v) && IsActiveKek(s, w) ==> v == w)
    && (forall v, w :: v in s.keks && w in s.keks && s.keks[v].master == s.keks[w].master ==> v == w)
    && (forall v :: IsActiveKek(s, v) ==> s.keks[v].master == s.primary || s.previous == Some(s.keks[v].master))
  }

  /** A key that is not retired is wrapped under the ACTIVE master key; a retired one is destroyed. */
  predicate RowHolds(s: Sys, k: (Id, Count))
    requires k in s.keys
  {
    var row := s.keys[k];
    && k.0 in s.envs
    && (row.status == RetiredKey <==> row.wrapped.None?)
    && (row.wrapped.Some? ==>
          IsActiveKek(s, row.kek) && Unwrap(s.keks[row.kek].master, k.0, k.1, row.kek, row.wrapped.value).Some?)
  }

  ghost predicate KeysHold(s: Sys) {
    && (forall k :: k in s.keys ==> RowHolds(s, k))
    && (forall env :: env in s.envs ==> exists v :: HasStatus(s, env, v, ActiveKey))
    && (forall env, v, w :: HasStatus(s, env, v, ActiveKey) && HasStatus(s, env, w, ActiveKey) ==> v == w)
  }

  /** The key that a row opens to. */
  function SecretOf(row: KeyRow): Option<Key> {
    if row.wrapped.Some? then Some(row.wrapped.value.dek) else None
  }

  /** The plaintext of a cell, through the key row it names. */
  function PlainOf(s: Sys, k: CellId): Option<string>
    requires k in s.cells
  {
    var cell := s.cells[k];
    if (cell.env, cell.dek) !in s.keys then None
    else
      match SecretOf(s.keys[(cell.env, cell.dek)])
      case None => None
      case Some(secret) => OpenCell(secret, cell)
  }

  ghost predicate CellsHold(s: Sys) {
    forall k :: k in s.cells ==> PlainOf(s, k).Some?
  }

  /** A cell under a PENDING key opens in its own place. */
  ghost predicate PendingHold(s: Sys) {
    forall k :: k in s.cells && HasStatus(s, s.cells[k].env, s.cells[k].dek, PendingKey) ==>
      var secret := SecretOf(s.keys[(s.cells[k].env, s.cells[k].dek)]);
      secret.Some? && Open(secret.value, PlaceContext(s.cells[k].env, s.cells[k].place, s.cells[k].dek), s.cells[k].blob).Some?
  }

  predicate OpenHolds(s: Sys, op: Id)
    requires IsOpen(s, op)
  {
    var o := s.ops[op];
    && !o.kek && o.env in s.envs && o.source != o.target
    && HasStatus(s, o.env, o.source, ActiveKey) && HasStatus(s, o.env, o.target, PendingKey)
    && o.processed + Refs(s, o.env, o.source) == o.total && Refs(s, o.env, o.target) == o.processed
    && (o.status == VERIFYING ==> Refs(s, o.env, o.source) == 0)
  }

  ghost predicate OpsHold(s: Sys) {
    && (forall a, b :: IsOpen(s, a) && IsOpen(s, b) ==> a == b)
    && (forall op :: IsOpen(s, op) ==> OpenHolds(s, op))
    && (forall env, v :: HasStatus(s, env, v, PendingKey) ==> exists op :: IsOpen(s, op) && s.ops[op].env == env && s.ops[op].target == v)
  }

  ghost predicate SeedsHold(s: Sys) {
    forall u :: u in s.seeds ==>
      IsActiveKek(s, s.seeds[u].kek) && OpenSeed(s.keks[s.seeds[u].kek].master, u, s.seeds[u]).Some?
  }

  ghost predicate Sound(s: Sys) {
    KeksHold(s) && KeysHold(s) && CellsHold(s) && PendingHold(s) && OpsHold(s) && SeedsHold(s)
  }
}
