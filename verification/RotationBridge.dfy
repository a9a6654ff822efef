/** The two state machines are about the same tables: a rotation step is a rekeying of the database, a workflow write an ordinary write. */
module RotationBridge {
  import opened Text
  import opened Crypto
  import opened Model
  import opened Store
  import opened Rotation
  import opened RotationProofs

  // ----- the cells of a database

  function CellKeys(db: Db): set<CellId> {
    (set id | id in db.vars :: CurrentCell(id))
    + (set k | k in db.history :: HistoryCell(k.0, k.1))
    + (set id | id in db.items && db.items[id].proposed.Some? :: ProposalCell(id))
  }

  /** The row of a cell exists, and holds a ciphertext. */
  predicate IsCell(db: Db, k: CellId) {
    match k
    case CurrentCell(id) => id in db.vars
    case HistoryCell(id, version) => (id, version) in db.history
    case ProposalCell(id) => id in db.items && db.items[id].proposed.Some?
  }

  lemma CellKeysAre(db: Db, k: CellId)
    ensures k in CellKeys(db) <==> IsCell(db, k)
  {
    match k {
      case CurrentCell(id) =>
      case HistoryCell(id, version) => if (id, version) in db.history { var x := (id, version); assert HistoryCell(x.0, x.1) == k; }
      case ProposalCell(id) =>
    }
  }

  function ServiceOf(db: Db, env: Id): Id { if env in db.envs then db.envs[env].service else "" }

  function ItemEnv(db: Db, item: Item): Id { if item.request in db.requests then db.requests[item.request].env else "" }

  function CurrentCellOf(db: Db, row: Variable): Cell {
    Cell(row.env, ValuePlace(ServiceOf(db, row.env), row.id, row.version), row.sealed.dek, row.sealed.blob)
  }

  function HistoryCellOf(db: Db, h: History): Cell {
    Cell(h.env, ValuePlace(ServiceOf(db, h.env), h.variable, h.version), h.sealed.dek, h.sealed.blob)
  }

  function ProposalCellOf(db: Db, item: Item): Cell
    requires item.proposed.Some?
  {
    var env := ItemEnv(db, item);
    Cell(env, ProposalPlace(ServiceOf(db, env), item.request, item.id, item.revision, None), item.proposed.value.dek, item.proposed.value.blob)
  }

  function CellAt(db: Db, k: CellId): Cell
    requires k in CellKeys(db)
  {
    CellKeysAre(db, k);
    match k
    case CurrentCell(id) => CurrentCellOf(db, db.vars[id])
    case HistoryCell(id, version) => HistoryCellOf(db, db.history[(id, version)])
    case ProposalCell(id) => ProposalCellOf(db, db.items[id])
  }

  function CellsOf(db: Db): map<CellId, Cell> { map k | k in CellKeys(db) :: CellAt(db, k) }

  /** One key row of the two machines. */
  predicate KeyMatches(d: DekRow, row: KeyRow) {
    (d.destroyed <==> row.wrapped.None?) && (row.wrapped.Some? ==> d.key == row.wrapped.value.dek)
  }

  /** The same tables: cells, key rows, ACTIVE versions. No proposal is an old direct one. */
  ghost predicate Matches(db: Db, s: Sys) {
    && s.cells == CellsOf(db)
    && (forall env :: env in db.envs <==> env in s.envs)
    && (forall env :: env in db.envs ==> env in db.active && HasStatus(s, env, db.active[env], ActiveKey))
    && db.keys.Keys == s.keys.Keys && (forall k :: k in s.keys ==> KeyMatches(db.keys[k], s.keys[k]))
  }

  // ----- a rotation step on the database

  function SealedAt(t: Sys, k: CellId): Sealed
    requires k in t.cells
  {
    Sealed(t.cells[k].blob, t.cells[k].dek)
  }

  ghost function ActiveOf(t: Sys, env: Id): (active: Count)
    requires exists v :: HasStatus(t, env, v, ActiveKey)
    ensures HasStatus(t, env, active, ActiveKey)
  {
    var v: Count :| HasStatus(t, env, v, ActiveKey);
    v
  }

  function KeyAfter(db: Db, t: Sys, k: (Id, Count)): DekRow
    requires k in t.keys
  {
    var row := t.keys[k];
    if k in db.keys then DekRow(db.keys[k].key, row.wrapped.None?)
    else if row.wrapped.Some? then DekRow(row.wrapped.value.dek, false)
    else DekRow(0, true)
  }

  /** The database with the ciphertexts and the keys of another state of the rotation. */
  ghost function Written(db: Db, t: Sys): Db
    requires t.cells.Keys == CellKeys(db) && forall env :: env in db.envs ==> exists v :: HasStatus(t, env, v, ActiveKey)
  {
    db.(vars := VarsWith(db, t), history := HistoryWith(db, t), items := ItemsWith(db, t),
        keys := map k | k in t.keys :: KeyAfter(db, t, k),
        active := map env | env in db.envs :: ActiveOf(t, env))
  }

  function VarsWith(db: Db, t: Sys): map<Id, Variable>
    requires t.cells.Keys == CellKeys(db)
  {
    map id | id in db.vars :: (CellKeysAre(db, CurrentCell(id)); db.vars[id].(sealed := SealedAt(t, CurrentCell(id))))
  }

  function HistoryWith(db: Db, t: Sys): map<(Id, Count), History>
    requires t.cells.Keys == CellKeys(db)
  {
    map k | k in db.history :: (CellKeysAre(db, HistoryCell(k.0, k.1)); db.history[k].(sealed := SealedAt(t, HistoryCell(k.0, k.1))))
  }

  function ItemsWith(db: Db, t: Sys): map<Id, Item>
    requires t.cells.Keys == CellKeys(db)
  {
    map id | id in db.items ::
      (CellKeysAre(db, ProposalCell(id));
       if db.items[id].proposed.None? then db.items[id] else db.items[id].(proposed := Some(SealedAt(t, ProposalCell(id)))))
  }

  /** What a rotation step leaves as it was: rows, places, plaintexts. */
  lemma WrittenCell(db: Db, s: Sys, t: Sys, k: CellId)
    requires Matches(db, s) && SamePlains(s, t) && k in s.cells && CellsHold(s) && CellsHold(t)
    ensures k in t.cells && k in CellKeys(db) && t.cells[k].env == CellAt(db, k).env && t.cells[k].place == CellAt(db, k).place
    ensures (t.cells[k].env, t.cells[k].dek) in t.keys && SecretOf(t.keys[(t.cells[k].env, t.cells[k].dek)]).Some?
    ensures OpenCell(SecretOf(t.keys[(t.cells[k].env, t.cells[k].dek)]).value, t.cells[k]) == Some(t.cells[k].blob.plain)
    ensures t.cells[k].blob.plain == s.cells[k].blob.plain
  {
    hide CellKeys, CellAt;
    assert PlainOf(s, k).Some? && PlainOf(t, k).Some?;
    OpenedPlain(s, k);
    OpenedPlain(t, k);
  }

  lemma OpenedPlain(s: Sys, k: CellId)
    requires k in s.cells && PlainOf(s, k).Some?
    ensures (s.cells[k].env, s.cells[k].dek) in s.keys && SecretOf(s.keys[(s.cells[k].env, s.cells[k].dek)]).Some?
    ensures PlainOf(s, k) == Some(s.cells[k].blob.plain)
    ensures OpenCell(SecretOf(s.keys[(s.cells[k].env, s.cells[k].dek)]).value, s.cells[k]) == Some(s.cells[k].blob.plain)
  {
  }

  lemma SamePlainVars(db: Db, s: Sys, t: Sys)
    requires Matches(db, s) && SamePlains(s, t) && CellsHold(s) && CellsHold(t)
    ensures forall id :: id in db.vars ==>
              VarsWith(db, t)[id] == db.vars[id].(sealed := VarsWith(db, t)[id].sealed) && SamePlain(db.vars[id].sealed, VarsWith(db, t)[id].sealed)
  {
    hide CellKeys, CellsHold, OpenCell, PlainOf;
    forall id | id in db.vars ensures SamePlain(db.vars[id].sealed, VarsWith(db, t)[id].sealed) {
      CellKeysAre(db, CurrentCell(id));
      WrittenCell(db, s, t, CurrentCell(id));
    }
  }

  lemma SamePlainHistory(db: Db, s: Sys, t: Sys)
    requires Matches(db, s) && SamePlains(s, t) && CellsHold(s) && CellsHold(t)
    ensures forall k :: k in db.history ==>
              HistoryWith(db, t)[k] == db.history[k].(sealed := HistoryWith(db, t)[k].sealed)
              && SamePlain(db.history[k].sealed, HistoryWith(db, t)[k].sealed)
  {
    hide CellKeys, CellsHold, OpenCell, PlainOf;
    forall k | k in db.history ensures SamePlain(db.history[k].sealed, HistoryWith(db, t)[k].sealed) {
      CellKeysAre(db, HistoryCell(k.0, k.1));
      WrittenCell(db, s, t, HistoryCell(k.0, k.1));
    }
  }

  lemma SamePlainItems(db: Db, s: Sys, t: Sys)
    requires Matches(db, s) && SamePlains(s, t) && CellsHold(s) && CellsHold(t)
    ensures forall id :: id in db.items ==>
              ItemsWith(db, t)[id] == db.items[id].(proposed := ItemsWith(db, t)[id].proposed)
              && SameProposal(db.items[id].proposed, ItemsWith(db, t)[id].proposed)
  {
    hide CellKeys, CellsHold, OpenCell, PlainOf;
    forall id | id in db.items ensures SameProposal(db.items[id].proposed, ItemsWith(db, t)[id].proposed) {
      CellKeysAre(db, ProposalCell(id));
      if db.items[id].proposed.Some? { WrittenCell(db, s, t, ProposalCell(id)); }
    }
  }

  // ----- keys

  predicate RowMoves(a: KeyRow, b: KeyRow) {
    b.wrapped.Some? ==> a.wrapped.Some? && b.wrapped.value.dek == a.wrapped.value.dek
  }

  /** What a step of the rotation does to keys: a key stays what it opens to, a destroyed one stays destroyed. */
  ghost predicate KeysMove(s: Sys, t: Sys) {
    && (forall env :: env in s.envs <==> env in t.envs)
    && (forall k :: k in s.keys ==> k in t.keys && RowMoves(s.keys[k], t.keys[k]))
  }

  lemma MovedKeys(db: Db, s: Sys, t: Sys)
    requires Matches(db, s) && KeysMove(s, t) && t.cells.Keys == CellKeys(db)
    requires forall env :: env in db.envs ==> exists v :: HasStatus(t, env, v, ActiveKey)
    requires forall k :: k in t.keys && k !in s.keys ==> t.keys[k].wrapped.Some?
    ensures KeysGrow(db, Written(db, t))
    ensures forall k :: k in t.keys ==> k in Written(db, t).keys && KeyMatches(Written(db, t).keys[k], t.keys[k])
    ensures Written(db, t).keys.Keys == t.keys.Keys
  {
    hide CellKeys, VarsWith, HistoryWith, ItemsWith, CellsOf, SealedAt;
    var b := Written(db, t);
    forall k | k in t.keys ensures k in b.keys && KeyMatches(b.keys[k], t.keys[k]) {
      if k in s.keys { assert KeyMatches(db.keys[k], s.keys[k]); }
    }
    forall k | k in db.keys ensures k in b.keys && b.keys[k].key == db.keys[k].key && (db.keys[k].destroyed ==> b.keys[k].destroyed) {
      assert k in s.keys && KeyMatches(db.keys[k], s.keys[k]);
    }
  }

  lemma DekIs(b: Db, t: Sys, env: Id, v: Count)
    requires (env, v) in t.keys && (env, v) in b.keys && KeyMatches(b.keys[(env, v)], t.keys[(env, v)]) && SecretOf(t.keys[(env, v)]).Some?
    ensures DekByVersion(b, env, v) == SecretOf(t.keys[(env, v)])
  {
  }

  // ----- everything still opens

  lemma CurrentOpens(db: Db, s: Sys, t: Sys, b: Db, id: Id)
    requires Matches(db, s) && SamePlains(s, t) && CellsHold(s) && CellsHold(t) && IdsHold(db)
    requires t.cells.Keys == CellKeys(db) && b.vars == VarsWith(db, t) && b.envs == db.envs
    requires forall k :: k in t.keys ==> k in b.keys && KeyMatches(b.keys[k], t.keys[k])
    requires id in db.vars
    ensures RowReadable(b, b.vars[id])
  {
    hide CellKeys, CellsHold, PlainOf, IdsHold, DekByVersion;
    var k := CurrentCell(id);
    CellKeysAre(db, k);
    WrittenCell(db, s, t, k);
    assert db.vars[id].env in db.envs by { KnownEnvironment(db, id); }
    DekIs(b, t, t.cells[k].env, t.cells[k].dek);
  }

  lemma KnownEnvironment(db: Db, id: Id)
    requires IdsHold(db) && id in db.vars
    ensures db.vars[id].env in db.envs
  {
  }

  lemma HistoryOpens(db: Db, s: Sys, t: Sys, b: Db, k: (Id, Count))
    requires Matches(db, s) && SamePlains(s, t) && CellsHold(s) && CellsHold(t) && k in db.history && db.history[k].env in db.envs
    requires t.cells.Keys == CellKeys(db) && b.history == HistoryWith(db, t) && b.envs == db.envs
    requires forall x :: x in t.keys ==> x in b.keys && KeyMatches(b.keys[x], t.keys[x])
    ensures HistoryReadable(b, b.history[k])
  {
    hide CellKeys, CellsHold, PlainOf, DekByVersion;
    var c := HistoryCell(k.0, k.1);
    CellKeysAre(db, c);
    WrittenCell(db, s, t, c);
    DekIs(b, t, t.cells[c].env, t.cells[c].dek);
  }

  lemma ProposalOpens(db: Db, s: Sys, t: Sys, b: Db, id: Id)
    requires Matches(db, s) && SamePlains(s, t) && CellsHold(s) && CellsHold(t) && id in db.items
    requires db.items[id].request in db.requests && db.requests[db.items[id].request].env in db.envs
    requires t.cells.Keys == CellKeys(db) && b.items == ItemsWith(db, t) && b.envs == db.envs && b.requests == db.requests
    requires forall x :: x in t.keys ==> x in b.keys && KeyMatches(b.keys[x], t.keys[x])
    ensures ItemReadable(b, b.items[id])
  {
    hide CellKeys, CellsHold, PlainOf, DekByVersion;
    var c := ProposalCell(id);
    CellKeysAre(db, c);
    if db.items[id].proposed.Some? {
      WrittenCell(db, s, t, c);
      DekIs(b, t, t.cells[c].env, t.cells[c].dek);
    }
  }

  /** The state after a step, as the database holds it. */
  ghost predicate Stepped(db: Db, s: Sys, t: Sys) {
    && IdsHold(db) && HistoryComplete(db) && Matches(db, s) && SamePlains(s, t) && CellsHold(s) && CellsHold(t)
    && t.cells.Keys == CellKeys(db)
  }

  lemma WrittenVars(db: Db, s: Sys, t: Sys, b: Db)
    requires Stepped(db, s, t) && b.vars == VarsWith(db, t) && b.envs == db.envs
    requires forall x :: x in t.keys ==> x in b.keys && KeyMatches(b.keys[x], t.keys[x])
    ensures forall id :: id in b.vars ==> RowReadable(b, b.vars[id])
  {
    hide CellKeys, Matches, SamePlains, CellsHold, VarsWith, RowReadable, KeyMatches, IdsHold, HistoryComplete;
    TablesKeepRows(db, t);
    forall id | id in b.vars ensures RowReadable(b, b.vars[id]) { CurrentOpens(db, s, t, b, id); }
  }

  lemma WrittenHistory(db: Db, s: Sys, t: Sys, b: Db)
    requires Stepped(db, s, t) && b.history == HistoryWith(db, t) && b.envs == db.envs
    requires forall x :: x in t.keys ==> x in b.keys && KeyMatches(b.keys[x], t.keys[x])
    ensures forall k :: k in b.history ==> HistoryReadable(b, b.history[k])
  {
    hide CellKeys, Matches, SamePlains, CellsHold, HistoryWith, HistoryReadable, KeyMatches, IdsHold, HistoryComplete;
    TablesKeepRows(db, t);
    forall k | k in b.history ensures HistoryReadable(b, b.history[k]) {
      HistoryEnvironment(db, k);
      HistoryOpens(db, s, t, b, k);
    }
  }

  lemma WrittenItems(db: Db, s: Sys, t: Sys, b: Db)
    requires Stepped(db, s, t) && b.items == ItemsWith(db, t) && b.envs == db.envs && b.requests == db.requests
    requires forall x :: x in t.keys ==> x in b.keys && KeyMatches(b.keys[x], t.keys[x])
    ensures forall id :: id in b.items ==> ItemReadable(b, b.items[id])
  {
    hide CellKeys, Matches, SamePlains, CellsHold, ItemsWith, ItemReadable, KeyMatches, IdsHold, HistoryComplete;
    TablesKeepRows(db, t);
    forall id | id in b.items ensures ItemReadable(b, b.items[id]) {
      ItemEnvironment(db, id);
      ProposalOpens(db, s, t, b, id);
    }
  }

  lemma ItemEnvironment(db: Db, id: Id)
    requires IdsHold(db) && id in db.items
    ensures db.items[id].request in db.requests && db.requests[db.items[id].request].env in db.envs
  {
  }

  lemma WrittenReadable(db: Db, s: Sys, t: Sys)
    requires Stepped(db, s, t) && KeysHold(t) && forall env :: env in db.envs ==> exists v :: HasStatus(t, env, v, ActiveKey)
    requires forall k :: k in t.keys ==> k in Written(db, t).keys && KeyMatches(Written(db, t).keys[k], t.keys[k])
    ensures Readable(Written(db, t))
  {
    hide CellKeys, Matches, SamePlains, KeysHold, CellsHold, VarsWith, HistoryWith, ItemsWith, IdsHold, HistoryComplete;
    hide RowReadable, HistoryReadable, ItemReadable, HasStatus, DekByVersion, KeyAfter, KeyMatches;
    var b := Written(db, t);
    WrittenActive(db, t);
    WrittenVars(db, s, t, b);
    WrittenHistory(db, s, t, b);
    WrittenItems(db, s, t, b);
  }

  lemma WrittenActive(db: Db, t: Sys)
    requires KeysHold(t) && t.cells.Keys == CellKeys(db) && forall env :: env in db.envs ==> exists v :: HasStatus(t, env, v, ActiveKey)
    requires forall k :: k in t.keys ==> k in Written(db, t).keys && KeyMatches(Written(db, t).keys[k], t.keys[k])
    ensures var b := Written(db, t);
            forall env :: env in b.envs ==> env in b.active && HasStatus(t, env, b.active[env], ActiveKey) && DekByVersion(b, env, b.active[env]).Some?
  {
    hide CellKeys, KeysHold, VarsWith, HistoryWith, ItemsWith, HasStatus, KeyMatches, KeyAfter, DekByVersion;
    var b := Written(db, t);
    forall env | env in b.envs ensures env in b.active && HasStatus(t, env, b.active[env], ActiveKey) && DekByVersion(b, env, b.active[env]).Some? {
      ActiveOpens(b, t, env, b.active[env]);
    }
  }

  lemma TablesKeepRows(db: Db, t: Sys)
    requires t.cells.Keys == CellKeys(db)
    ensures VarsWith(db, t).Keys == db.vars.Keys && HistoryWith(db, t).Keys == db.history.Keys && ItemsWith(db, t).Keys == db.items.Keys
  {
    hide CellKeys;
  }

  lemma HistoryEnvironment(db: Db, k: (Id, Count))
    requires IdsHold(db) && HistoryComplete(db) && k in db.history
    ensures db.history[k].env in db.envs
  {
    var (id, n) := k;
    assert (id, n) in db.history;
  }

  lemma ActiveOpens(b: Db, t: Sys, env: Id, v: Count)
    requires KeysHold(t) && HasStatus(t, env, v, ActiveKey)
    requires forall k :: k in t.keys ==> k in b.keys && KeyMatches(b.keys[k], t.keys[k])
    ensures DekByVersion(b, env, v).Some?
  {
    hide Unwrap;
    assert RowHolds(t, (env, v));
  }

  // ----- the bridge

  /** The steps of the rotations, of seeds and of the process. */
  predicate IsRotation(step: Step) { !step.WriteStep? && !step.EnvironmentStep? }

  lemma StepMovesKeys(s: Sys, step: Step)
    requires Sound(s) && IsRotation(step)
    ensures var t := Step1(s, step);
            KeysMove(s, t) && forall k :: k in t.keys && k !in s.keys ==> t.keys[k].wrapped.Some?
  {
    hide Step1, Sound;
    match step {
      case KekStep(op, source, target, supply) => KekMovesKeys(s, op, source, target, supply);
      case FinishStep(op) => FinishMovesKeys(s, op);
      case PrepareStep(op, env, source, target, secret) => PrepareMovesKeys(s, op, env, source, target, secret);
      case BatchStep(op, table, batch, supply) => BatchMovesKeys(s, op, table, batch, supply);
      case _ => OtherMovesKeys(s, step);
    }
  }

  lemma KekMovesKeys(s: Sys, op: Id, source: Count, target: Count, supply: Id -> Random)
    requires Sound(s)
    ensures var t := Step1(s, KekStep(op, source, target, supply)); KeysMove(s, t) && t.keys.Keys == s.keys.Keys
  {
    hide KeksHold, KeysHold, CellsHold, PendingHold, OpsHold, SeedsHold, KeyRewraps, SeedReseals, ResealSeeds, MoveKek, RewrapKeys, IsNextKek, AnyOpen;
    if KekAllowed(s, op, source, target) {
      var t := RotateKek(s, op, source, target, supply);
      MovedKeks(s, t, source, target);
      RewrappedRows(s, t, source, target);
      forall k | k in s.keys ensures t.keys[k].wrapped.Some? ==> s.keys[k].wrapped.Some? && t.keys[k].wrapped.value.dek == s.keys[k].wrapped.value.dek {
        assert SecretOf(t.keys[k]) == SecretOf(s.keys[k]);
      }
    }
  }

  lemma FinishMovesKeys(s: Sys, op: Id)
    ensures var t := Step1(s, FinishStep(op)); KeysMove(s, t) && t.keys.Keys == s.keys.Keys
  {
    hide LoadDek, PrimaryActive, Refs, CiphertextsVerified;
  }

  lemma PrepareMovesKeys(s: Sys, op: Id, env: Id, source: Count, target: Count, secret: Key)
    ensures var t := Step1(s, PrepareStep(op, env, source, target, secret));
            KeysMove(s, t) && forall k :: k in t.keys && k !in s.keys ==> t.keys[k].wrapped.Some?
  {
    hide LoadDek, PrimaryActive, AnyOpen, Refs, Wrap;
  }

  lemma BatchMovesKeys(s: Sys, op: Id, table: Table, batch: set<CellId>, supply: CellId -> Random)
    ensures var t := Step1(s, BatchStep(op, table, batch, supply)); KeysMove(s, t) && t.keys == s.keys
  {
    hide LoadDek, BatchAllowed, MigrateCells;
  }

  lemma OtherMovesKeys(s: Sys, step: Step)
    requires step.EnrolStep? || step.ResetStep? || step.RestartStep? || step.VerifyStep?
    ensures KeysMove(s, Step1(s, step)) && Step1(s, step).keys == s.keys
  {
    hide Step1;
    match step {
      case EnrolStep(user, kek, plain, random) => EnrolLeavesKeys(s, user, kek, plain, random);
      case ResetStep(user) => ResetLeavesKeys(s, user);
      case RestartStep(primary, previous) => RestartLeavesKeys(s, primary, previous);
      case VerifyStep(op) => VerifyLeavesKeys(s, op);
    }
  }

  lemma EnrolLeavesKeys(s: Sys, user: Id, kek: Count, plain: string, random: Random)
    ensures var t := Step1(s, EnrolStep(user, kek, plain, random)); t.keys == s.keys && t.envs == s.envs
  {
    hide EnrolAllowed;
  }

  lemma ResetLeavesKeys(s: Sys, user: Id)
    ensures var t := Step1(s, ResetStep(user)); t.keys == s.keys && t.envs == s.envs
  {
    hide WriteBlocked;
  }

  lemma RestartLeavesKeys(s: Sys, primary: Key, previous: Option<Key>)
    ensures var t := Step1(s, RestartStep(primary, previous)); t.keys == s.keys && t.envs == s.envs
  {
    hide StartAllowed;
  }

  lemma VerifyLeavesKeys(s: Sys, op: Id)
    ensures var t := Step1(s, VerifyStep(op)); t.keys == s.keys && t.envs == s.envs
  {
    hide Refs;
  }

  /**
   * Every step of a rotation, on the tables of the workflow: the same rows with other ciphertexts of the same
   * values, all still readable. It is the rekeying step of the interleavings.
   */
  lemma RotationIsRekeying(db: Db, s: Sys, step: Step) returns (after: Db)
    requires Inv(db) && Sound(s) && Matches(db, s) && IsRotation(step)
    ensures Rekeyed(db, after) && Matches(after, Step1(s, step)) && Run1(db, RekeyOp(after)) == after
  {
    hide Sound, Step1, Inv, Matches, KeysMove, SamePlains, Readable, KeysGrow, VarsWith, HistoryWith, ItemsWith, CellKeys, CellsOf, HasStatus, KeyMatches;
    hide SamePlain, SameProposal, IdsHold, HistoryComplete, CellsHold, KeysHold, Written;
    var t := Step1(s, step);
    StepKeeps(s, step);
    StepMovesKeys(s, step);
    SoundParts(s);
    SoundParts(t);
    InvParts(db);
    StepActive(db, s, t);
    CellKeysKept(db, s, t);
    after := Written(db, t);
    MovedKeys(db, s, t);
    WrittenReadable(db, s, t);
    WrittenMatches(db, s, t);
    WrittenRekeyed(db, s, t);
  }

  lemma WrittenRekeyed(db: Db, s: Sys, t: Sys)
    requires Stepped(db, s, t) && forall env :: env in db.envs ==> exists v :: HasStatus(t, env, v, ActiveKey)
    requires KeysGrow(db, Written(db, t)) && Readable(Written(db, t))
    ensures Rekeyed(db, Written(db, t))
  {
    hide Matches, SamePlains, CellsHold, Readable, KeysGrow, VarsWith, HistoryWith, ItemsWith, CellKeys, HasStatus, SamePlain, SameProposal;
    hide IdsHold, HistoryComplete, KeyAfter;
    TablesKeepRows(db, t);
    SamePlainVars(db, s, t);
    SamePlainHistory(db, s, t);
    SamePlainItems(db, s, t);
  }

  lemma SoundParts(s: Sys)
    requires Sound(s)
    ensures CellsHold(s) && KeysHold(s)
  {
    hide KeksHold, KeysHold, CellsHold, PendingHold, OpsHold, SeedsHold;
  }

  lemma InvParts(db: Db)
    requires Inv(db)
    ensures IdsHold(db) && HistoryComplete(db)
  {
    hide IdsHold, KeysUnique, HistoryComplete, StatusesHold, ItemsHold, Readable;
  }

  lemma StepActive(db: Db, s: Sys, t: Sys)
    requires Matches(db, s) && KeysMove(s, t) && KeysHold(t)
    ensures forall env :: env in db.envs ==> exists v :: HasStatus(t, env, v, ActiveKey)
  {
    hide RowHolds, CellsOf;
  }

  lemma CellKeysKept(db: Db, s: Sys, t: Sys)
    requires Matches(db, s) && SamePlains(s, t)
    ensures t.cells.Keys == CellKeys(db)
  {
    hide CellKeys, PlainOf, CellAt;
  }

  lemma WrittenCellKeys(db: Db, t: Sys)
    requires t.cells.Keys == CellKeys(db) && forall env :: env in db.envs ==> exists v :: HasStatus(t, env, v, ActiveKey)
    ensures CellKeys(Written(db, t)) == CellKeys(db)
  {
    hide CellKeys, HasStatus, KeyAfter;
    var b := Written(db, t);
    forall k ensures k in CellKeys(b) <==> k in CellKeys(db) {
      CellKeysAre(db, k);
      CellKeysAre(b, k);
    }
  }

  lemma WrittenCellAt(db: Db, s: Sys, t: Sys, k: CellId)
    requires Matches(db, s) && SamePlains(s, t) && CellsHold(s) && CellsHold(t) && k in t.cells
    requires t.cells.Keys == CellKeys(db) && forall env :: env in db.envs ==> exists v :: HasStatus(t, env, v, ActiveKey)
    ensures k in CellKeys(Written(db, t)) && CellAt(Written(db, t), k) == t.cells[k]
  {
    hide CellsHold, KeyMatches, HasStatus, CellKeys, PlainOf, OpenCell, KeyAfter;
    WrittenCellKeys(db, t);
    WrittenCell(db, s, t, k);
    CellKeysAre(db, k);
    CellKeysAre(Written(db, t), k);
  }

  lemma WrittenMatches(db: Db, s: Sys, t: Sys)
    requires Matches(db, s) && SamePlains(s, t) && CellsHold(s) && CellsHold(t) && KeysMove(s, t) && KeysHold(t)
    requires t.cells.Keys == CellKeys(db) && forall env :: env in db.envs ==> exists v :: HasStatus(t, env, v, ActiveKey)
    requires forall k :: k in t.keys ==> k in Written(db, t).keys && KeyMatches(Written(db, t).keys[k], t.keys[k])
    requires Written(db, t).keys.Keys == t.keys.Keys
    ensures Matches(Written(db, t), t)
  {
    hide CellsHold, KeyMatches, HasStatus, CellKeys, PlainOf, KeysHold, SamePlains, CellAt, VarsWith, HistoryWith, ItemsWith, DekByVersion;
    var b := Written(db, t);
    WrittenCellKeys(db, t);
    forall k | k in t.cells ensures k in CellKeys(b) && CellAt(b, k) == t.cells[k] { WrittenCellAt(db, s, t, k); }
    assert CellsOf(b) == t.cells;
    WrittenActive(db, t);
    assert b.envs == db.envs;
    assert forall env :: env in b.envs <==> env in t.envs by { SameEnvs(db, s, t); }
  }

  lemma SameEnvs(db: Db, s: Sys, t: Sys)
    requires Matches(db, s) && KeysMove(s, t)
    ensures forall env :: env in db.envs <==> env in t.envs
  {
    hide CellsOf, HasStatus, KeyMatches, RowMoves;
  }

  /** A workflow write that seals what it changes under the ACTIVE keys is an ordinary write of the rotation's machine. */
  lemma WorkflowIsOrdinaryWrite(db: Db, s: Sys, after: Db)
    requires Sound(s) && Matches(db, s) && !WriteBlocked(s)
    requires IdsHold(after) && HistoryComplete(after) && Readable(after)
    requires after.keys == db.keys && after.active == db.active && after.envs.Keys == db.envs.Keys
    requires forall k :: k in CellKeys(after) && !(k in s.cells && s.cells[k] == CellAt(after, k)) ==>
               CellAt(after, k).env in db.active && CellAt(after, k).dek == db.active[CellAt(after, k).env]
    ensures WriteAllowed(s, CellsOf(after)) && Matches(after, s.(cells := CellsOf(after)))
  {
    hide Sound, CellKeys, CellAt, WriteBlocked, HasStatus, KeyMatches, Readable, IdsHold, HistoryComplete, FreshlySealed;
    forall k | k in CellsOf(after) && !(k in s.cells && s.cells[k] == CellsOf(after)[k])
      ensures FreshlySealed(s, CellsOf(after)[k])
    {
      FreshCell(db, s, after, k);
    }
    var t := s.(cells := CellsOf(after));
    assert forall env, v, st :: HasStatus(t, env, v, st) <==> HasStatus(s, env, v, st) by { SameStatuses(s, t); }
  }

  lemma SameStatuses(s: Sys, t: Sys)
    requires t.keys == s.keys
    ensures forall env, v, st :: HasStatus(t, env, v, st) <==> HasStatus(s, env, v, st)
  {
  }

  lemma FreshCell(db: Db, s: Sys, after: Db, k: CellId)
    requires Sound(s) && Matches(db, s) && IdsHold(after) && HistoryComplete(after) && Readable(after)
    requires after.keys == db.keys && after.envs.Keys == db.envs.Keys
    requires k in CellKeys(after) && CellAt(after, k).env in db.active && CellAt(after, k).dek == db.active[CellAt(after, k).env]
    ensures FreshlySealed(s, CellAt(after, k))
  {
    hide Sound, CellKeys, IdsHold, HistoryComplete, Readable, CellsOf, KeyMatches, LoadDek, HasStatus, DekByVersion;
    var cell := CellAt(after, k);
    ReadableCell(after, k);
    assert HasStatus(s, cell.env, cell.dek, ActiveKey);
    assert LoadDek(s, cell.env, cell.dek) == DekByVersion(after, cell.env, cell.dek) by { LoadMatches(db, s, after, cell.env, cell.dek); }
  }

  lemma LoadMatches(db: Db, s: Sys, after: Db, env: Id, v: Count)
    requires Sound(s) && Matches(db, s) && after.keys == db.keys && HasStatus(s, env, v, ActiveKey)
    ensures LoadDek(s, env, v) == DekByVersion(after, env, v)
  {
    hide KeksHold, KeysHold, CellsHold, PendingHold, OpsHold, SeedsHold, CellsOf, LoadDek;
    LoadOf(s, env, v);
    assert KeyMatches(db.keys[(env, v)], s.keys[(env, v)]);
  }

  /** A readable cell opens in its own place with the key that its version names. */
  lemma ReadableCell(db: Db, k: CellId)
    requires k in CellKeys(db) && IdsHold(db) && HistoryComplete(db) && Readable(db)
    ensures var cell := CellAt(db, k);
      && cell.env in db.envs && DekByVersion(db, cell.env, cell.dek).Some?
      && Open(DekByVersion(db, cell.env, cell.dek).value, PlaceContext(cell.env, cell.place, cell.dek), cell.blob).Some?
  {
    hide CellKeys, DekByVersion, HistoryComplete;
    CellKeysAre(db, k);
    match k {
      case CurrentCell(id) => assert RowReadable(db, db.vars[id]);
      case HistoryCell(id, version) => assert HistoryReadable(db, db.history[(id, version)]);
      case ProposalCell(id) => assert ItemReadable(db, db.items[id]);
    }
  }
}
