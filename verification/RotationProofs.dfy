/** What every step of the key tables keeps. */
module RotationProofs {
  import opened Text
  import opened Bytes
  import opened Crypto
  import opened Model
  import opened Rotation

  // ----- loading a key

  /** In a sound state a wrapped key opens with what is mounted. */
  lemma LoadIs(s: Sys, k: (Id, Count))
    requires KeksHold(s) && k in s.keys && RowHolds(s, k)
    ensures LoadDek(s, k.0, k.1) == SecretOf(s.keys[k])
  {
  }

  lemma LoadOf(s: Sys, env: Id, v: Count)
    requires KeksHold(s) && KeysHold(s)
    ensures LoadDek(s, env, v) == if (env, v) in s.keys then SecretOf(s.keys[(env, v)]) else None
  {
    hide KeksHold, RowHolds, UnwrapMounted, SecretOf;
    if (env, v) in s.keys { LoadIs(s, (env, v)); }
  }

  lemma NoOpenNoPending(s: Sys)
    requires OpsHold(s) && !AnyOpen(s)
    ensures forall env, v :: !HasStatus(s, env, v, PendingKey)
  {
    hide OpenHolds;
    assert forall op :: !IsOpen(s, op);
  }

  lemma ActiveMaster(s: Sys, v: Count)
    requires KeksHold(s) && PrimaryActive(s) && IsActiveKek(s, v)
    ensures s.keks[v].master == s.primary
  {
  }

  // ----- writes, environments, seeds, restarts

  lemma WriteKeeps(s: Sys, cells: map<CellId, Cell>)
    requires Sound(s) && WriteAllowed(s, cells)
    ensures Sound(s.(cells := cells))
  {
    hide KeksHold, KeysHold, SeedsHold, OpsHold, CellsHold, PendingHold, FreshlySealed, PlainOf;
    var t := s.(cells := cells);
    NoOpenNoPending(s);
    SameKeyTables(s, t);
    WrittenCells(s, t);
    assert OpsHold(t) by { ClosedOps(s, t); }
    assert PendingHold(t) by { NothingPending(s, t); }
  }

  lemma WrittenCells(s: Sys, t: Sys)
    requires KeksHold(s) && KeysHold(s) && CellsHold(s) && t.keys == s.keys
    requires forall k :: k in t.cells && !(k in s.cells && s.cells[k] == t.cells[k]) ==> FreshlySealed(s, t.cells[k])
    ensures CellsHold(t)
  {
    hide KeksHold, KeysHold, LoadDek, OpenCell, Open, PlaceContext;
    forall k | k in t.cells ensures PlainOf(t, k).Some? {
      if k in s.cells && s.cells[k] == t.cells[k] {
        assert PlainOf(s, k).Some?;
      } else {
        LoadOf(s, t.cells[k].env, t.cells[k].dek);
        OpensInPlace(LoadDek(s, t.cells[k].env, t.cells[k].dek).value, t.cells[k]);
      }
    }
  }

  lemma ClosedOps(s: Sys, t: Sys)
    requires OpsHold(s) && !AnyOpen(s) && t.ops == s.ops && t.keys == s.keys
    ensures OpsHold(t)
  {
    hide OpenHolds;
    NoOpenNoPending(s);
    assert forall env, v :: HasStatus(t, env, v, PendingKey) ==> HasStatus(s, env, v, PendingKey);
    assert forall op :: IsOpen(t, op) ==> IsOpen(s, op);
    assert forall op :: !IsOpen(s, op);
  }

  lemma NothingPending(s: Sys, t: Sys)
    requires t.keys == s.keys && forall env, v :: !HasStatus(s, env, v, PendingKey)
    ensures PendingHold(t)
  {
    hide Open, PlaceContext;
    assert forall env, v :: HasStatus(t, env, v, PendingKey) ==> HasStatus(s, env, v, PendingKey);
  }

  lemma OpensInPlace(secret: Key, cell: Cell)
    requires Open(secret, PlaceContext(cell.env, cell.place, cell.dek), cell.blob).Some?
    ensures OpenCell(secret, cell) == Open(secret, PlaceContext(cell.env, cell.place, cell.dek), cell.blob)
  {
    hide Open, PlaceContext;
  }

  lemma SameKeyTables(s: Sys, t: Sys)
    requires t.keks == s.keks && t.keys == s.keys && t.seeds == s.seeds && t.envs == s.envs && t.primary == s.primary && t.previous == s.previous
    ensures KeksHold(s) ==> KeksHold(t)
    ensures KeysHold(s) ==> KeysHold(t)
    ensures SeedsHold(s) ==> SeedsHold(t)
  {
    hide Unwrap, OpenSeed;
    assert forall v :: IsActiveKek(s, v) <==> IsActiveKek(t, v);
    assert forall env, v, st :: HasStatus(s, env, v, st) <==> HasStatus(t, env, v, st);
    if KeysHold(s) {
      assert forall k :: k in t.keys ==> RowHolds(s, k);
    }
  }

  lemma SameCellTables(s: Sys, t: Sys)
    requires t.keys == s.keys && t.cells == s.cells && t.ops == s.ops && t.envs == s.envs
    ensures CellsHold(s) ==> CellsHold(t)
    ensures PendingHold(s) ==> PendingHold(t)
    ensures OpsHold(s) ==> OpsHold(t)
    ensures forall k :: k in s.cells ==> PlainOf(t, k) == PlainOf(s, k)
  {
    hide OpenCell, Open, PlaceContext;
    assert forall env, v, st :: HasStatus(s, env, v, st) <==> HasStatus(t, env, v, st);
    assert forall op :: IsOpen(s, op) <==> IsOpen(t, op);
    assert forall env, v :: RefSet(s, env, v) == RefSet(t, env, v);
    if OpsHold(s) {
      forall op | IsOpen(t, op) ensures OpenHolds(t, op) { assert OpenHolds(s, op); }
    }
  }

  lemma SeedsKeep(s: Sys, t: Sys)
    requires Sound(s) && t == s.(seeds := t.seeds)
    requires forall u :: u in t.seeds && u in s.seeds ==> t.seeds[u] == s.seeds[u]
    requires forall u :: u in t.seeds && u !in s.seeds ==>
               IsActiveKek(s, t.seeds[u].kek) && OpenSeed(s.keks[t.seeds[u].kek].master, u, t.seeds[u]).Some?
    ensures Sound(t)
  {
    hide KeksHold, KeysHold, CellsHold, PendingHold, OpsHold, OpenSeed;
    var mid := t.(seeds := s.seeds);
    assert mid == s;
    SameCellTables(s, t);
    SameRegistry(s, t);
  }

  lemma SameRegistry(s: Sys, t: Sys)
    requires t.keks == s.keks && t.keys == s.keys && t.envs == s.envs && t.primary == s.primary && t.previous == s.previous
    ensures KeksHold(s) ==> KeksHold(t)
    ensures KeysHold(s) ==> KeysHold(t)
  {
    hide Unwrap;
    assert forall v :: IsActiveKek(s, v) <==> IsActiveKek(t, v);
    assert forall env, v, st :: HasStatus(s, env, v, st) <==> HasStatus(t, env, v, st);
    if KeysHold(s) {
      assert forall k :: k in t.keys ==> RowHolds(s, k);
    }
  }

  lemma RestartKeeps(s: Sys, primary: Key, previous: Option<Key>)
    requires Sound(s) && StartAllowed(s.(primary := primary, previous := previous))
    ensures Sound(s.(primary := primary, previous := previous))
  {
    hide Unwrap, OpenSeed, CellsHold, PendingHold, OpsHold, LoadDek;
    var t := s.(primary := primary, previous := previous);
    SameCellTables(s, t);
    assert forall v :: IsActiveKek(s, v) <==> IsActiveKek(t, v);
    assert forall env, v, st :: HasStatus(s, env, v, st) <==> HasStatus(t, env, v, st);
    assert forall k :: k in t.keys ==> RowHolds(s, k);
  }

  lemma EnvironmentKeeps(s: Sys, env: Id, service: Id, kek: Count, secret: Key)
    requires Sound(s) && EnvironmentAllowed(s, env, kek)
    ensures Sound(AddEnvironment(s, env, service, kek, secret))
    ensures SamePlains(s, AddEnvironment(s, env, service, kek, secret))
  {
    hide KeksHold, KeysHold, CellsHold, PendingHold, SeedsHold, OpsHold, RowHolds, PlainOf, RefSet, Wrap, PrimaryActive, SamePlains;
    var t := AddEnvironment(s, env, service, kek, secret);
    NewKeyRow(s, t, (env, 1));
    NewRowCells(s, t, (env, 1));
    NewEnvironmentOps(s, t, (env, 1));
    SameSeedTables(s, t);
    FirstRow(s, t, env, kek, secret);
    NewEnvironmentRows(s, t, env);
  }

  lemma FirstRow(s: Sys, t: Sys, env: Id, kek: Count, secret: Key)
    requires KeksHold(s) && PrimaryActive(s) && IsActiveKek(s, kek) && t.keks == s.keks && env in t.envs && (env, 1) in t.keys
    requires t.keys[(env, 1)] == KeyRow(ActiveKey, kek, Some(Wrap(s.primary, env, 1, kek, secret)))
    ensures RowHolds(t, (env, 1))
  {
    hide Unwrap, Wrap;
    ActiveMaster(s, kek);
    WrapOpens(s.primary, env, 1, kek, secret);
  }

  lemma WrapOpens(master: Key, env: Id, dek: Count, kek: Count, secret: Key)
    ensures Unwrap(master, env, dek, kek, Wrap(master, env, dek, kek, secret)) == Some(secret)
  {
  }

  lemma SameSeedTables(s: Sys, t: Sys)
    requires t.keks == s.keks && t.seeds == s.seeds && t.primary == s.primary && t.previous == s.previous
    ensures KeksHold(s) ==> KeksHold(t)
    ensures SeedsHold(s) ==> SeedsHold(t)
  {
    hide OpenSeed;
    assert forall v :: IsActiveKek(s, v) <==> IsActiveKek(t, v);
  }

  /** One new key row, and perhaps its environment. */
  predicate AddsRow(s: Sys, t: Sys, k: (Id, Count)) {
    && k !in s.keys && k in t.keys && t.keys == s.keys[k := t.keys[k]] && t.cells == s.cells && t.keks == s.keks
    && (forall e :: e in s.envs ==> e in t.envs)
  }

  lemma NewKeyRow(s: Sys, t: Sys, k: (Id, Count))
    requires AddsRow(s, t, k)
    ensures forall x :: x in s.keys && RowHolds(s, x) ==> RowHolds(t, x)
    ensures forall env, v: Count, st :: (env, v) != k ==> (HasStatus(t, env, v, st) <==> HasStatus(s, env, v, st))
  {
    hide Unwrap;
    assert forall v :: IsActiveKek(s, v) <==> IsActiveKek(t, v);
  }

  /** Every cell keeps its key, its place and its plaintext. */
  predicate SamePlains(s: Sys, t: Sys) {
    && t.cells.Keys == s.cells.Keys
    && forall k :: k in s.cells ==>
         t.cells[k].env == s.cells[k].env && t.cells[k].place == s.cells[k].place && PlainOf(t, k) == PlainOf(s, k)
  }

  lemma NewRowCells(s: Sys, t: Sys, k: (Id, Count))
    requires AddsRow(s, t, k) && CellsHold(s) && PendingHold(s)
    ensures CellsHold(t) && PendingHold(t) && SamePlains(s, t)
    ensures RefSet(t, k.0, k.1) == {}
  {
    hide OpenCell, Open, PlaceContext;
    assert forall c :: c in s.cells ==> PlainOf(s, c).Some?;
    assert forall c :: c in s.cells ==> (s.cells[c].env, s.cells[c].dek) in s.keys;
  }

  lemma NewEnvironmentOps(s: Sys, t: Sys, k: (Id, Count))
    requires AddsRow(s, t, k) && t.ops == s.ops && OpsHold(s) && !AnyOpen(s) && t.keys[k].status != PendingKey
    ensures OpsHold(t)
  {
    hide OpenHolds;
    NoOpenNoPending(s);
    NewKeyRow(s, t, k);
    assert forall op :: IsOpen(t, op) ==> IsOpen(s, op);
    assert forall op :: !IsOpen(s, op);
  }

  lemma NewEnvironmentRows(s: Sys, t: Sys, env: Id)
    requires KeysHold(s) && AddsRow(s, t, (env, 1)) && RowHolds(t, (env, 1)) && t.keys[(env, 1)].status == ActiveKey
    requires env !in s.envs && (forall e :: e in t.envs ==> e in s.envs || e == env) && (forall k :: k in s.keys ==> k.0 != env)
    ensures KeysHold(t)
  {
    hide RowHolds;
    NewKeyRow(s, t, (env, 1));
    forall e | e in t.envs ensures exists v :: HasStatus(t, e, v, ActiveKey) {
      if e == env {
        assert HasStatus(t, env, 1, ActiveKey);
      } else {
        var v :| HasStatus(s, e, v, ActiveKey);
        assert HasStatus(t, e, v, ActiveKey);
      }
    }
  }

  // ----- preparing a DEK rotation

  lemma PrepareKeeps(s: Sys, op: Id, env: Id, source: Count, target: Count, secret: Key)
    requires Sound(s) && PrepareAllowed(s, op, env, source, target)
    ensures Sound(PrepareDek(s, op, env, source, target, secret))
    ensures SamePlains(s, PrepareDek(s, op, env, source, target, secret))
  {
    hide OpenHolds, OpenCell, CellsHold, PendingHold, SeedsHold, OpsHold, LoadDek, RefSet, RowHolds, KeksHold, Unwrap, Wrap;
    var t := PrepareDek(s, op, env, source, target, secret);
    var k := (env, target);
    assert (env, target) !in s.keys;
    NewKeyRow(s, t, k);
    NewRowCells(s, t, k);
    SameSeedTables(s, t);
    assert RowHolds(t, k) by { PendingRow(s, t, env, source, target, secret); }
    assert KeysHold(t) by { PendingRows(s, t, k); }
    assert OpsHold(t) by { PreparedOps(s, t, op, env, source, target); }
  }

  lemma PendingRow(s: Sys, t: Sys, env: Id, source: Count, target: Count, secret: Key)
    requires KeksHold(s) && PrimaryActive(s) && HasStatus(s, env, source, ActiveKey) && RowHolds(s, (env, source))
    requires t.keks == s.keks && env in t.envs && (env, target) in t.keys
    requires t.keys[(env, target)] == KeyRow(PendingKey, s.keys[(env, source)].kek, Some(Wrap(s.primary, env, target, s.keys[(env, source)].kek, secret)))
    ensures RowHolds(t, (env, target))
  {
    hide Unwrap, Wrap;
    var kek := s.keys[(env, source)].kek;
    ActiveMaster(s, kek);
    WrapOpens(s.primary, env, target, kek, secret);
  }

  lemma PendingRows(s: Sys, t: Sys, k: (Id, Count))
    requires KeysHold(s) && AddsRow(s, t, k) && RowHolds(t, k) && t.keys[k].status == PendingKey && t.envs == s.envs
    ensures KeysHold(t)
  {
    hide RowHolds;
    NewKeyRow(s, t, k);
    forall e | e in t.envs ensures exists v :: HasStatus(t, e, v, ActiveKey) {
      var v :| HasStatus(s, e, v, ActiveKey);
      assert HasStatus(t, e, v, ActiveKey);
    }
  }

  lemma PreparedOps(s: Sys, t: Sys, op: Id, env: Id, source: Count, target: Count)
    requires OpsHold(s) && !AnyOpen(s) && op !in s.ops && env in t.envs && source != target
    requires AddsRow(s, t, (env, target)) && t.keys[(env, target)].status == PendingKey
    requires HasStatus(s, env, source, ActiveKey) && RefSet(t, env, target) == {}
    requires t.ops == s.ops[op := Operation(false, env, source, target, MIGRATING, Refs(s, env, source), 0)]
    ensures OpsHold(t)
  {
    NoOpenNoPending(s);
    NewKeyRow(s, t, (env, target));
    assert RefSet(t, env, source) == RefSet(s, env, source);
    assert forall x :: IsOpen(t, x) ==> x == op || IsOpen(s, x);
    assert OpenHolds(t, op);
    assert IsOpen(t, op) && t.ops[op].env == env && t.ops[op].target == target;
  }

  // ----- one batch

  lemma BatchParts(s: Sys, op: Id, table: Table, batch: set<CellId>, supply: CellId -> Random)
    requires Sound(s) && BatchAllowed(s, op, table, batch)
    ensures var t := MigrateBatch(s, op, table, batch, supply);
            var o := s.ops[op];
      && t.cells.Keys == s.cells.Keys
      && (forall k :: k in s.cells && k !in batch ==> t.cells[k] == s.cells[k])
      && (forall k :: k in batch ==> k in s.cells && s.cells[k].env == o.env && s.cells[k].dek == o.source
                                     && t.cells[k].env == o.env && t.cells[k].place == s.cells[k].place && t.cells[k].dek == o.target
                                     && PlainOf(t, k) == PlainOf(s, k)
                                     && CellInPlace(t, k))
  {
    hide KeksHold, KeysHold, CellsHold, PendingHold, SeedsHold, OpsHold, LoadDek;
    var t := MigrateBatch(s, op, table, batch, supply);
    var o := s.ops[op];
    LoadOf(s, o.env, o.source);
    LoadOf(s, o.env, o.target);
    forall k | k in batch
      ensures k in s.cells && s.cells[k].env == o.env && s.cells[k].dek == o.source
      ensures t.cells[k].env == o.env && t.cells[k].place == s.cells[k].place && t.cells[k].dek == o.target
      ensures PlainOf(t, k) == PlainOf(s, k) && CellInPlace(t, k)
    {
      assert k in RefSet(s, o.env, o.source);
    }
  }

  /** The cell opens in its own place, not as an old direct proposal. */
  predicate CellInPlace(s: Sys, k: CellId)
    requires k in s.cells
  {
    var cell := s.cells[k];
    (cell.env, cell.dek) in s.keys && SecretOf(s.keys[(cell.env, cell.dek)]).Some?
    && Open(SecretOf(s.keys[(cell.env, cell.dek)]).value, PlaceContext(cell.env, cell.place, cell.dek), cell.blob).Some?
  }

  lemma SourceRefs(s: Sys, t: Sys, o: Operation, batch: set<CellId>)
    requires t.cells.Keys == s.cells.Keys && o.source != o.target
    requires forall k :: k in s.cells && k !in batch ==> t.cells[k] == s.cells[k]
    requires forall k :: k in batch ==> k in t.cells && t.cells[k].env == o.env && t.cells[k].dek == o.target
    ensures RefSet(t, o.env, o.source) == RefSet(s, o.env, o.source) - batch
    ensures RefSet(t, o.env, o.target) == RefSet(s, o.env, o.target) + batch
  {
  }

  lemma BatchRefs(s: Sys, t: Sys, o: Operation, batch: set<CellId>)
    requires t.cells.Keys == s.cells.Keys && o.source != o.target && batch <= RefSet(s, o.env, o.source)
    requires forall k :: k in s.cells && k !in batch ==> t.cells[k] == s.cells[k]
    requires forall k :: k in batch ==> k in t.cells && t.cells[k].env == o.env && t.cells[k].dek == o.target
    ensures Refs(t, o.env, o.source) == Refs(s, o.env, o.source) - |batch|
    ensures Refs(t, o.env, o.target) == Refs(s, o.env, o.target) + |batch|
  {
    hide RefSet;
    SourceRefs(s, t, o, batch);
    SeparateRefs(s, o);
    assert RefSet(s, o.env, o.target) !! batch;
    assert RefSet(s, o.env, o.source) == (RefSet(s, o.env, o.source) - batch) + batch;
  }

  lemma SeparateRefs(s: Sys, o: Operation)
    requires o.source != o.target
    ensures RefSet(s, o.env, o.source) !! RefSet(s, o.env, o.target)
  {
  }

  /** A batch strictly lowers the references to the source version and keeps every plaintext. */
  lemma BatchKeeps(s: Sys, op: Id, table: Table, batch: set<CellId>, supply: CellId -> Random)
    requires Sound(s) && BatchAllowed(s, op, table, batch)
    ensures var t := MigrateBatch(s, op, table, batch, supply);
      && Sound(t) && SamePlains(s, t)
      && Refs(t, s.ops[op].env, s.ops[op].source) == Refs(s, s.ops[op].env, s.ops[op].source) - |batch|
  {
    hide KeksHold, KeysHold, SeedsHold, MigrateBatch, RefSet, OpenCell, LoadDek, OpsHold, CellsHold, PendingHold, PlainOf, CellInPlace;
    var t := MigrateBatch(s, op, table, batch, supply);
    var o := s.ops[op];
    BatchParts(s, op, table, batch, supply);
    assert IsOpen(s, op);
    assert OpenHolds(s, op) by { OpenOperation(s, op); }
    BatchRefs(s, t, o, batch);
    BatchTables(s, op, table, batch, supply);
    SameKeyTables(s, t);
    BatchCells(s, t, o, batch);
    BatchOps(s, t, op, batch);
  }

  lemma OpenOperation(s: Sys, op: Id)
    requires OpsHold(s) && IsOpen(s, op)
    ensures OpenHolds(s, op)
  {
    hide OpenHolds;
  }

  lemma BatchTables(s: Sys, op: Id, table: Table, batch: set<CellId>, supply: CellId -> Random)
    requires BatchAllowed(s, op, table, batch)
    ensures var t := MigrateBatch(s, op, table, batch, supply);
            t == s.(cells := t.cells, ops := s.ops[op := s.ops[op].(processed := s.ops[op].processed + |batch|)])
  {
    hide MigrateCells, LoadDek, IsBatch, PrimaryActive, OpenCell;
  }

  lemma BatchCells(s: Sys, t: Sys, o: Operation, batch: set<CellId>)
    requires t.keys == s.keys && t.cells.Keys == s.cells.Keys && CellsHold(s) && PendingHold(s)
    requires forall k :: k in s.cells && k !in batch ==> t.cells[k] == s.cells[k]
    requires forall k :: k in batch ==> k in s.cells && t.cells[k].env == s.cells[k].env && t.cells[k].place == s.cells[k].place
    requires forall k :: k in batch ==> PlainOf(t, k) == PlainOf(s, k) && CellInPlace(t, k)
    ensures CellsHold(t) && PendingHold(t) && SamePlains(s, t)
  {
    hide OpenCell, Open, PlaceContext;
    forall k | k in s.cells ensures PlainOf(t, k) == PlainOf(s, k) { }
    forall k | k in t.cells ensures PlainOf(t, k).Some? { assert PlainOf(s, k).Some?; }
    assert forall env, v, st :: HasStatus(s, env, v, st) <==> HasStatus(t, env, v, st);
    forall k | k in t.cells && HasStatus(t, t.cells[k].env, t.cells[k].dek, PendingKey) ensures CellInPlace(t, k) {
      if k !in batch { assert HasStatus(s, s.cells[k].env, s.cells[k].dek, PendingKey); }
    }
  }

  lemma BatchOps(s: Sys, t: Sys, op: Id, batch: set<CellId>)
    requires OpsHold(s) && IsOpen(s, op) && s.ops[op].status == MIGRATING && t.keys == s.keys && t.envs == s.envs
    requires var o := s.ops[op];
      && t.ops == s.ops[op := o.(processed := o.processed + |batch|)]
      && Refs(t, o.env, o.source) == Refs(s, o.env, o.source) - |batch| && Refs(t, o.env, o.target) == Refs(s, o.env, o.target) + |batch|
    ensures OpsHold(t)
  {
    hide Refs;
    assert forall env, v, st :: HasStatus(s, env, v, st) <==> HasStatus(t, env, v, st);
    assert forall x :: IsOpen(s, x) <==> IsOpen(t, x);
    assert OpenHolds(s, op);
    assert OpenHolds(t, op);
    forall env, v | HasStatus(t, env, v, PendingKey) ensures exists x :: IsOpen(t, x) && t.ops[x].env == env && t.ops[x].target == v {
      var x :| IsOpen(s, x) && s.ops[x].env == env && s.ops[x].target == v;
      assert IsOpen(t, x);
    }
  }

  // ----- verifying and finishing

  lemma VerifyKeeps(s: Sys, op: Id)
    requires Sound(s) && VerifyAllowed(s, op)
    ensures Sound(BeginVerify(s, op)) && SamePlains(s, BeginVerify(s, op))
  {
    hide KeksHold, KeysHold, SeedsHold, CellsHold, PendingHold, RefSet, OpenCell;
    var t := BeginVerify(s, op);
    SameKeyTables(s, t);
    SamePlainTables(s, t);
    assert forall env, v :: RefSet(s, env, v) == RefSet(t, env, v) by { SameRefs(s, t); }
    assert forall env, v, st :: HasStatus(s, env, v, st) <==> HasStatus(t, env, v, st);
    assert forall x :: IsOpen(s, x) <==> IsOpen(t, x);
    assert OpenHolds(s, op);
    assert OpenHolds(t, op);
  }

  lemma SameRefs(s: Sys, t: Sys)
    requires t.cells == s.cells
    ensures forall env, v :: RefSet(s, env, v) == RefSet(t, env, v)
  {
  }

  lemma SamePlainTables(s: Sys, t: Sys)
    requires t.keys == s.keys && t.cells == s.cells
    ensures CellsHold(s) ==> CellsHold(t)
    ensures PendingHold(s) ==> PendingHold(t)
    ensures SamePlains(s, t)
  {
    hide OpenCell, Open, PlaceContext;
    assert forall env, v, st :: HasStatus(s, env, v, st) <==> HasStatus(t, env, v, st);
  }

  lemma FinishKeeps(s: Sys, op: Id)
    requires Sound(s) && FinishAllowed(s, op)
    ensures Sound(Finish(s, op)) && SamePlains(s, Finish(s, op))
  {
    hide KeksHold, SeedsHold, CellsHold, PendingHold, OpenCell, OpsHold, KeysHold, RowHolds, CiphertextsVerified, LoadDek;
    var t := Finish(s, op);
    var o := s.ops[op];
    assert OpenHolds(s, op) by { OpenOperation(s, op); }
    SameSeedTables(s, t);
    FinishedRows(s, t, o);
    FinishedCells(s, t, o);
    FinishedOps(s, t, op);
  }

  /** The two key rows that finishing changes. */
  predicate Swapped(s: Sys, t: Sys, o: Operation) {
    && (o.env, o.source) in s.keys && (o.env, o.target) in s.keys && o.source != o.target
    && t.keks == s.keks && t.envs == s.envs && t.cells == s.cells
    && t.keys == s.keys[(o.env, o.source) := s.keys[(o.env, o.source)].(status := RetiredKey, wrapped := None)]
                       [(o.env, o.target) := s.keys[(o.env, o.target)].(status := ActiveKey)]
  }

  lemma FinishedRow(s: Sys, t: Sys, o: Operation, k: (Id, Count))
    requires Swapped(s, t, o) && k in s.keys && RowHolds(s, k) && HasStatus(s, o.env, o.target, PendingKey)
    ensures k in t.keys && RowHolds(t, k)
  {
    hide Unwrap;
    assert forall v :: IsActiveKek(s, v) <==> IsActiveKek(t, v);
  }

  lemma FinishedRows(s: Sys, t: Sys, o: Operation)
    requires KeysHold(s) && Swapped(s, t, o)
    requires HasStatus(s, o.env, o.source, ActiveKey) && HasStatus(s, o.env, o.target, PendingKey)
    ensures KeysHold(t)
  {
    hide RowHolds;
    forall k | k in t.keys ensures RowHolds(t, k) { FinishedRow(s, t, o, k); }
    assert forall e, v :: HasStatus(t, e, v, ActiveKey) <==>
      (e == o.env && v == o.target) || (HasStatus(s, e, v, ActiveKey) && !(e == o.env && v == o.source));
    forall e | e in t.envs ensures exists v :: HasStatus(t, e, v, ActiveKey) {
      if e == o.env {
        assert HasStatus(t, o.env, o.target, ActiveKey);
      } else {
        var v :| HasStatus(s, e, v, ActiveKey);
        assert HasStatus(t, e, v, ActiveKey);
      }
    }
  }

  lemma FinishedCells(s: Sys, t: Sys, o: Operation)
    requires CellsHold(s) && PendingHold(s) && Swapped(s, t, o) && Refs(s, o.env, o.source) == 0
    requires HasStatus(s, o.env, o.target, PendingKey)
    ensures CellsHold(t) && PendingHold(t) && SamePlains(s, t)
  {
    hide OpenCell, Open, PlaceContext;
    assert RefSet(s, o.env, o.source) == {};
    forall k | k in s.cells ensures PlainOf(t, k) == PlainOf(s, k) {
      assert k !in RefSet(s, o.env, o.source);
    }
    forall k | k in t.cells ensures PlainOf(t, k).Some? { assert PlainOf(s, k).Some?; }
    forall k | k in t.cells && HasStatus(t, t.cells[k].env, t.cells[k].dek, PendingKey)
      ensures HasStatus(s, s.cells[k].env, s.cells[k].dek, PendingKey)
    {
      assert k !in RefSet(s, o.env, o.source);
    }
  }

  lemma FinishedOps(s: Sys, t: Sys, op: Id)
    requires OpsHold(s) && IsOpen(s, op) && Swapped(s, t, s.ops[op])
    requires t.ops == s.ops[op := s.ops[op].(status := COMPLETED, processed := s.ops[op].total)]
    ensures OpsHold(t) && !AnyOpen(t)
  {
    hide OpenHolds;
    var o := s.ops[op];
    assert forall x :: IsOpen(t, x) ==> IsOpen(s, x) && x != op;
    assert forall x :: !IsOpen(t, x);
    forall env, v | HasStatus(s, env, v, PendingKey) ensures env == o.env && v == o.target {
      var x :| IsOpen(s, x) && s.ops[x].env == env && s.ops[x].target == v;
    }
    assert forall env, v :: HasStatus(t, env, v, PendingKey) ==> HasStatus(s, env, v, PendingKey);
  }

  // ----- KEK rotation

  lemma KekKeeps(s: Sys, op: Id, source: Count, target: Count, supply: Id -> Random)
    requires Sound(s) && KekAllowed(s, op, source, target)
    ensures Sound(RotateKek(s, op, source, target, supply)) && SamePlains(s, RotateKek(s, op, source, target, supply))
  {
    hide KeksHold, SeedsHold, CellsHold, PendingHold, OpenCell, OpsHold, KeysHold, RowHolds, RewrapKeys, ResealSeeds, MoveKek, OpenSeed;
    var t := RotateKek(s, op, source, target, supply);
    MovedKeks(s, t, source, target);
    RewrappedRows(s, t, source, target);
    ResealedSeeds(s, t, source, target, supply);
    KekCells(s, t);
    KekOps(s, t, op);
  }

  lemma MovedKeks(s: Sys, t: Sys, source: Count, target: Count)
    requires KeksHold(s) && IsActiveKek(s, source) && IsNextKek(s, target) && t.keks == MoveKek(s, source, target)
    requires t.primary == s.primary && t.previous == s.previous && forall v :: v in s.keks ==> s.keks[v].master != s.primary
    ensures KeksHold(t) && target !in s.keks && (forall v :: IsActiveKek(t, v) <==> v == target) && t.keks[target].master == s.primary
  {
    assert IsActiveKek(t, target);
  }

  /** Every key keeps its status and what it opens to; those not retired are under the new master key. */
  ghost predicate SameSecrets(s: Sys, t: Sys) {
    && t.keys.Keys == s.keys.Keys
    && forall k :: k in s.keys ==> t.keys[k].status == s.keys[k].status && SecretOf(t.keys[k]) == SecretOf(s.keys[k])
  }

  /** What the rewrapping makes of one row. */
  ghost predicate RowMoved(s: Sys, t: Sys, target: Count, k: (Id, Count))
    requires k in s.keys && k in t.keys
  {
    && t.keys[k].status == s.keys[k].status && SecretOf(t.keys[k]) == SecretOf(s.keys[k])
    && (t.keys[k].status != RetiredKey ==>
          t.keys[k].kek == target && t.keys[k].wrapped.Some? && Unwrap(s.primary, k.0, k.1, target, t.keys[k].wrapped.value).Some?)
  }

  lemma OneRowMoved(s: Sys, t: Sys, source: Count, target: Count, k: (Id, Count))
    requires k in s.keys && k in t.keys && RowHolds(s, k) && s.keys[k].status != PendingKey && s.previous.Some?
    requires s.keys[k].status == ActiveKey ==> KeyRewraps(s, source, k)
    requires t.keys[k] == if s.keys[k].status == ActiveKey then Rewrapped(s, source, target, k) else s.keys[k]
    requires t.envs == s.envs && IsActiveKek(t, target) && t.keks[target].master == s.primary
    ensures RowMoved(s, t, target, k) && RowHolds(t, k)
  {
  }

  lemma RewrappedRows(s: Sys, t: Sys, source: Count, target: Count)
    requires KeysHold(s) && OpsHold(s) && !AnyOpen(s) && t.envs == s.envs
    requires s.previous.Some? && forall k :: k in s.keys && s.keys[k].status == ActiveKey ==> KeyRewraps(s, source, k)
    requires t.keys == RewrapKeys(s, source, target) && IsActiveKek(t, target) && t.keks[target].master == s.primary
    ensures KeysHold(t) && SameSecrets(s, t)
    ensures forall k :: k in t.keys && t.keys[k].status != RetiredKey ==>
              t.keys[k].kek == target && t.keys[k].wrapped.Some? && Unwrap(s.primary, k.0, k.1, target, t.keys[k].wrapped.value).Some?
  {
    hide RowHolds, IsActiveKek, KeyRewraps, Rewrapped, OpsHold, AnyOpen, Unwrap, SecretOf;
    NoOpenNoPending(s);
    assert t.keys.Keys == s.keys.Keys;
    forall k | k in s.keys ensures RowMoved(s, t, target, k) && RowHolds(t, k) {
      assert !HasStatus(s, k.0, k.1, PendingKey);
      assert RowHolds(s, k);
      OneRowMoved(s, t, source, target, k);
    }
    assert forall k :: k in s.keys ==> RowMoved(s, t, target, k);
    assert forall env, v, st :: HasStatus(s, env, v, st) <==> HasStatus(t, env, v, st);
  }

  lemma ResealedSeeds(s: Sys, t: Sys, source: Count, target: Count, supply: Id -> Random)
    requires s.previous.Some? && forall u :: u in s.seeds ==> SeedReseals(s, source, u)
    requires t.seeds == ResealSeeds(s, source, target, supply) && IsActiveKek(t, target) && t.keks[target].master == s.primary
    ensures SeedsHold(t) && t.seeds.Keys == s.seeds.Keys
    ensures forall u :: u in s.seeds ==> t.seeds[u].kek == target && OpenSeed(s.primary, u, t.seeds[u]) == OpenSeed(s.previous.value, u, s.seeds[u])
  {
    hide IsActiveKek;
  }

  lemma KekCells(s: Sys, t: Sys)
    requires CellsHold(s) && PendingHold(s) && SameSecrets(s, t) && t.cells == s.cells
    ensures CellsHold(t) && PendingHold(t) && SamePlains(s, t)
  {
    hide OpenCell, Open, PlaceContext, SecretOf;
    forall k | k in s.cells ensures PlainOf(t, k) == PlainOf(s, k) { }
    forall k | k in t.cells ensures PlainOf(t, k).Some? { assert PlainOf(s, k).Some?; }
    assert forall env, v, st :: HasStatus(s, env, v, st) <==> HasStatus(t, env, v, st);
  }

  lemma KekOps(s: Sys, t: Sys, op: Id)
    requires OpsHold(s) && !AnyOpen(s) && SameSecrets(s, t) && op in t.ops && t.ops == s.ops[op := t.ops[op]] && t.ops[op].status == COMPLETED
    ensures OpsHold(t)
  {
    hide OpenHolds;
    NoOpenNoPending(s);
    assert forall x :: IsOpen(t, x) ==> IsOpen(s, x);
    assert forall x :: !IsOpen(s, x);
    assert forall env, v :: HasStatus(t, env, v, PendingKey) ==> HasStatus(s, env, v, PendingKey);
  }

  lemma EnrolKeeps(s: Sys, user: Id, kek: Count, plain: string, random: Random)
    requires Sound(s) && EnrolAllowed(s, user, kek)
    ensures Sound(s.(seeds := s.seeds[user := SealSeed(s.primary, user, 1, kek, plain, random)]))
  {
    hide Sound, IsActiveKek;
    SeedsKeep(s, s.(seeds := s.seeds[user := SealSeed(s.primary, user, 1, kek, plain, random)]));
  }

  // ----- every step

  lemma StepKeeps(s: Sys, step: Step)
    requires Sound(s)
    ensures Sound(Step1(s, step))
    ensures !step.WriteStep? ==> SamePlains(s, Step1(s, step))
  {
    hide Sound, WriteAllowed, EnvironmentAllowed, EnrolAllowed, WriteBlocked, StartAllowed, PrepareAllowed, BatchAllowed, VerifyAllowed;
    hide FinishAllowed, KekAllowed, PlainOf;
    if Allowed(s, step) {
      match step {
        case WriteStep(cells) => WriteKeeps(s, cells);
        case EnvironmentStep(env, service, kek, secret) => EnvironmentKeeps(s, env, service, kek, secret);
        case EnrolStep(user, kek, plain, random) =>
          EnrolKeeps(s, user, kek, plain, random);
          SamePlainTables(s, Step1(s, step));
        case ResetStep(user) =>
          SeedsKeep(s, s.(seeds := s.seeds - {user}));
          SamePlainTables(s, Step1(s, step));
        case RestartStep(primary, previous) =>
          RestartKeeps(s, primary, previous);
          SamePlainTables(s, Step1(s, step));
        case PrepareStep(op, env, source, target, secret) => PrepareKeeps(s, op, env, source, target, secret);
        case BatchStep(op, table, batch, supply) => BatchKeeps(s, op, table, batch, supply);
        case VerifyStep(op) => VerifyKeeps(s, op);
        case FinishStep(op) => FinishKeeps(s, op);
        case KekStep(op, source, target, supply) => KekKeeps(s, op, source, target, supply);
      }
    }
  }

  /** Over every run, with crashes and restarts anywhere, the state stays sound. */
  lemma {:induction false} StepsKeep(s: Sys, steps: seq<Step>)
    requires Sound(s)
    ensures Sound(Steps(s, steps))
    decreases |steps|
  {
    hide Sound, Step1;
    if steps != [] {
      StepKeeps(s, steps[0]);
      StepsKeep(Step1(s, steps[0]), steps[1..]);
    }
  }
}
