/** The rotation calls: their loops, transaction by transaction. */
module KeyRotation {
  import opened Text
  import opened Bytes
  import opened Crypto
  import opened Model
  import opened Rotation
  import opened RotationProofs
  import opened RotationRuns

  class RotationService {
    var s: Sys

    constructor (start: Sys)
      ensures s == start
    {
      s := start;
    }

    /** `SELECT ... WHERE dek_version = ? LIMIT 64`: at most a batch of the rows of one table. */
    method SelectBatch(env: Id, source: Count, table: Table) returns (batch: set<CellId>)
      ensures batch <= RefSet(s, env, source) && |batch| <= BATCH_SIZE
      ensures forall k :: k in batch ==> TableOf(k) == table
      ensures batch == {} ==> forall k :: k in RefSet(s, env, source) ==> TableOf(k) != table
    {
      var rows := set k | k in RefSet(s, env, source) && TableOf(k) == table;
      batch := {};
      var rest := rows;
      while rest != {} && |batch| < BATCH_SIZE
        invariant batch <= rows && rest <= rows && batch !! rest && |batch| <= BATCH_SIZE
        invariant batch == {} ==> rest == rows
        decreases rest
      {
        var k :| k in rest;
        batch := batch + {k};
        rest := rest - {k};
      }
      assert batch == {} ==> rows == {};
      if batch == {} {
        forall k | k in RefSet(s, env, source) ensures TableOf(k) != table { assert k !in rows; }
      }
    }

    /** The rows of a batch, prepared one by one and written in one transaction with the checkpoint. */
    method TakeBatch(op: Id, table: Table, batch: set<CellId>, former: Key, secret: Key, supply: CellId -> Random) returns (r: Result<nat>)
      requires op in s.ops && !s.ops[op].kek && PrimaryActive(s) && IsBatch(s, s.ops[op], table, batch)
      requires LoadDek(s, s.ops[op].env, s.ops[op].source) == Some(former) && LoadDek(s, s.ops[op].env, s.ops[op].target) == Some(secret)
      modifies this
      ensures if BatchAllowed(old(s), op, table, batch) then r == Ok(|batch|) && s == MigrateBatch(old(s), op, table, batch, supply)
              else r.Err? && s == old(s)
    {
      hide PrimaryActive, LoadDek, OpenCell, Reseal, RefSet, MigrateBatch, BatchAllowed;
      var o := s.ops[op];
      var begin := s;
      if BatchAllowed(begin, op, table, batch) { AllOpen(begin, op, table, batch, former); }
      var prepared := PrepareRows(o, batch, former, secret, supply);
      if prepared.None? { return Err(CryptoFailure); }
      UpdateRows(o, batch, prepared.value);
      if o.status != MIGRATING || o.processed + |batch| > o.total {
        s := begin;
        return Err(Conflict);
      }
      s := s.(ops := s.ops[op := o.(processed := o.processed + |batch|)]);
      MigratedAre(begin, s, op, table, batch, former, secret, supply, prepared.value);
      return Ok(|batch|);
    }

    /** One call of a `migrate_*_batch`. */
    method MigrateOne(op: Id, table: Table, former: Key, secret: Key, supply: CellId -> Random) returns (r: Result<nat>)
      requires op in s.ops && !s.ops[op].kek && PrimaryActive(s)
      requires LoadDek(s, s.ops[op].env, s.ops[op].source) == Some(former) && LoadDek(s, s.ops[op].env, s.ops[op].target) == Some(secret)
      modifies this
      ensures r.Err? ==> s == old(s)
      ensures r == Ok(0) ==> s == old(s) && NoRows(s, s.ops[op], table)
      ensures r.Ok? && r.value > 0 ==> BatchDone(old(s), s, op, table, r.value, supply)
      ensures old(Migrating(s, op)) ==> r.Ok?
    {
      hide PrimaryActive, LoadDek, MigrateBatch, BatchAllowed, RefSet, Sound;
      var batch := SelectBatch(s.ops[op].env, s.ops[op].source, table);
      if batch == {} { return Ok(0); }
      ghost var begin := s;
      if Migrating(begin, op) { BatchIsAllowed(begin, op, table, batch); }
      r := TakeBatch(op, table, batch, former, secret, supply);
      if r.Ok? {
        assert BatchOf(begin, s, op, table, |batch|, supply, batch);
        assert batch != {};
      }
    }

    /** The rows of a batch decrypted and sealed again; none when one does not open. */
    method PrepareRows(o: Operation, batch: set<CellId>, former: Key, secret: Key, supply: CellId -> Random) returns (r: Option<map<CellId, Cell>>)
      requires batch <= RefSet(s, o.env, o.source)
      ensures r.Some? ==> r.value.Keys == batch && forall k :: k in batch ==> k in s.cells && ResealedCell(s.cells[k], r.value[k], o, former, secret, supply(k))
      ensures r.None? ==> exists k :: k in batch && k in s.cells && OpenCell(former, s.cells[k]).None?
    {
      hide OpenCell, Reseal;
      var prepared: map<CellId, Cell> := map[];
      var todo := batch;
      assert forall k :: k in batch ==> k in RefSet(s, o.env, o.source);
      while todo != {}
        invariant todo <= batch && prepared.Keys == batch - todo
        invariant forall k :: k in prepared ==> ResealedCell(s.cells[k], prepared[k], o, former, secret, supply(k))
        decreases todo
      {
        var k :| k in todo;
        var plain := OpenCell(former, s.cells[k]);
        if plain.None? { return None; }
        prepared := prepared[k := Reseal(secret, s.cells[k], o.target, plain.value, supply(k))];
        todo := todo - {k};
      }
      assert prepared.Keys == batch;
      return Some(prepared);
    }

    /** `update_cipher_row` for each row of the batch. */
    method UpdateRows(o: Operation, batch: set<CellId>, prepared: map<CellId, Cell>)
      requires batch <= RefSet(s, o.env, o.source) && prepared.Keys == batch
      modifies this
      ensures s == old(s).(cells := s.cells) && s.cells.Keys == old(s).cells.Keys
      ensures forall k :: k in s.cells ==> s.cells[k] == if k in batch then prepared[k] else old(s).cells[k]
    {
      ghost var begin := s;
      var todo := batch;
      assert forall k :: k in batch ==> k in RefSet(s, o.env, o.source);
      while todo != {}
        invariant todo <= batch && s == begin.(cells := s.cells) && s.cells.Keys == begin.cells.Keys
        invariant forall k :: k in s.cells ==> s.cells[k] == if k in batch - todo then prepared[k] else begin.cells[k]
        decreases todo
      {
        var k :| k in todo;
        s := s.(cells := s.cells[k := prepared[k]]);
        todo := todo - {k};
      }
    }

    /** `migrate_dek_batches`: batches of the three tables until none has a row left. */
    method MigrateAll(op: Id, supply: CellId -> Random)
      requires Sound(s) && PrimaryActive(s) && IsOpen(s, op)
      modifies this
      ensures Sound(s) && PrimaryActive(s) && SamePlains(old(s), s) && SameSetting(old(s), s)
      ensures IsOpen(s, op) && s.ops[op].status == VERIFYING && Refs(s, s.ops[op].env, s.ops[op].source) == 0
      ensures s.ops[op] == old(s).ops[op].(status := VERIFYING, processed := s.ops[op].processed)
      ensures s.ops == old(s).ops[op := s.ops[op]]
    {
      hide Sound, PrimaryActive, LoadDek, SamePlains, BatchAllowed, MigrateBatch, RefSet;
      ghost var begin := s;
      SamePlainsReflexive(s);
      var o := s.ops[op];
      assert !o.kek by { OpenTarget(s, op); }
      var former, secret := LoadKeys(op);
      var busy := true;
      while busy
        invariant Sound(s) && PrimaryActive(s) && SamePlains(begin, s) && SameSetting(begin, s)
        invariant op in s.ops && IsOpen(s, op) && s.ops[op] == o.(processed := s.ops[op].processed)
        invariant s.ops == begin.ops[op := s.ops[op]]
        invariant LoadDek(s, o.env, o.source) == Some(former) && LoadDek(s, o.env, o.target) == Some(secret)
        invariant !busy ==> RefSet(s, o.env, o.source) == {}
        decreases Refs(s, o.env, o.source), busy
      {
        if o.status == VERIFYING { NothingLeft(s, op); }
        busy := MigrateRound(op, former, secret, supply);
      }
      if o.status == MIGRATING {
        assert Refs(s, o.env, o.source) == 0;
        ghost var before := s;
        s := s.(ops := s.ops[op := s.ops[op].(status := VERIFYING)]);
        VerifyKeeps(before, op);
        SameRefs(before, s);
        SamePlainsTransitive(begin, before, s);
        StillPrimary(before, s);
      }
    }

    /** One turn of the loop: the first table with rows left; false when there is none. */
    method MigrateRound(op: Id, former: Key, secret: Key, supply: CellId -> Random) returns (busy: bool)
      requires Sound(s) && PrimaryActive(s) && IsOpen(s, op) && !s.ops[op].kek
      requires LoadDek(s, s.ops[op].env, s.ops[op].source) == Some(former) && LoadDek(s, s.ops[op].env, s.ops[op].target) == Some(secret)
      requires s.ops[op].status == VERIFYING ==> RefSet(s, s.ops[op].env, s.ops[op].source) == {}
      modifies this
      ensures Sound(s) && PrimaryActive(s) && SameSetting(old(s), s)
      ensures op in s.ops && s.ops[op] == old(s).ops[op].(processed := s.ops[op].processed) && s.ops == old(s).ops[op := s.ops[op]]
      ensures var o := s.ops[op];
              LoadDek(s, o.env, o.source) == Some(former) && LoadDek(s, o.env, o.target) == Some(secret)
              && if busy then Refs(s, o.env, o.source) < Refs(old(s), o.env, o.source)
                 else s == old(s) && RefSet(s, o.env, o.source) == {}
      ensures forall begin :: SamePlains(begin, old(s)) ==> SamePlains(begin, s)
    {
      hide Sound, PrimaryActive, LoadDek, SamePlains, BatchAllowed, MigrateBatch, RefSet;
      ghost var begin := s;
      var tables := [CurrentTable, HistoryTable, ProposalTable];
      var i := 0;
      while i < 3
        invariant 0 <= i <= 3 && s == begin
        invariant forall j :: 0 <= j < i ==> NoRows(s, s.ops[op], tables[j])
      {
        var migrated := MigrateOne(op, tables[i], former, secret, supply);
        if begin.ops[op].status == VERIFYING { NoBatch(begin, s, op, tables[i], supply); }
        if migrated.Ok? && migrated.value > 0 {
          ghost var batch :| BatchOf(begin, s, op, tables[i], migrated.value, supply, batch);
          BatchKeeps(begin, op, tables[i], batch, supply);
          BatchSetting(begin, op, tables[i], batch, supply);
          forall x | SamePlains(x, begin) ensures SamePlains(x, s) { SamePlainsTransitive(x, begin, s); }
          return true;
        }
        if begin.ops[op].status == VERIFYING { NoRowsAtAll(s, s.ops[op], tables[i]); }
        i := i + 1;
      }
      assert NoRows(s, s.ops[op], tables[0]) && NoRows(s, s.ops[op], tables[1]) && NoRows(s, s.ops[op], tables[2]);
      AllTables(s, s.ops[op]);
      return false;
    }

    /** The two calls of `load_dek`. */
    method LoadKeys(op: Id) returns (former: Key, secret: Key)
      requires Sound(s) && IsOpen(s, op)
      ensures LoadDek(s, s.ops[op].env, s.ops[op].source) == Some(former) && LoadDek(s, s.ops[op].env, s.ops[op].target) == Some(secret)
    {
      hide LoadDek, OpenHolds, RowHolds, CellsHold, PendingHold, SeedsHold, OpsHold, KeksHold, KeysHold;
      assert LoadDek(s, s.ops[op].env, s.ops[op].source).Some? && LoadDek(s, s.ops[op].env, s.ops[op].target).Some? by { OpenKeys(s, op); }
      former := LoadDek(s, s.ops[op].env, s.ops[op].source).value;
      secret := LoadDek(s, s.ops[op].env, s.ops[op].target).value;
    }

    /** `rotate_dek`: the open operation of the environment is resumed, or a new one prepared; then it is finished. */
    method RotateDek(env: Id, op: Id, target: Count, secret: Key, supply: CellId -> Random) returns (r: Result<Id>)
      requires Sound(s) && IsNextDek(s, env, target) && op !in s.ops
      modifies this
      ensures Sound(s) && SamePlains(old(s), s)
      ensures r.Ok? <==> old(RotationPossible(s, env))
      ensures r.Err? ==> s == old(s)
      ensures r.Ok? ==> r.value in s.ops && s.ops[r.value].env == env && s.ops[r.value].status == COMPLETED && !AnyOpen(s)
      ensures r.Ok? ==>
                var o := s.ops[r.value];
                && HasStatus(s, env, o.target, ActiveKey) && Refs(s, env, o.source) == 0
                && (env, o.source) in s.keys && s.keys[(env, o.source)].wrapped.None?
    {
      hide Sound, PrimaryActive, LoadDek, SamePlains, BatchAllowed, RefSet, CiphertextsVerified, IsNextDek, PrepareDek;
      ghost var begin := s;
      SamePlainsReflexive(s);
      if env !in s.envs { return Err(NotFound); }
      if !PrimaryActive(s) { return Err(Conflict); }
      var running := op;
      if x :| x in s.ops && IsOpen(s, x) && !s.ops[x].kek && s.ops[x].env == env {
        running := x;
        OnlyOpen(s, x, env);
      } else {
        OpenAreDek(s);
        if AnyOpen(s) { return Err(Conflict); }
        var source := ActiveVersion(env);
        assert LoadDek(s, env, source).Some? by { ActiveLoads(s, env, source); }
        PrepareKeeps(s, op, env, source, target, secret);
        PreparedSetting(s, op, env, source, target, secret);
        s := PrepareDek(s, op, env, source, target, secret);
      }
      ghost var prepared := s;
      MigrateAll(running, supply);
      SamePlainsTransitive(begin, prepared, s);
      FinishIsAllowed(s, running);
      FinishKeeps(s, running);
      FinishOutcome(s, running);
      SamePlainsTransitive(begin, s, Finish(s, running));
      FinishedEntry(s, running);
      s := Finish(s, running);
      return Ok(running);
    }

    /** Every ACTIVE key unwrapped with the previous master key and wrapped with the primary one; none when one fails. */
    method RewrapAll(source: Count, target: Count, active: set<(Id, Count)>) returns (r: Option<map<(Id, Count), KeyRow>>)
      requires s.previous.Some? && forall k :: k in active ==> k in s.keys
      ensures r.Some? ==> r.value.Keys == active && forall k :: k in active ==> KeyRewraps(s, source, k) && r.value[k] == Rewrapped(s, source, target, k)
      ensures r.None? ==> exists k :: k in active && !KeyRewraps(s, source, k)
    {
      hide Unwrap, Wrap;
      var prepared: map<(Id, Count), KeyRow> := map[];
      var todo := active;
      while todo != {}
        invariant todo <= active && prepared.Keys == active - todo
        invariant forall k :: k in prepared ==> KeyRewraps(s, source, k) && prepared[k] == Rewrapped(s, source, target, k)
        decreases todo
      {
        var k :| k in todo;
        var row := s.keys[k];
        if row.kek != source || row.wrapped.None? { return None; }
        var secret := Unwrap(s.previous.value, k.0, k.1, row.kek, row.wrapped.value);
        if secret.None? { return None; }
        prepared := prepared[k := row.(kek := target, wrapped := Some(Wrap(s.primary, k.0, k.1, target, secret.value)))];
        todo := todo - {k};
      }
      assert prepared.Keys == active;
      return Some(prepared);
    }

    method ResealAll(source: Count, target: Count, supply: Id -> Random) returns (r: Option<map<Id, Seed>>)
      requires s.previous.Some?
      ensures r.Some? ==> (forall u :: u in s.seeds ==> SeedReseals(s, source, u)) && r.value == ResealSeeds(s, source, target, supply)
      ensures r.None? ==> exists u :: u in s.seeds && !SeedReseals(s, source, u)
    {
      hide OpenSeed, SealSeed;
      var prepared: map<Id, Seed> := map[];
      var todo := s.seeds.Keys;
      while todo != {}
        invariant todo <= s.seeds.Keys && prepared.Keys == s.seeds.Keys - todo
        invariant forall u :: u in prepared ==> SeedReseals(s, source, u) && prepared[u] == Resealed(s, source, target, u, supply(u))
        decreases todo
      {
        var u :| u in todo;
        var row := s.seeds[u];
        if row.kek != source { return None; }
        var plain := OpenSeed(s.previous.value, u, row);
        if plain.None? { return None; }
        prepared := prepared[u := SealSeed(s.primary, u, row.crypto, target, plain.value, supply(u))];
        todo := todo - {u};
      }
      assert prepared.Keys == s.seeds.Keys;
      return Some(prepared);
    }

    /** The UPDATE of each prepared key row. */
    method UpdateKeys(prepared: map<(Id, Count), KeyRow>)
      requires prepared.Keys <= s.keys.Keys
      modifies this
      ensures s == old(s).(keys := s.keys) && s.keys.Keys == old(s).keys.Keys
      ensures forall k :: k in s.keys ==> s.keys[k] == if k in prepared then prepared[k] else old(s).keys[k]
    {
      ghost var begin := s;
      var todo := prepared.Keys;
      while todo != {}
        invariant todo <= prepared.Keys && s == begin.(keys := s.keys) && s.keys.Keys == begin.keys.Keys
        invariant forall k :: k in s.keys ==> s.keys[k] == if k in prepared.Keys - todo then prepared[k] else begin.keys[k]
        decreases todo
      {
        var k :| k in todo;
        s := s.(keys := s.keys[k := prepared[k]]);
        todo := todo - {k};
      }
    }

    /** The UPDATE of each prepared seed. */
    method UpdateSeeds(prepared: map<Id, Seed>)
      requires prepared.Keys == s.seeds.Keys
      modifies this
      ensures s == old(s).(seeds := prepared)
    {
      ghost var begin := s;
      var todo := prepared.Keys;
      while todo != {}
        invariant todo <= prepared.Keys && s == begin.(seeds := s.seeds) && s.seeds.Keys == begin.seeds.Keys
        invariant forall u :: u in s.seeds ==> s.seeds[u] == if u in prepared.Keys - todo then prepared[u] else begin.seeds[u]
        decreases todo
      {
        var u :| u in todo;
        s := s.(seeds := s.seeds[u := prepared[u]]);
        todo := todo - {u};
      }
      assert s.seeds == prepared;
    }

    /** `rotate_kek`: everything is prepared first, then written in one transaction. */
    method RotateMasterKey(op: Id, target: Count, supply: Id -> Random) returns (r: Result<Count>, ghost source: Count)
      requires Sound(s) && op !in s.ops && IsNextKek(s, target)
      modifies this
      ensures IsActiveKek(old(s), source)
      ensures if KekAllowed(old(s), op, source, target) then r == Ok(target) && s == RotateKek(old(s), op, source, target, supply)
              else r.Err? && s == old(s)
      ensures Sound(s) && SamePlains(old(s), s) && (r.Ok? ==> UnderPrimary(s))
    {
      hide Sound, SamePlains, UnderPrimary, KeyRewraps, SeedReseals, ResealSeeds, RewrapKeys, IsNextKek, SameSecrets, WriteBlocked, RotateKek, Rewrapped, AnyOpen;
      ghost var begin := s;
      SamePlainsReflexive(s);
      var from := ActiveRegistry();
      source := from;
      StepKeeps(begin, KekStep(op, source, target, supply));
      KekOutcome(begin, op, source, target, supply);
      if s.previous != Some(s.keks[from].master) || s.primary == s.keks[from].master { return Err(Conflict), source; }
      if (exists v :: v in s.keks && s.keks[v].master == s.primary) || AnyOpen(s) { return Err(Conflict), source; }
      var active := set k | k in s.keys && s.keys[k].status == ActiveKey;
      var keys := RewrapAll(from, target, active);
      if keys.None? { return Err(CryptoFailure), source; }
      var seeds := ResealAll(from, target, supply);
      if seeds.None? { return Err(CryptoFailure), source; }
      CommitKek(op, from, target, keys.value, seeds.value, supply);
      return Ok(target), source;
    }

    /** The transaction of `rotate_kek`. */
    method CommitKek(op: Id, source: Count, target: Count, keys: map<(Id, Count), KeyRow>, seeds: map<Id, Seed>, supply: Id -> Random)
      requires KekAllowed(s, op, source, target)
      requires forall k :: k in keys <==> k in s.keys && s.keys[k].status == ActiveKey
      requires forall k :: k in keys ==> keys[k] == Rewrapped(s, source, target, k)
      requires seeds == ResealSeeds(s, source, target, supply)
      modifies this
      ensures s == RotateKek(old(s), op, source, target, supply)
    {
      hide KeyRewraps, SeedReseals, ResealSeeds, RewrapKeys, IsNextKek, Rewrapped, AnyOpen;
      ghost var begin := s;
      var active := set k | k in s.keys && s.keys[k].status == ActiveKey;
      ResealedKeys(begin, source, target, supply);
      s := s.(keks := s.keks[source := s.keks[source].(active := false)]);
      s := s.(keks := s.keks[target := Kek(s.primary, true)]);
      UpdateKeys(keys);
      RewrappedAre(begin, s, source, target, keys);
      UpdateSeeds(seeds);
      var total := |active| + |s.seeds|;
      s := s.(ops := s.ops[op := Operation(true, "", source, target, COMPLETED, total, total)]);
    }

    /** `WHERE status = 'ACTIVE'` in the registry. */
    method ActiveRegistry() returns (v: Count)
      requires Sound(s)
      ensures IsActiveKek(s, v)
    {
      hide KeysHold, CellsHold, PendingHold, OpsHold, SeedsHold;
      assert exists x :: x in s.keks && s.keks[x].active by {
        var x: Count :| IsActiveKek(s, x);
        assert x in s.keks;
      }
      v :| v in s.keks && s.keks[v].active;
    }

    /** `WHERE environment_id = ? AND status = 'ACTIVE'` */
    method ActiveVersion(env: Id) returns (v: Count)
      requires Sound(s) && env in s.envs
      ensures HasStatus(s, env, v, ActiveKey)
    {
      hide KeksHold, CellsHold, PendingHold, OpsHold, SeedsHold, RowHolds;
      assert exists k :: k in s.keys && k.0 == env && s.keys[k].status == ActiveKey by {
        var x: Count :| HasStatus(s, env, x, ActiveKey);
        assert (env, x) in s.keys;
      }
      var k :| k in s.keys && k.0 == env && s.keys[k].status == ActiveKey;
      v := k.1;
      assert k == (env, v);
    }
  }

  /** The process can rotate the key of an environment: nothing else is open, and its primary key is ACTIVE. */
  predicate RotationPossible(s: Sys, env: Id) {
    env in s.envs && PrimaryActive(s) && forall x :: x in s.ops && IsOpen(s, x) ==> s.ops[x].env == env
  }

  /** A sound state whose operation is migrating. */
  ghost predicate Migrating(s: Sys, op: Id) {
    Sound(s) && IsOpen(s, op) && s.ops[op].status == MIGRATING
  }

  /** One batch of so many rows was committed. */
  predicate BatchOf(s: Sys, t: Sys, op: Id, table: Table, n: nat, supply: CellId -> Random, batch: set<CellId>) {
    BatchAllowed(s, op, table, batch) && t == MigrateBatch(s, op, table, batch, supply) && |batch| == n
  }

  ghost predicate BatchDone(s: Sys, t: Sys, op: Id, table: Table, n: nat, supply: CellId -> Random) {
    exists batch :: BatchOf(s, t, op, table, n, supply, batch)
  }

  /** A row of a batch, opened with the source key and sealed with the target key. */
  predicate ResealedCell(before: Cell, after: Cell, o: Operation, former: Key, secret: Key, random: Random) {
    OpenCell(former, before).Some? && after == Reseal(secret, before, o.target, OpenCell(former, before).value, random)
  }

  lemma MigratedAre(
    s: Sys, t: Sys, op: Id, table: Table, batch: set<CellId>, former: Key, secret: Key, supply: CellId -> Random, prepared: map<CellId, Cell>)
    requires op in s.ops && !s.ops[op].kek && s.ops[op].status == MIGRATING && PrimaryActive(s) && IsBatch(s, s.ops[op], table, batch)
    requires s.ops[op].processed + |batch| <= s.ops[op].total
    requires LoadDek(s, s.ops[op].env, s.ops[op].source) == Some(former) && LoadDek(s, s.ops[op].env, s.ops[op].target) == Some(secret)
    requires prepared.Keys == batch && forall k :: k in batch ==> k in s.cells && ResealedCell(s.cells[k], prepared[k], s.ops[op], former, secret, supply(k))
    requires t == s.(cells := t.cells, ops := s.ops[op := s.ops[op].(processed := s.ops[op].processed + |batch|)]) && t.cells.Keys == s.cells.Keys
    requires forall k :: k in s.cells ==> t.cells[k] == if k in batch then prepared[k] else s.cells[k]
    ensures BatchAllowed(s, op, table, batch) && t == MigrateBatch(s, op, table, batch, supply)
  {
    hide LoadDek, OpenCell, Reseal, PrimaryActive, RefSet, IsBatch;
    assert BatchAllowed(s, op, table, batch);
    assert t.cells == MigrateCells(s, s.ops[op], batch, former, secret, supply);
  }

  lemma AllOpen(s: Sys, op: Id, table: Table, batch: set<CellId>, former: Key)
    requires BatchAllowed(s, op, table, batch) && LoadDek(s, s.ops[op].env, s.ops[op].source) == Some(former)
    ensures s.ops[op].status == MIGRATING && s.ops[op].processed + |batch| <= s.ops[op].total
    ensures forall k :: k in batch && k in s.cells ==> OpenCell(former, s.cells[k]).Some?
  {
    hide LoadDek, OpenCell, PrimaryActive, IsBatch;
  }

  lemma RewrappedAre(s: Sys, t: Sys, source: Count, target: Count, prepared: map<(Id, Count), KeyRow>)
    requires s.previous.Some? && forall k :: k in s.keys && s.keys[k].status == ActiveKey ==> KeyRewraps(s, source, k)
    requires t.keys.Keys == s.keys.Keys && forall k :: k in prepared <==> k in s.keys && s.keys[k].status == ActiveKey
    requires forall k :: k in prepared ==> prepared[k] == Rewrapped(s, source, target, k)
    requires forall k :: k in s.keys ==> t.keys[k] == if k in prepared then prepared[k] else s.keys[k]
    ensures t.keys == RewrapKeys(s, source, target)
  {
    hide KeyRewraps, Rewrapped;
  }

  lemma ResealedKeys(s: Sys, source: Count, target: Count, supply: Id -> Random)
    requires s.previous.Some? && forall u :: u in s.seeds ==> SeedReseals(s, source, u)
    ensures ResealSeeds(s, source, target, supply).Keys == s.seeds.Keys && |ResealSeeds(s, source, target, supply)| == |s.seeds|
  {
    hide SeedReseals, Resealed;
    var m := ResealSeeds(s, source, target, supply);
    assert m.Keys == s.seeds.Keys;
    assert |m.Keys| == |m| && |s.seeds.Keys| == |s.seeds|;
  }

  /** Everything but cells, operations and the rows of pending keys. */
  predicate SameSetting(s: Sys, t: Sys) {
    && t.envs == s.envs && t.keks == s.keks && t.keys == s.keys && t.seeds == s.seeds && t.primary == s.primary && t.previous == s.previous
  }

  lemma StillPrimary(s: Sys, t: Sys)
    requires PrimaryActive(s) && t.keks == s.keks && t.primary == s.primary
    ensures PrimaryActive(t)
  {
    var v :| v in s.keks && IsActiveKek(s, v) && s.keks[v].master == s.primary;
    assert IsActiveKek(t, v);
  }

  lemma OpenKeys(s: Sys, op: Id)
    requires Sound(s) && IsOpen(s, op)
    ensures LoadDek(s, s.ops[op].env, s.ops[op].source).Some? && LoadDek(s, s.ops[op].env, s.ops[op].target).Some?
  {
    hide LoadDek, RowHolds, CellsHold, PendingHold, SeedsHold, OpsHold, KeksHold, KeysHold, Refs;
    var o := s.ops[op];
    OpenTarget(s, op);
    LoadOf(s, o.env, o.source);
    LoadOf(s, o.env, o.target);
    WrappedRow(s, (o.env, o.source));
    WrappedRow(s, (o.env, o.target));
  }

  lemma ActiveLoads(s: Sys, env: Id, v: Count)
    requires Sound(s) && HasStatus(s, env, v, ActiveKey)
    ensures LoadDek(s, env, v).Some?
  {
    hide LoadDek, RowHolds, CellsHold, PendingHold, SeedsHold, OpsHold, KeksHold, KeysHold;
    LoadOf(s, env, v);
    WrappedRow(s, (env, v));
  }

  lemma NothingLeft(s: Sys, op: Id)
    requires Sound(s) && IsOpen(s, op) && s.ops[op].status == VERIFYING
    ensures RefSet(s, s.ops[op].env, s.ops[op].source) == {}
  {
    hide KeksHold, KeysHold, CellsHold, PendingHold, SeedsHold, OpsHold, RefSet;
    OpenTarget(s, op);
  }

  predicate NoRows(s: Sys, o: Operation, table: Table) {
    forall k :: k in RefSet(s, o.env, o.source) ==> TableOf(k) != table
  }

  lemma NoRowsAtAll(s: Sys, o: Operation, table: Table)
    requires RefSet(s, o.env, o.source) == {}
    ensures NoRows(s, o, table)
  {
    hide RefSet;
  }

  lemma AllTables(s: Sys, o: Operation)
    requires NoRows(s, o, CurrentTable) && NoRows(s, o, HistoryTable) && NoRows(s, o, ProposalTable)
    ensures RefSet(s, o.env, o.source) == {}
  {
    hide RefSet;
    forall k ensures k !in RefSet(s, o.env, o.source) {
      match k {
        case CurrentCell(_) => assert TableOf(k) == CurrentTable;
        case HistoryCell(_, _) => assert TableOf(k) == HistoryTable;
        case ProposalCell(_) => assert TableOf(k) == ProposalTable;
      }
    }
  }

  lemma NoBatch(s: Sys, t: Sys, op: Id, table: Table, supply: CellId -> Random)
    requires op in s.ops && s.ops[op].status == VERIFYING
    ensures forall n :: !BatchDone(s, t, op, table, n, supply)
  {
    hide LoadDek, PrimaryActive, IsBatch, OpenCell;
  }

  /** A batch leaves everything else alone. */
  lemma BatchSetting(s: Sys, op: Id, table: Table, batch: set<CellId>, supply: CellId -> Random)
    requires Sound(s) && BatchAllowed(s, op, table, batch)
    ensures var t := MigrateBatch(s, op, table, batch, supply);
      && SameSetting(s, t) && PrimaryActive(t) && op in t.ops
      && t.ops[op] == s.ops[op].(processed := t.ops[op].processed) && t.ops == s.ops[op := t.ops[op]]
      && LoadDek(t, s.ops[op].env, s.ops[op].source) == LoadDek(s, s.ops[op].env, s.ops[op].source)
      && LoadDek(t, s.ops[op].env, s.ops[op].target) == LoadDek(s, s.ops[op].env, s.ops[op].target)
      && |batch| > 0
  {
    hide Sound, MigrateBatch, OpenCell, LoadDek, PrimaryActive;
    BatchTables(s, op, table, batch, supply);
    var t := MigrateBatch(s, op, table, batch, supply);
    StillPrimary(s, t);
    SameLoads(s, t);
    assert batch != {};
  }

  lemma SameLoads(s: Sys, t: Sys)
    requires t.keys == s.keys && t.primary == s.primary && t.previous == s.previous
    ensures forall env, v :: LoadDek(t, env, v) == LoadDek(s, env, v)
  {
    hide Unwrap;
  }

  lemma OpenAreDek(s: Sys)
    requires Sound(s)
    ensures forall x :: x in s.ops && IsOpen(s, x) ==> !s.ops[x].kek
  {
    hide Sound;
    forall x | x in s.ops && IsOpen(s, x) ensures !s.ops[x].kek { OpenTarget(s, x); }
  }

  lemma OnlyOpen(s: Sys, op: Id, env: Id)
    requires Sound(s) && IsOpen(s, op) && s.ops[op].env == env
    ensures forall x :: x in s.ops && IsOpen(s, x) ==> s.ops[x].env == env
  {
    hide Sound;
    forall x | x in s.ops && IsOpen(s, x) ensures s.ops[x].env == env { OneOpen(s, x, op); }
  }

  lemma PreparedSetting(s: Sys, op: Id, env: Id, source: Count, target: Count, secret: Key)
    requires PrepareAllowed(s, op, env, source, target)
    ensures var t := PrepareDek(s, op, env, source, target, secret);
            PrimaryActive(t) && IsOpen(t, op) && t.ops[op].env == env && t.ops == s.ops[op := t.ops[op]]
  {
    hide LoadDek, IsNextDek, Wrap, RefSet, PrimaryActive, Refs;
    StillPrimary(s, PrepareDek(s, op, env, source, target, secret));
  }

  lemma FinishedEntry(s: Sys, op: Id)
    requires FinishAllowed(s, op)
    ensures op in Finish(s, op).ops && Finish(s, op).ops[op].env == s.ops[op].env
            && Finish(s, op).ops[op].source == s.ops[op].source && Finish(s, op).ops[op].target == s.ops[op].target
            && (s.ops[op].env, s.ops[op].source) in Finish(s, op).keys
  {
    hide LoadDek, RefSet, PrimaryActive, CiphertextsVerified, Refs;
  }
}
