/** What rotations guarantee over whole runs. */
module RotationRuns {
  import opened Text
  import opened Bytes
  import opened Crypto
  import opened Model
  import opened Rotation
  import opened RotationProofs

  // ----- plaintexts

  lemma SamePlainsTransitive(s: Sys, t: Sys, u: Sys)
    requires SamePlains(s, t) && SamePlains(t, u)
    ensures SamePlains(s, u)
  {
    hide PlainOf;
  }

  lemma SamePlainsReflexive(s: Sys)
    ensures SamePlains(s, s)
  {
    hide PlainOf;
  }

  /** Some operation is open before every step. */
  predicate OpenThroughout(s: Sys, steps: seq<Step>)
    decreases |steps|
  {
    steps == [] || (AnyOpen(s) && OpenThroughout(Step1(s, steps[0]), steps[1..]))
  }

  /**
   * From the step after the preparation to the one that finishes, through any crashes, restarts, resumed
   * calls and attempted writes, every cell keeps its row, its place and the plaintext it opens to.
   */
  lemma {:induction false} RotationKeepsPlaintexts(s: Sys, steps: seq<Step>)
    requires Sound(s) && OpenThroughout(s, steps)
    ensures SamePlains(s, Steps(s, steps)) && Sound(Steps(s, steps))
    decreases |steps|
  {
    hide Sound, Step1, SamePlains, AnyOpen;
    if steps == [] {
      SamePlainsReflexive(s);
    } else {
      StepKeeps(s, steps[0]);
      if steps[0].WriteStep? {
        WritesWait(s, steps[0].cells);
        SamePlainsReflexive(s);
      }
      RotationKeepsPlaintexts(Step1(s, steps[0]), steps[1..]);
      SamePlainsTransitive(s, Step1(s, steps[0]), Steps(s, steps));
    }
  }

  lemma WritesWait(s: Sys, cells: map<CellId, Cell>)
    requires AnyOpen(s)
    ensures Step1(s, WriteStep(cells)) == s
  {
    hide AnyOpen;
  }

  // ----- keys

  /** In every state a run reaches, each environment has exactly one ACTIVE key, and every cell opens under a key that exists. */
  lemma OneActiveKey(s: Sys, steps: seq<Step>, env: Id)
    requires Sound(s) && env in Steps(s, steps).envs
    ensures var t := Steps(s, steps);
      && (exists v :: HasStatus(t, env, v, ActiveKey))
      && (forall v, w :: HasStatus(t, env, v, ActiveKey) && HasStatus(t, env, w, ActiveKey) ==> v == w)
      && forall k :: k in t.cells && t.cells[k].env == env ==>
           (env, t.cells[k].dek) in t.keys && t.keys[(env, t.cells[k].dek)].wrapped.Some? && PlainOf(t, k).Some?
  {
    hide Steps, KeksHold, PendingHold, OpsHold, SeedsHold, RowHolds, OpenCell, HasStatus;
    StepsKeep(s, steps);
    var t := Steps(s, steps);
    assert forall k :: k in t.cells ==> PlainOf(t, k).Some?;
  }

  /** The one step that destroys a key does so when no cell names it. */
  lemma DestroyedUnreferenced(s: Sys, step: Step, k: (Id, Count))
    requires Sound(s) && k in s.keys && s.keys[k].wrapped.Some?
    requires k in Step1(s, step).keys && Step1(s, step).keys[k].wrapped.None?
    ensures Refs(s, k.0, k.1) == 0 && Refs(Step1(s, step), k.0, k.1) == 0
  {
    hide Sound, Step1, PlainOf, SamePlains;
    StepKeeps(s, step);
    var t := Step1(s, step);
    NothingNames(t, k);
    if step.WriteStep? {
      KeysStay(s, step);
    } else {
      StepNaming(s, t, step, k);
    }
  }

  lemma NothingNames(t: Sys, k: (Id, Count))
    requires Sound(t) && k in t.keys && t.keys[k].wrapped.None?
    ensures RefSet(t, k.0, k.1) == {}
  {
    hide KeksHold, KeysHold, PendingHold, OpsHold, SeedsHold, OpenCell;
    forall c | c in t.cells ensures !(t.cells[c].env == k.0 && t.cells[c].dek == k.1) {
      assert PlainOf(t, c).Some?;
    }
  }

  lemma KeysStay(s: Sys, step: Step)
    requires step.WriteStep?
    ensures Step1(s, step).keys == s.keys
  {
    hide WriteAllowed;
  }

  lemma StepNaming(s: Sys, t: Sys, step: Step, k: (Id, Count))
    requires !step.WriteStep? && t == Step1(s, step)
    requires k in s.keys && s.keys[k].wrapped.Some? && k in t.keys && t.keys[k].wrapped.None?
    ensures RefSet(s, k.0, k.1) == RefSet(t, k.0, k.1)
  {
    hide Step1;
    if step.BatchStep? { BatchLeavesKeys(s, step.op, step.table, step.batch, step.supply); } else { LeavesCells(s, step); }
  }

  lemma BatchLeavesKeys(s: Sys, op: Id, table: Table, batch: set<CellId>, supply: CellId -> Random)
    ensures Step1(s, BatchStep(op, table, batch, supply)).keys == s.keys
  {
    hide LoadDek, BatchAllowed, MigrateCells;
  }

  /** Only writes and batches change cells. */
  lemma LeavesCells(s: Sys, step: Step)
    requires !step.WriteStep? && !step.BatchStep?
    ensures Step1(s, step).cells == s.cells
  {
    hide Step1;
    match step {
      case EnvironmentStep(env, service, kek, secret) => EnvironmentLeavesCells(s, env, service, kek, secret);
      case EnrolStep(user, kek, plain, random) => EnrolLeavesCells(s, user, kek, plain, random);
      case ResetStep(user) => ResetLeavesCells(s, user);
      case RestartStep(primary, previous) => RestartLeavesCells(s, primary, previous);
      case PrepareStep(op, env, source, target, secret) => PrepareLeavesCells(s, op, env, source, target, secret);
      case VerifyStep(op) => VerifyLeavesCells(s, op);
      case FinishStep(op) => FinishLeavesCells(s, op);
      case KekStep(op, source, target, supply) => KekLeavesCells(s, op, source, target, supply);
    }
  }

  lemma EnvironmentLeavesCells(s: Sys, env: Id, service: Id, kek: Count, secret: Key)
    ensures Step1(s, EnvironmentStep(env, service, kek, secret)).cells == s.cells
  {
    hide EnvironmentAllowed;
  }

  lemma EnrolLeavesCells(s: Sys, user: Id, kek: Count, plain: string, random: Random)
    ensures Step1(s, EnrolStep(user, kek, plain, random)).cells == s.cells
  {
    hide EnrolAllowed;
  }

  lemma ResetLeavesCells(s: Sys, user: Id)
    ensures Step1(s, ResetStep(user)).cells == s.cells
  {
    hide WriteBlocked;
  }

  lemma RestartLeavesCells(s: Sys, primary: Key, previous: Option<Key>)
    ensures Step1(s, RestartStep(primary, previous)).cells == s.cells
  {
    hide StartAllowed;
  }

  lemma PrepareLeavesCells(s: Sys, op: Id, env: Id, source: Count, target: Count, secret: Key)
    ensures Step1(s, PrepareStep(op, env, source, target, secret)).cells == s.cells
  {
    hide LoadDek, PrimaryActive, AnyOpen, IsNextDek;
  }

  lemma VerifyLeavesCells(s: Sys, op: Id)
    ensures Step1(s, VerifyStep(op)).cells == s.cells
  {
    hide Refs;
  }

  lemma FinishLeavesCells(s: Sys, op: Id)
    ensures Step1(s, FinishStep(op)).cells == s.cells
  {
    hide LoadDek, PrimaryActive, Refs, CiphertextsVerified;
  }

  lemma KekLeavesCells(s: Sys, op: Id, source: Count, target: Count, supply: Id -> Random)
    ensures Step1(s, KekStep(op, source, target, supply)).cells == s.cells
    ensures forall x :: x in s.ops ==> x in Step1(s, KekStep(op, source, target, supply)).ops && Step1(s, KekStep(op, source, target, supply)).ops[x] == s.ops[x]
  {
    hide KeyRewraps, SeedReseals, ResealSeeds, MoveKek, RewrapKeys, IsNextKek, AnyOpen;
  }

  /** What finishing leaves: the new key ACTIVE, the old one destroyed, nothing naming it. */
  lemma FinishOutcome(s: Sys, op: Id)
    requires Sound(s) && FinishAllowed(s, op)
    ensures var t := Finish(s, op);
            var o := s.ops[op];
      && t.ops[op].status == COMPLETED && t.ops[op].processed == o.total && !AnyOpen(t)
      && HasStatus(t, o.env, o.target, ActiveKey) && t.keys[(o.env, o.source)].wrapped.None?
      && Refs(t, o.env, o.source) == 0 && Refs(t, o.env, o.target) == o.total
  {
    hide KeksHold, SeedsHold, CellsHold, PendingHold, KeysHold, RowHolds, CiphertextsVerified, LoadDek, OpsHold;
    assert OpenHolds(s, op) by { OpenOperation(s, op); }
    var t := Finish(s, op);
    FinishedOps(s, t, op);
    SameRefs(s, t);
  }

  // ----- KEK rotation

  /** A DEK rotation can start or go on only under the ACTIVE master key, a KEK rotation only away from it. */
  lemma RotationsExclude(s: Sys, op: Id, source: Count, target: Count, x: Id, env: Id, from: Count, to: Count, table: Table, batch: set<CellId>)
    requires Sound(s) && KekAllowed(s, op, source, target)
    ensures !PrepareAllowed(s, x, env, from, to) && !BatchAllowed(s, x, table, batch) && !FinishAllowed(s, x)
    ensures WriteBlocked(s)
  {
    hide KeysHold, CellsHold, PendingHold, OpsHold, SeedsHold, KeyRewraps, SeedReseals, LoadDek, IsNextDek, IsNextKek, OpenCell, CiphertextsVerified;
    if PrimaryActive(s) { ActiveMaster(s, source); }
  }

  /** The tests of each key and each seed never fail in a sound state: the rotation runs exactly when the mounted keys fit. */
  lemma KekAllowedExactly(s: Sys, op: Id, source: Count, target: Count)
    requires Sound(s)
    ensures KekAllowed(s, op, source, target) <==>
              IsActiveKek(s, source) && op !in s.ops && !AnyOpen(s) && s.previous == Some(s.keks[source].master)
              && (forall v :: v in s.keks ==> s.keks[v].master != s.primary) && IsNextKek(s, target)
  {
    hide CellsHold, PendingHold, OpsHold, Unwrap, OpenSeed;
    if IsActiveKek(s, source) && s.previous == Some(s.keks[source].master) {
      forall k | k in s.keys && s.keys[k].status == ActiveKey ensures KeyRewraps(s, source, k) { assert RowHolds(s, k); }
      forall u | u in s.seeds ensures SeedReseals(s, source, u) { assert IsActiveKek(s, s.seeds[u].kek); }
    }
  }

  /** Every key that is not retired and every seed opens with the primary key alone. */
  predicate UnderPrimary(s: Sys) {
    && (forall k :: k in s.keys && s.keys[k].status != RetiredKey ==>
          s.keys[k].wrapped.Some? && Unwrap(s.primary, k.0, k.1, s.keys[k].kek, s.keys[k].wrapped.value).Some?)
    && (forall u :: u in s.seeds ==> OpenSeed(s.primary, u, s.seeds[u]).Some?)
  }

  /** All or nothing: after the commit everything is under the primary key, every DEK and every seed what it was. */
  lemma KekOutcome(s: Sys, op: Id, source: Count, target: Count, supply: Id -> Random)
    requires Sound(s)
    ensures var t := Step1(s, KekStep(op, source, target, supply));
      if KekAllowed(s, op, source, target) then
        && UnderPrimary(t) && !WriteBlocked(t) && SameSecrets(s, t) && SamePlains(s, t)
        && t.seeds.Keys == s.seeds.Keys
        && forall u :: u in s.seeds ==> OpenSeed(s.primary, u, t.seeds[u]) == OpenSeed(s.keks[source].master, u, s.seeds[u])
      else t == s
  {
    hide Sound, KekAllowed, RotateKek, UnderPrimary, WriteBlocked, SameSecrets, SamePlains, OpenSeed;
    if KekAllowed(s, op, source, target) {
      KekKeeps(s, op, source, target, supply);
      KekUnderPrimary(s, op, source, target, supply);
    }
  }

  lemma KekUnderPrimary(s: Sys, op: Id, source: Count, target: Count, supply: Id -> Random)
    requires Sound(s) && KekAllowed(s, op, source, target)
    ensures var t := RotateKek(s, op, source, target, supply);
      && UnderPrimary(t) && !WriteBlocked(t) && SameSecrets(s, t) && t.seeds.Keys == s.seeds.Keys
      && forall u :: u in s.seeds ==> OpenSeed(s.primary, u, t.seeds[u]) == OpenSeed(s.keks[source].master, u, s.seeds[u])
  {
    hide KeksHold, KeysHold, CellsHold, PendingHold, OpsHold, SeedsHold, OpenSeed, Unwrap, RewrapKeys, ResealSeeds, MoveKek, PlainOf, SecretOf;
    hide KeyRewraps, SamePlains, IsNextKek, SameSecrets;
    var t := RotateKek(s, op, source, target, supply);
    MovedKeks(s, t, source, target);
    RewrappedRows(s, t, source, target);
    ResealedSeeds(s, t, source, target, supply);
    forall u | u in t.seeds ensures OpenSeed(s.primary, u, t.seeds[u]).Some? { assert SeedReseals(s, source, u); }
    assert IsActiveKek(t, target) && target in t.keks;
    assert forall x :: IsOpen(t, x) ==> IsOpen(s, x);
  }

  /** In every state of every run, restarts included, no key still in use is left under a retired master key. */
  lemma NothingUnderRetiredKek(s: Sys, steps: seq<Step>, k: (Id, Count))
    requires Sound(s) && k in Steps(s, steps).keys && Steps(s, steps).keys[k].status != RetiredKey
    ensures var t := Steps(s, steps);
            IsActiveKek(t, t.keys[k].kek) && t.keys[k].wrapped.Some?
            && Unwrap(t.keks[t.keys[k].kek].master, k.0, k.1, t.keys[k].kek, t.keys[k].wrapped.value).Some?
            && LoadDek(t, k.0, k.1) == Some(t.keys[k].wrapped.value.dek)
  {
    hide Steps, CellsHold, PendingHold, OpsHold, SeedsHold, Unwrap, KeksHold, LoadDek;
    StepsKeep(s, steps);
    var t := Steps(s, steps);
    assert RowHolds(t, k);
    LoadOf(t, k.0, k.1);
  }

  // ----- progress

  /** The operation is the same, and nothing new names its source version. */
  predicate Falls(s: Sys, t: Sys, op: Id) {
    && op in s.ops && op in t.ops && t.ops[op].source == s.ops[op].source && t.ops[op].env == s.ops[op].env
    && RefSet(t, s.ops[op].env, s.ops[op].source) <= RefSet(s, s.ops[op].env, s.ops[op].source)
  }

  /** The source and the environment of an operation never change. */
  lemma EntryStays(s: Sys, step: Step, op: Id)
    requires op in s.ops
    ensures var t := Step1(s, step); op in t.ops && t.ops[op].source == s.ops[op].source && t.ops[op].env == s.ops[op].env
  {
    hide AnyOpen, LoadDek, StartAllowed, EnvironmentAllowed, EnrolAllowed, VerifyAllowed, WriteAllowed, OpenCell;
    hide RotateKek, KekAllowed, MigrateCells, IsNextDek, IsBatch, CiphertextsVerified, PrimaryActive;
    if step.KekStep? { KekLeavesCells(s, step.op, step.source, step.target, step.seeds); }
  }

  /** While an operation is open no step adds a reference to its source version. */
  lemma SourceOnlyFalls(s: Sys, step: Step, op: Id)
    requires Sound(s) && IsOpen(s, op)
    ensures Falls(s, Step1(s, step), op)
  {
    hide Sound, Step1, MigrateBatch, BatchAllowed;
    assert AnyOpen(s);
    EntryStays(s, step, op);
    if step.BatchStep? && BatchAllowed(s, step.op, step.table, step.batch) {
      BatchFalls(s, op, step);
    } else if step.BatchStep? {
      NoStep(s, step);
    } else if step.WriteStep? {
      WritesWait(s, step.cells);
    } else {
      LeavesCells(s, step);
    }
  }

  lemma NoStep(s: Sys, step: Step)
    requires step.BatchStep? && !BatchAllowed(s, step.op, step.table, step.batch)
    ensures Step1(s, step) == s
  {
    hide BatchAllowed;
  }

  lemma BatchFalls(s: Sys, op: Id, step: Step)
    requires Sound(s) && IsOpen(s, op) && step.BatchStep? && BatchAllowed(s, step.op, step.table, step.batch)
    ensures var t := Step1(s, step); RefSet(t, s.ops[op].env, s.ops[op].source) <= RefSet(s, s.ops[op].env, s.ops[op].source)
  {
    hide Sound, MigrateBatch, LoadDek, IsBatch, OpenCell, PlainOf, CellInPlace;
    assert IsOpen(s, step.op);
    OneOpen(s, op, step.op);
    BatchParts(s, step.op, step.table, step.batch, step.supply);
    OpenTarget(s, op);
  }

  lemma OneOpen(s: Sys, a: Id, b: Id)
    requires Sound(s) && IsOpen(s, a) && IsOpen(s, b)
    ensures a == b
  {
    hide KeksHold, KeysHold, CellsHold, PendingHold, SeedsHold, OpenHolds;
  }

  lemma OpenTarget(s: Sys, op: Id)
    requires Sound(s) && IsOpen(s, op)
    ensures OpenHolds(s, op)
  {
    hide KeksHold, KeysHold, CellsHold, PendingHold, SeedsHold, OpenHolds;
  }

  /** A sound state with an open operation under the ACTIVE master key accepts every batch of its rows. */
  lemma BatchIsAllowed(s: Sys, op: Id, table: Table, batch: set<CellId>)
    requires Sound(s) && PrimaryActive(s) && IsOpen(s, op) && s.ops[op].status == MIGRATING && IsBatch(s, s.ops[op], table, batch)
    ensures BatchAllowed(s, op, table, batch)
  {
    hide KeksHold, KeysHold, RowHolds, CellsHold, PendingHold, OpsHold, SeedsHold, OpenCell, LoadDek, PrimaryActive, PlainOf;
    var o := s.ops[op];
    OpenTarget(s, op);
    LoadOf(s, o.env, o.source);
    LoadOf(s, o.env, o.target);
    WrappedRow(s, (o.env, o.source));
    WrappedRow(s, (o.env, o.target));
    SubsetCount(batch, RefSet(s, o.env, o.source));
    forall k | k in batch ensures OpenCell(LoadDek(s, o.env, o.source).value, s.cells[k]).Some? {
      assert k in RefSet(s, o.env, o.source);
      NamedCell(s, k);
    }
  }

  lemma WrappedRow(s: Sys, k: (Id, Count))
    requires KeysHold(s) && k in s.keys && s.keys[k].status != RetiredKey
    ensures s.keys[k].wrapped.Some? && SecretOf(s.keys[k]).Some?
  {
    hide Unwrap;
    assert RowHolds(s, k);
  }

  lemma NamedCell(s: Sys, k: CellId)
    requires CellsHold(s) && k in s.cells
    ensures (s.cells[k].env, s.cells[k].dek) in s.keys && SecretOf(s.keys[(s.cells[k].env, s.cells[k].dek)]).Some?
    ensures OpenCell(SecretOf(s.keys[(s.cells[k].env, s.cells[k].dek)]).value, s.cells[k]).Some?
  {
    hide OpenCell;
    assert PlainOf(s, k).Some?;
  }

  lemma SubsetCount<T>(a: set<T>, b: set<T>)
    requires a <= b
    ensures |a| <= |b|
  {
    assert b == a + (b - a);
  }

  /** A verifying operation under the ACTIVE master key can always be finished. */
  lemma FinishIsAllowed(s: Sys, op: Id)
    requires Sound(s) && PrimaryActive(s) && IsOpen(s, op) && Refs(s, s.ops[op].env, s.ops[op].source) == 0
    ensures FinishAllowed(s, op)
  {
    hide KeksHold, KeysHold, RowHolds, CellsHold, OpsHold, SeedsHold, LoadDek, PrimaryActive, Open, PlaceContext;
    var o := s.ops[op];
    OpenTarget(s, op);
    LoadOf(s, o.env, o.target);
    WrappedRow(s, (o.env, o.target));
    forall k | k in RefSet(s, o.env, o.target)
      ensures Open(LoadDek(s, o.env, o.target).value, PlaceContext(o.env, s.cells[k].place, o.target), s.cells[k].blob).Some?
    {
      assert HasStatus(s, s.cells[k].env, s.cells[k].dek, PendingKey);
    }
  }
}
