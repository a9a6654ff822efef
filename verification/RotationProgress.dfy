/** A resumed rotation completes, whatever happened before and however its batches are chosen. */
module RotationProgress {
  import opened Text
  import opened Bytes
  import opened Crypto
  import opened Model
  import opened Rotation
  import opened RotationProofs
  import opened RotationRuns
  import opened KeyRotation

  /** How a call chooses the table and the rows of its next batch; any choice that the queries can give. */
  type Chooser = Sys -> (Table, set<CellId>)

  ghost predicate Chooses(choose: Chooser, op: Id) {
    forall s: Sys :: IsOpen(s, op) && RefSet(s, s.ops[op].env, s.ops[op].source) != {} ==> IsBatch(s, s.ops[op], choose(s).0, choose(s).1)
  }

  /** The transactions of a resumed call: batches while something names the source version, then the last two. */
  ghost function Resume(s: Sys, op: Id, choose: Chooser, supply: CellId -> Random): Sys
    requires Sound(s) && PrimaryActive(s) && IsOpen(s, op) && Chooses(choose, op)
    decreases Refs(s, s.ops[op].env, s.ops[op].source)
  {
    if RefSet(s, s.ops[op].env, s.ops[op].source) == {} then Step1(Step1(s, VerifyStep(op)), FinishStep(op))
    else
      BatchProgress(s, op, choose(s).0, choose(s).1, supply);
      Resume(Step1(s, BatchStep(op, choose(s).0, choose(s).1, supply)), op, choose, supply)
  }

  /** A batch commits, lowers the references to the source version, and leaves the operation open. */
  lemma BatchProgress(s: Sys, op: Id, table: Table, batch: set<CellId>, supply: CellId -> Random)
    requires Sound(s) && PrimaryActive(s) && IsOpen(s, op) && IsBatch(s, s.ops[op], table, batch)
    ensures var t := Step1(s, BatchStep(op, table, batch, supply));
      && Sound(t) && PrimaryActive(t) && SamePlains(s, t) && IsOpen(t, op)
      && t.ops[op] == s.ops[op].(processed := t.ops[op].processed)
      && Refs(t, s.ops[op].env, s.ops[op].source) == Refs(s, s.ops[op].env, s.ops[op].source) - |batch| && |batch| > 0
  {
    hide Sound, PrimaryActive, BatchAllowed, MigrateBatch, SamePlains, RefSet;
    if s.ops[op].status == VERIFYING { NothingLeft(s, op); }
    BatchIsAllowed(s, op, table, batch);
    BatchKeeps(s, op, table, batch, supply);
    BatchSetting(s, op, table, batch, supply);
  }

  /** Completed: the old key retired and destroyed, the new one ACTIVE, every cell on it with its plaintext, writes allowed again. */
  predicate CompletedFrom(s: Sys, t: Sys, op: Id)
    requires op in s.ops
  {
    var o := s.ops[op];
    && op in t.ops && t.ops[op] == o.(status := COMPLETED, processed := o.total)
    && HasStatus(t, o.env, o.source, RetiredKey) && t.keys[(o.env, o.source)].wrapped.None?
    && HasStatus(t, o.env, o.target, ActiveKey)
    && Refs(t, o.env, o.source) == 0 && Refs(t, o.env, o.target) == o.total
    && SamePlains(s, t) && !WriteBlocked(t)
  }

  lemma {:induction false} ResumeCompletes(s: Sys, op: Id, choose: Chooser, supply: CellId -> Random)
    requires Sound(s) && PrimaryActive(s) && IsOpen(s, op) && Chooses(choose, op)
    ensures CompletedFrom(s, Resume(s, op, choose, supply), op) && Sound(Resume(s, op, choose, supply))
    decreases Refs(s, s.ops[op].env, s.ops[op].source)
  {
    hide Sound, PrimaryActive, SamePlains, RefSet, Step1, WriteBlocked;
    var o := s.ops[op];
    if RefSet(s, o.env, o.source) == {} {
      LastSteps(s, op);
    } else {
      var t := Step1(s, BatchStep(op, choose(s).0, choose(s).1, supply));
      BatchProgress(s, op, choose(s).0, choose(s).1, supply);
      ResumeCompletes(t, op, choose, supply);
      SamePlainsTransitive(s, t, Resume(t, op, choose, supply));
    }
  }

  lemma LastSteps(s: Sys, op: Id)
    requires Sound(s) && PrimaryActive(s) && IsOpen(s, op) && RefSet(s, s.ops[op].env, s.ops[op].source) == {}
    ensures var t := Step1(Step1(s, VerifyStep(op)), FinishStep(op)); CompletedFrom(s, t, op) && Sound(t)
  {
    hide Sound, PrimaryActive, SamePlains, RefSet, FinishAllowed, Finish, Step1, AnyOpen;
    var t := Step1(s, VerifyStep(op));
    StepKeeps(s, VerifyStep(op));
    Verified(s, op);
    FinishIsAllowed(t, op);
    FinishOutcome(t, op);
    FinishKeeps(t, op);
    Finishes(t, op);
    var u := Finish(t, op);
    SamePlainsTransitive(s, t, u);
    var o := s.ops[op];
    assert u.ops[op] == o.(status := COMPLETED, processed := o.total);
    assert HasStatus(u, o.env, o.source, RetiredKey) && u.keys[(o.env, o.source)].wrapped.None?;
    assert HasStatus(u, o.env, o.target, ActiveKey);
    assert Refs(u, o.env, o.source) == 0 && Refs(u, o.env, o.target) == o.total;
    StillPrimary(t, u);
  }

  lemma Verified(s: Sys, op: Id)
    requires Sound(s) && PrimaryActive(s) && IsOpen(s, op) && RefSet(s, s.ops[op].env, s.ops[op].source) == {}
    ensures var t := Step1(s, VerifyStep(op));
      && t == s.(ops := s.ops[op := s.ops[op].(status := VERIFYING)])
      && PrimaryActive(t) && RefSet(t, s.ops[op].env, s.ops[op].source) == {}
  {
    hide KeksHold, KeysHold, CellsHold, PendingHold, SeedsHold, PrimaryActive, OpsHold;
    OpenTarget(s, op);
    StillPrimary(s, Step1(s, VerifyStep(op)));
  }

  lemma Finishes(s: Sys, op: Id)
    requires FinishAllowed(s, op)
    ensures Step1(s, FinishStep(op)) == Finish(s, op)
    ensures Finish(s, op).keks == s.keks && Finish(s, op).primary == s.primary
    ensures op in Finish(s, op).ops && (s.ops[op].env, s.ops[op].source) in Finish(s, op).keys
    ensures var o := s.ops[op]; HasStatus(Finish(s, op), o.env, o.source, RetiredKey)
    ensures Finish(s, op).ops[op] == s.ops[op].(status := COMPLETED, processed := s.ops[op].total)
  {
    hide CiphertextsVerified, LoadDek, PrimaryActive, Refs;
  }

  /** After any run at all, crashes and restarts included, that leaves an operation open under the ACTIVE master key. */
  lemma RotationCompletes(s: Sys, steps: seq<Step>, t: Sys, op: Id, choose: Chooser, supply: CellId -> Random)
    requires Sound(s) && t == Steps(s, steps) && Chooses(choose, op)
    requires IsOpen(t, op) && PrimaryActive(t)
    ensures Sound(t) && CompletedFrom(t, Resume(t, op, choose, supply), op)
  {
    hide Sound, PrimaryActive, Steps, Resume, CompletedFrom, Chooses;
    StepsKeep(s, steps);
    ResumeCompletes(t, op, choose, supply);
  }

  /** The write gate is open exactly when no operation is under way and the ACTIVE master key is the primary one. */
  lemma GateExactly(s: Sys)
    ensures !WriteBlocked(s) <==>
              (forall op :: op in s.ops ==> s.ops[op].status == COMPLETED)
              && exists v :: v in s.keks && s.keks[v].active && s.keks[v].master == s.primary
  {
    if !WriteBlocked(s) {
      forall op | op in s.ops ensures s.ops[op].status == COMPLETED { assert !IsOpen(s, op); }
      var v :| v in s.keks && IsActiveKek(s, v) && s.keks[v].master == s.primary;
    }
    if exists v :: v in s.keks && s.keks[v].active && s.keks[v].master == s.primary {
      var v :| v in s.keks && s.keks[v].active && s.keks[v].master == s.primary;
      assert IsActiveKek(s, v);
    }
  }

  // ----- what the two preparations leave

  /** A prepared rotation: the target key PENDING and opening to the new secret, the operation counting every record of the source. */
  lemma PrepareOutcome(s: Sys, op: Id, env: Id, source: Count, target: Count, secret: Key)
    requires Sound(s) && PrepareAllowed(s, op, env, source, target)
    ensures var t := Step1(s, PrepareStep(op, env, source, target, secret));
      && (env, target) !in s.keys && t.keys.Keys == s.keys.Keys + {(env, target)}
      && (forall k :: k in s.keys ==> t.keys[k] == s.keys[k])
      && HasStatus(t, env, target, PendingKey) && LoadDek(t, env, target) == Some(secret)
      && t.ops == s.ops[op := Operation(false, env, source, target, MIGRATING, Refs(s, env, source), 0)]
      && t == s.(keys := t.keys, ops := t.ops) && WriteBlocked(t)
  {
    hide KeksHold, KeysHold, CellsHold, PendingHold, OpsHold, SeedsHold, PrimaryActive, AnyOpen, Refs;
    var t := Step1(s, PrepareStep(op, env, source, target, secret));
    assert IsOpen(t, op);
    assert AnyOpen(t) by { OpenIsOpen(t, op); }
  }

  lemma OpenIsOpen(t: Sys, op: Id)
    requires IsOpen(t, op)
    ensures AnyOpen(t)
  {
  }

  /** The registry after a master-key rotation: the primary key ACTIVE under the next version, the old one not; every key keeps its status. */
  lemma KekRecord(s: Sys, op: Id, source: Count, target: Count, supply: Id -> Random)
    requires KekAllowed(s, op, source, target)
    ensures var t := Step1(s, KekStep(op, source, target, supply));
      && target !in s.keks && t.keks == s.keks[source := Kek(s.keks[source].master, false)][target := Kek(s.primary, true)]
      && t.keys.Keys == s.keys.Keys && (forall k :: k in s.keys ==> t.keys[k].status == s.keys[k].status)
      && (forall k :: k in s.keys && s.keys[k].status == ActiveKey ==> t.keys[k].kek == target)
      && (forall u :: u in s.seeds ==> u in t.seeds && t.seeds[u].kek == target)
      && op !in s.ops && t.ops.Keys == s.ops.Keys + {op} && t.ops[op].kek && t.ops[op].status == COMPLETED
      && t.ops[op].source == source && t.ops[op].target == target
      && t == s.(keks := t.keks, keys := t.keys, seeds := t.seeds, ops := t.ops)
  {
    hide Unwrap, OpenSeed, AnyOpen, KeyRewraps, SeedReseals, RewrapKeys, ResealSeeds, IsNextKek, IsActiveKek;
    NextIsNew(s, target);
    MovedRows(s, source, target, supply);
    var t := Step1(s, KekStep(op, source, target, supply));
    assert t == RotateKek(s, op, source, target, supply);
  }

  lemma NextIsNew(s: Sys, target: Count)
    requires IsNextKek(s, target)
    ensures target !in s.keks
  {
  }

  lemma MovedRows(s: Sys, source: Count, target: Count, supply: Id -> Random)
    requires s.previous.Some?
    requires forall k :: k in s.keys && s.keys[k].status == ActiveKey ==> KeyRewraps(s, source, k)
    requires forall u :: u in s.seeds ==> SeedReseals(s, source, u)
    ensures var keys, seeds := RewrapKeys(s, source, target), ResealSeeds(s, source, target, supply);
      && keys.Keys == s.keys.Keys && (forall k :: k in s.keys ==> keys[k].status == s.keys[k].status)
      && (forall k :: k in s.keys && s.keys[k].status == ActiveKey ==> keys[k].kek == target)
      && (forall u :: u in s.seeds ==> u in seeds && seeds[u].kek == target)
  {
    hide KeyRewraps, SeedReseals;
  }

  // ----- a rotation half done

  /** One environment, one variable at its first version, and its history row. */
  datatype Start = Start(env: Id, service: Id, variable: Id, plain: string, master: Key, former: Key, random: Random)

  function StartCell(x: Start): Cell {
    Cell(x.env, ValuePlace(x.service, x.variable, 1), 1,
         Seal(x.former, CurrentValue(x.service, x.env, x.variable, 1, 1), x.plain, x.random))
  }

  function Settled(x: Start): Sys {
    Sys(map[x.env := x.service], map[1 := Kek(x.master, true)],
        map[(x.env, 1) := KeyRow(ActiveKey, 1, Some(Wrap(x.master, x.env, 1, 1, x.former)))], map[],
        map[CurrentCell(x.variable) := StartCell(x), HistoryCell(x.variable, 1) := StartCell(x)], map[], x.master, None)
  }

  lemma SettledIsSound(x: Start)
    ensures Sound(Settled(x)) && PrimaryActive(Settled(x)) && IsNextDek(Settled(x), x.env, 2)
    ensures LoadDek(Settled(x), x.env, 1).Some? && HasStatus(Settled(x), x.env, 1, ActiveKey) && !AnyOpen(Settled(x))
  {
    var s := Settled(x);
    assert IsActiveKek(s, 1);
    assert HasStatus(s, x.env, 1, ActiveKey);
    assert RowHolds(s, (x.env, 1));
  }

  /** Preparing it and migrating one of its two rows leaves a sound state in which both versions are named. */
  lemma HalfDone(x: Start, op: Id, secret: Key, supply: CellId -> Random)
    ensures var t := Steps(Settled(x), [PrepareStep(op, x.env, 1, 2, secret), BatchStep(op, CurrentTable, {CurrentCell(x.variable)}, supply)]);
      && Sound(t) && IsOpen(t, op) && t.ops[op].processed == 1 && Refs(t, x.env, 1) == 1 && Refs(t, x.env, 2) == 1
  {
    hide Sound, PrimaryActive, Steps, Step1, LoadDek, IsNextDek, AnyOpen, HasStatus, Settled, RefSet, IsBatch, SamePlains, Refs;
    var s := Settled(x);
    var first, second := PrepareStep(op, x.env, 1, 2, secret), BatchStep(op, CurrentTable, {CurrentCell(x.variable)}, supply);
    SettledIsSound(x);
    StepsKeep(s, [first, second]);
    var p := Step1(s, first);
    StartPrepared(x, op, secret);
    StepKeeps(s, first);
    BatchProgress(p, op, CurrentTable, {CurrentCell(x.variable)}, supply);
    TwoSteps(s, first, second);
    Counters(p, op);
    Counters(Step1(p, second), op);
  }

  lemma Counters(s: Sys, op: Id)
    requires Sound(s) && IsOpen(s, op)
    ensures var o := s.ops[op];
            o.processed + Refs(s, o.env, o.source) == o.total && Refs(s, o.env, o.target) == o.processed
  {
    hide KeksHold, KeysHold, CellsHold, PendingHold, SeedsHold, OpsHold, Refs;
    OpenTarget(s, op);
  }

  lemma TwoSteps(s: Sys, a: Step, b: Step)
    ensures Steps(s, [a, b]) == Step1(Step1(s, a), b)
  {
    hide Step1;
    assert [a, b][1..] == [b] && [b][1..] == [];
    assert Steps(Step1(s, a), [b]) == Steps(Step1(Step1(s, a), b), []);
  }

  lemma StartRefs(x: Start)
    ensures RefSet(Settled(x), x.env, 1) == {CurrentCell(x.variable), HistoryCell(x.variable, 1)}
  {
  }

  lemma SameCells(s: Sys, t: Sys)
    requires t.cells == s.cells
    ensures forall env, v :: RefSet(t, env, v) == RefSet(s, env, v)
  {
  }

  lemma StartPrepared(x: Start, op: Id, secret: Key)
    ensures var p := Step1(Settled(x), PrepareStep(op, x.env, 1, 2, secret));
      && p.ops == map[op := Operation(false, x.env, 1, 2, MIGRATING, 2, 0)] && p.cells == Settled(x).cells
      && PrimaryActive(p) && IsOpen(p, op)
      && IsBatch(p, p.ops[op], CurrentTable, {CurrentCell(x.variable)})
  {
    hide LoadDek, IsNextDek, PrimaryActive, AnyOpen, HasStatus, Sound, StartCell, RefSet;
    var s := Settled(x);
    SettledIsSound(x);
    StartRefs(x);
    var p := Step1(s, PrepareStep(op, x.env, 1, 2, secret));
    StillPrimary(s, p);
    assert RefSet(p, x.env, 1) == RefSet(s, x.env, 1) by { SameCells(s, p); }
  }
}
