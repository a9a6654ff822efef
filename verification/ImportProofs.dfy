/** What the preparation of a record knows, and what a successful import leaves. */
module ImportProofs {
  import opened Text
  import opened Bytes
  import opened Crypto
  import Dotenv
  import opened Model
  import opened Fingerprint
  import opened Store
  import opened StoreProofs
  import opened StoreRuns
  import opened WorkflowStale
  import opened Import

  // ----- rows by key

  lemma RowFound(db: Db, env: Id, key: string)
    requires IdsHold(db)
    ensures var r := RowByKey(db, env, key);
            r.Some? ==> r.value.id in db.vars && db.vars[r.value.id] == r.value && r.value.env == env && r.value.key == key
  {
    hide IdsHold, CurrentRows, OrderedIds;
    RowsAreVariables(db, env);
  }

  lemma RowIs(db: Db, env: Id, id: Id)
    requires IdsHold(db) && KeysUnique(db) && id in db.vars && db.vars[id].env == env
    ensures RowByKey(db, env, db.vars[id].key) == Some(db.vars[id])
  {
    hide IdsHold, CurrentRows, OrderedIds;
    RowFound(db, env, db.vars[id].key);
    var i := RowOfVariable(db, env, id);
  }

  // ----- a direct write

  /** What the preparation knows of its target whatever is committed later. */
  predicate Tracks(db: Db, w: VersionWrite) {
    w.expected.Some? ==> w.variable in db.vars && db.vars[w.variable].key == w.key
  }

  predicate LineFits(env: Id, line: Line) {
    var w := line.direct.write;
    && w.env == env && w.action != DELETE && line.direct.proposed.Some?
    && (line.same ==> line.snapshot.Some? && line.snapshot.value.meta == w.meta)
  }

  lemma DirectParts(db: Db, env: Id, input: Input, draw: Draw)
    requires IdsHold(db) && PrepareDirect(db, env, input, draw).Ok?
    ensures var d := PrepareDirect(db, env, input, draw).value;
      && d.write.env == env && d.write.action != DELETE && d.proposed.Some? && Tracks(db, d.write) && WriteShaped(d.write)
      && ValidateKey(input.key) == Some(d.write.key)
      && d.write.sealed.blob.plain == input.value
      && InputMeta(db, env, RowByKey(db, env, d.write.key), input) == Some(d.write.meta)
      && env in db.active && d.write.sealed.dek == db.active[env]
  {
    hide IdsHold, RowByKey, InputMeta, ValidateKey, DekByVersion;
    RowFound(db, env, ValidateKey(input.key).value);
  }

  /** While its key exists, a record prepared at one time is well formed at every later one. */
  lemma RecordIsShaped(a: Db, b: Db, env: Id, input: Input, draw: Draw)
    requires Grows(a, b) && PrepareDirect(a, env, input, draw).Ok?
    requires var dek := PrepareDirect(a, env, input, draw).value.write.sealed.dek; DekByVersion(b, env, dek).Some?
    requires IdsHold(a) && KeysGrow(a, b)
    ensures var d := PrepareDirect(a, env, input, draw).value; DirectShaped(b, d) && Shaped(b, DirectOp(d))
  {
    hide IdsHold, Grows, RowByKey, InputMeta, ValidateKey, InputTarget, DekByVersion, KeysGrow, WriteShaped, Tracks;
    DirectParts(a, env, input, draw);
    RequestsStay(a, b);
    var d := PrepareDirect(a, env, input, draw).value;
    KeyStays(a, b, env, d.write.sealed.dek);
    var key := DekByVersion(a, env, a.active[env]).value;
    SealedOpen(b, env, d, key, b.envs[env].service);
  }

  lemma SealedOpen(b: Db, env: Id, d: Direct, key: Key, service: Id)
    requires env in b.envs && b.envs[env].service == service && d.write.env == env && WriteShaped(d.write)
    requires DekByVersion(b, env, d.write.sealed.dek) == Some(key)
    requires d.write.action != DELETE && d.proposed.Some? && d.proposed.value.dek == d.write.sealed.dek
    requires d.write.sealed.blob.key == key && d.proposed.value.blob.key == key
    requires d.write.sealed.blob.context == CurrentValue(service, env, d.write.variable, d.write.version, d.write.sealed.dek)
    requires d.proposed.value.blob.context == ProposedValue(service, env, d.write.request, d.write.item, 1, d.write.sealed.dek)
    ensures DirectShaped(b, d)
  {
    hide DekByVersion, WriteShaped;
  }

  lemma LineParts(db: Db, env: Id, input: Input, draw: Draw)
    requires IdsHold(db) && ReadLine(db, env, input, draw).Ok?
    ensures var line := ReadLine(db, env, input, draw).value;
      && LineFits(env, line) && Tracks(db, line.direct.write) && WriteShaped(line.direct.write)
      && line.snapshot == ActiveRow(db, env, input.key)
      && PrepareDirect(db, env, WithDescription(input, line.snapshot), draw) == Ok(line.direct)
      && IsUnchanged(db, line.direct.write, line.snapshot, input.value) == Ok(line.same)
      && ValidateKey(input.key) == Some(line.direct.write.key)
      && line.direct.write.sealed.blob.plain == input.value
  {
    hide IdsHold, PrepareDirect, ActiveRow, ValidateKey, WriteShaped, Tracks, DecryptRow;
    var input' := WithDescription(input, ActiveRow(db, env, input.key));
    DirectParts(db, env, input', draw);
  }

  /** The lines of a read, one for each input, with different keys. */
  ghost predicate LinesOf(db: Db, env: Id, inputs: seq<Input>, draws: seq<Draw>, lines: seq<Line>)
    requires |inputs| == |draws|
  {
    && |lines| == |inputs|
    && (forall i :: 0 <= i < |lines| ==> ReadLine(db, env, inputs[i], draws[i]) == Ok(lines[i]))
    && LineKeysDiffer(lines)
  }

  predicate LineKeysDiffer(lines: seq<Line>) {
    forall i, j :: 0 <= i < j < |lines| ==> lines[i].direct.write.key != lines[j].direct.write.key
  }

  lemma {:induction false} ReadGivesLines(db: Db, env: Id, inputs: seq<Input>, draws: seq<Draw>, seen: set<Name>)
    requires |inputs| == |draws| && IdsHold(db) && ReadLines(db, env, inputs, draws, seen).Ok?
    ensures var lines := ReadLines(db, env, inputs, draws, seen).value;
            LinesOf(db, env, inputs, draws, lines) && forall i :: 0 <= i < |lines| ==> lines[i].direct.write.key !in seen
  {
    hide ReadLine, IdsHold, ValidateKey;
    if inputs != [] {
      var key := ValidateKey(inputs[0].key).value;
      ReadGivesLines(db, env, inputs[1..], draws[1..], seen + {key});
      assert ValidateKey(inputs[0].key) == Some(ReadLine(db, env, inputs[0], draws[0]).value.direct.write.key) by {
        LineParts(db, env, inputs[0], draws[0]);
      }
      var lines := ReadLines(db, env, inputs, draws, seen).value;
      var rest := ReadLines(db, env, inputs[1..], draws[1..], seen + {key}).value;
      assert lines[1..] == rest;
      forall i | 0 <= i < |lines|
        ensures ReadLine(db, env, inputs[i], draws[i]) == Ok(lines[i]) && lines[i].direct.write.key !in seen
      {
        if i > 0 { assert lines[i] == rest[i - 1]; }
      }
      forall i, j | 0 <= i < j < |lines| ensures lines[i].direct.write.key != lines[j].direct.write.key {
        if i > 0 { assert lines[i] == rest[i - 1] && lines[j] == rest[j - 1]; } else { assert lines[j] == rest[j - 1]; }
      }
    }
  }

  // ----- what a list of writes leaves

  /** An ACTIVE row with the metadata and the value of a write. */
  predicate HoldsWrite(db: Db, w: VersionWrite) {
    exists id :: id in db.vars && db.vars[id].env == w.env && db.vars[id].key == w.key && db.vars[id].lifecycle == ACTIVE
                 && db.vars[id].meta == w.meta && db.vars[id].sealed.blob.plain == w.sealed.blob.plain
  }

  predicate NotTouched(directs: seq<Direct>, env: Id, key: Name) {
    forall i :: 0 <= i < |directs| ==> directs[i].write.env != env || directs[i].write.key != key
  }

  lemma DirectTables(db: Db, d: Direct)
    requires PersistDirect(db, d).Ok? && WriteShaped(d.write) && Tracks(db, d.write) && d.write.action != DELETE
    ensures var b := PersistDirect(db, d).value;
      && HoldsWrite(b, d.write)
      && (forall id :: id in db.vars && (db.vars[id].env != d.write.env || db.vars[id].key != d.write.key) ==> id in b.vars && b.vars[id] == db.vars[id])
      && (forall id :: id in b.vars && (b.vars[id].env != d.write.env || b.vars[id].key != d.write.key) ==> id in db.vars && b.vars[id] == db.vars[id])
      && (forall id :: id in db.vars ==> id in b.vars && b.vars[id].key == db.vars[id].key)
      && b.envs == db.envs && b.active == db.active && b.keys == db.keys
  {
    hide WriteVersion, KeyTaken, ItemInsertable, WriteShaped;
    var w := d.write;
    var db1 := db.(requests := db.requests[w.request := DirectRequest(w)]);
    var db2 := InsertItems(db1, [DirectItem(d)]).value;
    assert db2.vars == db.vars && db2.envs == db.envs && db2.active == db.active && db2.keys == db.keys by {
      InsertItemsInserts(db1, [DirectItem(d)]);
      InsertedTables(db1, db2, [DirectItem(d)]);
    }
    WriteTables(db2, w);
    var b := PersistDirect(db, d).value;
    assert b.vars[w.variable].key == w.key;
  }

  lemma {:induction false} DirectsLeave(db: Db, directs: seq<Direct>)
    requires PersistDirects(db, directs).Ok?
    requires forall i :: 0 <= i < |directs| ==>
               WriteShaped(directs[i].write) && Tracks(db, directs[i].write) && directs[i].write.action != DELETE
    requires forall i, j :: 0 <= i < j < |directs| ==> directs[i].write.key != directs[j].write.key
    ensures var b := PersistDirects(db, directs).value;
      && (forall i :: 0 <= i < |directs| ==> HoldsWrite(b, directs[i].write))
      && (forall id :: id in db.vars && NotTouched(directs, db.vars[id].env, db.vars[id].key) ==> id in b.vars && b.vars[id] == db.vars[id])
      && (forall id :: id in b.vars && NotTouched(directs, b.vars[id].env, b.vars[id].key) ==> id in db.vars && b.vars[id] == db.vars[id])
      && b.envs == db.envs && b.active == db.active && b.keys == db.keys
    decreases |directs|
  {
    hide PersistDirect, WriteShaped, HoldsWrite;
    if directs != [] {
      var d, rest := directs[0], directs[1..];
      DirectTables(db, d);
      var mid := PersistDirect(db, d).value;
      forall i | 0 <= i < |rest| ensures Tracks(mid, rest[i].write) { assert rest[i] == directs[i + 1] && Tracks(db, directs[i + 1].write); }
      DirectsLeave(mid, rest);
      var b := PersistDirects(db, directs).value;
      forall i | 0 <= i < |directs| ensures HoldsWrite(b, directs[i].write) {
        if i == 0 { StillHeld(mid, b, rest, d.write); } else { assert directs[i] == rest[i - 1]; }
      }
      forall id | id in db.vars && NotTouched(directs, db.vars[id].env, db.vars[id].key)
        ensures id in b.vars && b.vars[id] == db.vars[id]
      {
        NotTouchedParts(directs, db.vars[id].env, db.vars[id].key);
      }
      forall id | id in b.vars && NotTouched(directs, b.vars[id].env, b.vars[id].key)
        ensures id in db.vars && b.vars[id] == db.vars[id]
      {
        NotTouchedParts(directs, b.vars[id].env, b.vars[id].key);
      }
    }
  }

  lemma NotTouchedParts(directs: seq<Direct>, env: Id, key: Name)
    requires directs != [] && NotTouched(directs, env, key)
    ensures NotTouched(directs[1..], env, key) && (directs[0].write.env != env || directs[0].write.key != key)
  {
  }

  lemma StillHeld(a: Db, b: Db, directs: seq<Direct>, w: VersionWrite)
    requires HoldsWrite(a, w) && forall i :: 0 <= i < |directs| ==> directs[i].write.key != w.key
    requires forall id :: id in a.vars && NotTouched(directs, a.vars[id].env, a.vars[id].key) ==> id in b.vars && b.vars[id] == a.vars[id]
    ensures HoldsWrite(b, w)
  {
    var id :| id in a.vars && a.vars[id].env == w.env && a.vars[id].key == w.key && a.vars[id].lifecycle == ACTIVE
              && a.vars[id].meta == w.meta && a.vars[id].sealed.blob.plain == w.sealed.blob.plain;
    assert NotTouched(directs, a.vars[id].env, a.vars[id].key);
  }

  // ----- the commit

  predicate ComesFrom(lines: seq<Line>, d: Direct) {
    exists k :: 0 <= k < |lines| && !lines[k].same && lines[k].direct == d
  }

  lemma ComesFromRest(lines: seq<Line>, d: Direct)
    requires lines != [] && ComesFrom(lines[1..], d)
    ensures ComesFrom(lines, d)
  {
    var k :| 0 <= k < |lines[1..]| && !lines[1..][k].same && lines[1..][k].direct == d;
    assert lines[k + 1] == lines[1..][k];
  }

  lemma {:induction false} ChangedLines(lines: seq<Line>)
    ensures forall i :: 0 <= i < |Changed(lines)| ==> ComesFrom(lines, Changed(lines)[i])
    ensures forall k :: 0 <= k < |lines| && !lines[k].same ==> lines[k].direct in Changed(lines)
  {
    hide ComesFrom;
    if lines != [] {
      var rest := lines[1..];
      ChangedLines(rest);
      var front := if lines[0].same then 0 else 1;
      forall i | 0 <= i < |Changed(lines)| ensures ComesFrom(lines, Changed(lines)[i]) {
        if i < front {
          FirstComes(lines);
        } else {
          assert Changed(lines)[i] == Changed(rest)[i - front];
          ComesFromRest(lines, Changed(rest)[i - front]);
        }
      }
    }
  }

  lemma FirstComes(lines: seq<Line>)
    requires lines != [] && !lines[0].same
    ensures ComesFrom(lines, lines[0].direct)
  {
  }

  lemma {:induction false} ChangedKeysDiffer(lines: seq<Line>)
    requires LineKeysDiffer(lines)
    ensures forall i, j :: 0 <= i < j < |Changed(lines)| ==> Changed(lines)[i].write.key != Changed(lines)[j].write.key
  {
    if lines != [] {
      var rest := lines[1..];
      RestDiffer(lines);
      ChangedKeysDiffer(rest);
      ChangedLines(rest);
      if !lines[0].same {
        forall j | 0 <= j < |Changed(rest)| ensures Changed(rest)[j].write.key != lines[0].direct.write.key {
          assert ComesFrom(rest, Changed(rest)[j]);
          var k :| 0 <= k < |rest| && !rest[k].same && rest[k].direct == Changed(rest)[j];
          assert lines[k + 1] == rest[k];
        }
      }
    }
  }

  lemma RestDiffer(lines: seq<Line>)
    requires lines != [] && LineKeysDiffer(lines)
    ensures LineKeysDiffer(lines[1..])
  {
  }

  /** The facts about the lines that later commits do not change. */
  ghost predicate Ready(db: Db, env: Id, lines: seq<Line>) {
    && LineKeysDiffer(lines)
    && forall i :: 0 <= i < |lines| ==> LineFits(env, lines[i]) && Tracks(db, lines[i].direct.write) && WriteShaped(lines[i].direct.write)
  }

  lemma StillTracks(a: Db, b: Db, w: VersionWrite)
    requires Tracks(a, w) && Grows(a, b)
    ensures Tracks(b, w)
  {
    hide ItemGrows, RequestGrows, KeysGrow;
  }

  lemma ReadIsReady(a: Db, b: Db, env: Id, inputs: seq<Input>, draws: seq<Draw>)
    requires |inputs| == |draws| && IdsHold(a) && Grows(a, b) && ImportRead(a, env, inputs, draws).Ok?
    ensures var lines := ImportRead(a, env, inputs, draws).value; LinesOf(a, env, inputs, draws, lines) && Ready(b, env, lines)
  {
    hide IdsHold, Grows, ReadLine, LineFits, Tracks, WriteShaped;
    ReadGivesLines(a, env, inputs, draws, {});
    var lines := ImportRead(a, env, inputs, draws).value;
    forall i | 0 <= i < |lines| ensures LineFits(env, lines[i]) && Tracks(b, lines[i].direct.write) && WriteShaped(lines[i].direct.write) {
      LineParts(a, env, inputs[i], draws[i]);
      StillTracks(a, b, lines[i].direct.write);
    }
  }

  lemma CommitParts(db: Db, env: Id, lines: seq<Line>, refs: seq<Reference>, expected: Option<seq<Review>>)
    requires ImportCommit(db, env, lines, refs, expected).Ok?
    ensures env in db.envs && !db.envs[env].archived && !db.envs[env].serviceArchived && env in db.active
    ensures ReviewsAllow(Reviews(refs, env, LineKeys(lines)), lines)
    ensures forall i :: 0 <= i < |lines| ==> LineCurrent(db, env, lines[i])
    ensures PersistDirects(db, Changed(lines)).Ok?
    ensures var (b, n) := ImportCommit(db, env, lines, refs, expected).value;
            var c := PersistDirects(db, Changed(lines)).value;
            n == |Changed(lines)| && b == c.(audit := b.audit) && (n == 0 ==> b == db)
  {
    hide LineCurrent, ReviewsAllow, PersistDirect;
    assert Changed(lines) == [] ==> PersistDirects(db, Changed(lines)).value == db;
  }

  /** After an import each of its keys has an ACTIVE row with the metadata of its entry. */
  predicate HoldsLine(db: Db, w: VersionWrite) {
    exists id :: id in db.vars && db.vars[id].env == w.env && db.vars[id].key == w.key && db.vars[id].lifecycle == ACTIVE
                 && db.vars[id].meta == w.meta
  }

  lemma ImportWrites(db: Db, env: Id, lines: seq<Line>)
    requires Ready(db, env, lines) && PersistDirects(db, Changed(lines)).Ok?
    ensures var b := PersistDirects(db, Changed(lines)).value;
      && (forall i :: 0 <= i < |Changed(lines)| ==> HoldsWrite(b, Changed(lines)[i].write))
      && (forall id :: id in b.vars && NotTouched(Changed(lines), b.vars[id].env, b.vars[id].key) ==> id in db.vars && b.vars[id] == db.vars[id])
      && (forall id :: id in db.vars && NotTouched(Changed(lines), db.vars[id].env, db.vars[id].key) ==> id in b.vars && b.vars[id] == db.vars[id])
      && b.envs == db.envs && b.active == db.active && b.keys == db.keys
  {
    hide PersistDirects, WriteShaped, HoldsWrite, Tracks, LineFits, NotTouched, LineKeysDiffer;
    ChangedLines(lines);
    ChangedKeysDiffer(lines);
    var ds := Changed(lines);
    forall i | 0 <= i < |ds| ensures WriteShaped(ds[i].write) && Tracks(db, ds[i].write) && ds[i].write.action != DELETE {
      assert ComesFrom(lines, ds[i]);
      var k :| 0 <= k < |lines| && !lines[k].same && lines[k].direct == ds[i];
      FitsWrite(env, lines[k]);
    }
    DirectsLeave(db, ds);
  }

  lemma ImportLeaves(db: Db, env: Id, lines: seq<Line>, refs: seq<Reference>, expected: Option<seq<Review>>)
    requires IdsHold(db) && Ready(db, env, lines) && ImportCommit(db, env, lines, refs, expected).Ok?
    ensures var b := ImportCommit(db, env, lines, refs, expected).value.0;
      && (forall i :: 0 <= i < |lines| ==> HoldsLine(b, lines[i].direct.write) && (!lines[i].same ==> HoldsWrite(b, lines[i].direct.write)))
      && (forall id :: id in b.vars && NotTouched(Changed(lines), b.vars[id].env, b.vars[id].key) ==> id in db.vars && b.vars[id] == db.vars[id])
      && b.envs == db.envs && b.active == db.active && b.keys == db.keys
  {
    hide ImportCommit, PersistDirects, WriteShaped, HoldsWrite, HoldsLine, ReviewsAllow, IdsHold, Tracks, LineFits, LineCurrent, NotTouched;
    CommitParts(db, env, lines, refs, expected);
    ImportWrites(db, env, lines);
    var c := PersistDirects(db, Changed(lines)).value;
    var b := ImportCommit(db, env, lines, refs, expected).value.0;
    forall i | 0 <= i < |lines|
      ensures HoldsLine(b, lines[i].direct.write) && (!lines[i].same ==> HoldsWrite(b, lines[i].direct.write))
    {
      LineLeft(db, c, env, lines, i);
      if !lines[i].same { WriteHeld(c, b, lines[i].direct.write); } else { LineHeld(c, b, lines[i].direct.write); }
    }
  }

  lemma LineLeft(db: Db, c: Db, env: Id, lines: seq<Line>, i: nat)
    requires i < |lines| && IdsHold(db) && Ready(db, env, lines) && LineCurrent(db, env, lines[i])
    requires forall k :: 0 <= k < |Changed(lines)| ==> HoldsWrite(c, Changed(lines)[k].write)
    requires forall id :: id in db.vars && NotTouched(Changed(lines), db.vars[id].env, db.vars[id].key) ==> id in c.vars && c.vars[id] == db.vars[id]
    ensures if lines[i].same then HoldsLine(c, lines[i].direct.write) else HoldsWrite(c, lines[i].direct.write)
  {
    hide HoldsWrite, HoldsLine, IdsHold, LineCurrent, WriteShaped, Tracks, NotTouched;
    if lines[i].same {
      UntouchedLine(lines, i);
      SameLineHeld(db, c, env, lines[i]);
    } else {
      ChangedLines(lines);
      var k :| 0 <= k < |Changed(lines)| && Changed(lines)[k] == lines[i].direct;
    }
  }

  lemma LineHeld(a: Db, b: Db, w: VersionWrite)
    requires HoldsLine(a, w) && a.vars == b.vars
    ensures HoldsLine(b, w)
  {
    var id :| id in a.vars && a.vars[id].env == w.env && a.vars[id].key == w.key && a.vars[id].lifecycle == ACTIVE
              && a.vars[id].meta == w.meta;
    assert b.vars[id] == a.vars[id];
  }

  lemma FitsWrite(env: Id, line: Line)
    requires LineFits(env, line)
    ensures line.direct.write.env == env && line.direct.write.action != DELETE
  {
  }

  lemma WriteHeld(a: Db, b: Db, w: VersionWrite)
    requires HoldsWrite(a, w) && a.vars == b.vars
    ensures HoldsWrite(b, w) && HoldsLine(b, w)
  {
    var id :| id in a.vars && a.vars[id].env == w.env && a.vars[id].key == w.key && a.vars[id].lifecycle == ACTIVE
              && a.vars[id].meta == w.meta && a.vars[id].sealed.blob.plain == w.sealed.blob.plain;
    assert b.vars[id] == a.vars[id];
  }

  lemma UntouchedLine(lines: seq<Line>, i: nat)
    requires i < |lines| && LineKeysDiffer(lines) && lines[i].same
    ensures NotTouched(Changed(lines), lines[i].direct.write.env, lines[i].direct.write.key)
  {
    ChangedLines(lines);
    var ds := Changed(lines);
    forall j | 0 <= j < |ds| ensures ds[j].write.key != lines[i].direct.write.key {
      assert ComesFrom(lines, ds[j]);
      var k :| 0 <= k < |lines| && !lines[k].same && lines[k].direct == ds[j];
    }
  }

  lemma SameLineHeld(db: Db, b: Db, env: Id, line: Line)
    requires IdsHold(db) && LineFits(env, line) && line.same && LineCurrent(db, env, line)
    requires forall id :: id in db.vars && db.vars[id].env == env && db.vars[id].key == line.direct.write.key ==> id in b.vars && b.vars[id] == db.vars[id]
    ensures HoldsLine(b, line.direct.write)
  {
    hide IdsHold, RowByKey;
    var w := line.direct.write;
    RowFound(db, env, w.key);
    var row := ActiveRow(db, env, w.key).value;
    assert b.vars[row.id] == row;
  }
}
