/** One visibility for each imported key, and imports repeated. */
module ImportRepeat {
  import opened Text
  import opened Bytes
  import opened Crypto
  import Dotenv
  import opened Model
  import opened Fingerprint
  import opened Store
  import opened StoreProofs
  import opened StoreRuns
  import opened WorkflowStale
  import opened Import
  import opened ImportProofs
  import DotenvRoundTrip
  import DotenvExact

  // ----- an import is a step of a run

  /** The writes of an import whose transaction passes its checks are well formed. */
  lemma ImportIsShaped(a: Db, b: Db, env: Id, inputs: seq<Input>, draws: seq<Draw>, refs: seq<Reference>, expected: Option<seq<Review>>)
    requires |inputs| == |draws| && Inv(a) && Inv(b) && Grows(a, b) && ImportRead(a, env, inputs, draws).Ok?
    requires ImportCommit(b, env, ImportRead(a, env, inputs, draws).value, refs, expected).Ok?
    ensures var changed := Changed(ImportRead(a, env, inputs, draws).value);
            forall i :: 0 <= i < |changed| ==> DirectShaped(b, changed[i])
  {
    hide Inv, Grows, ImportCommit, ReadLine, LineCurrent, DirectShaped, ReviewsAllow, Changed, DekByVersion, PersistDirects;
    hide IdsHold, KeysUnique, HistoryComplete, StatusesHold, ItemsHold, Readable, ImportRead, LineFits, WriteShaped, Tracks;
    InvIds(a);
    ReadIsReady(a, b, env, inputs, draws);
    var lines := ImportRead(a, env, inputs, draws).value;
    CommitParts(b, env, lines, refs, expected);
    ActiveKey(b, env);
    RequestsStay(a, b);
    ChangedLines(lines);
    forall i | 0 <= i < |Changed(lines)| ensures DirectShaped(b, Changed(lines)[i]) {
      assert ComesFrom(lines, Changed(lines)[i]);
      var k :| 0 <= k < |lines| && !lines[k].same && lines[k].direct == Changed(lines)[i];
      LineParts(a, env, inputs[k], draws[k]);
      assert lines[k].direct.write.sealed.dek == b.active[env] by { CurrentDek(b, env, lines[k]); }
      RecordIsShaped(a, b, env, WithDescription(inputs[k], lines[k].snapshot), draws[k]);
    }
  }

  lemma CurrentDek(db: Db, env: Id, line: Line)
    requires LineCurrent(db, env, line)
    ensures env in db.active && line.direct.write.sealed.dek == db.active[env]
  {
  }

  /** Every import keeps the invariants and only adds, like the other steps of a run. */
  lemma ImportIsAStep(a: Db, b: Db, env: Id, inputs: seq<Input>, draws: seq<Draw>, refs: seq<Reference>, expected: Option<seq<Review>>)
    requires |inputs| == |draws| && Inv(a) && Inv(b) && Grows(a, b) && ImportRead(a, env, inputs, draws).Ok?
    requires ImportCommit(b, env, ImportRead(a, env, inputs, draws).value, refs, expected).Ok?
    ensures var lines := ImportRead(a, env, inputs, draws).value;
            var c := ImportCommit(b, env, lines, refs, expected).value.0;
            c == Run1(b, ImportOp(env, Changed(lines))) && Inv(c) && Grows(b, c)
  {
    hide Inv, Grows, ImportRead, Changed, PersistImport, DirectShaped, LineCurrent, ReviewsAllow;
    ImportIsShaped(a, b, env, inputs, draws, refs, expected);
    OneTransaction(b, ImportOp(env, Changed(ImportRead(a, env, inputs, draws).value)));
  }

  // ----- visibility

  /** An ACTIVE row of an environment of the App that is not archived. */
  predicate InUse(db: Db, service: Id, id: Id) {
    id in db.vars && StoredIn(db, service, db.vars[id]) && !db.envs[db.vars[id].env].archived && db.vars[id].lifecycle == ACTIVE
  }

  lemma ReviewSeesRow(db: Db, service: Id, refs: seq<Reference>, env: Id, w: VersionWrite, id: Id)
    requires IsReferenceList(db, service, refs) && InUse(db, service, id) && db.vars[id].key == w.key
    requires ReviewAllows(ReviewKey(refs, env, w.key), w)
    ensures db.vars[id].meta.visibility == w.meta.visibility
  {
    var r := VariableReference(db, db.vars[id]);
    var matches := Matching(refs, w.key);
    var current := Current(matches);
    assert r in refs;
    assert r in matches && r in current;
    var i :| 0 <= i < |current| && current[i] == r;
  }

  lemma VisibilityOfLine(db: Db, b: Db, env: Id, lines: seq<Line>, refs: seq<Reference>, expected: Option<seq<Review>>, i: nat, id: Id)
    requires IdsHold(db) && Ready(db, env, lines) && KeysUnique(b) && env in db.envs
    requires ImportCommit(db, env, lines, refs, expected).Ok? && b == ImportCommit(db, env, lines, refs, expected).value.0
    requires IsReferenceList(db, db.envs[env].service, refs)
    requires i < |lines| && InUse(b, db.envs[env].service, id) && b.vars[id].key == lines[i].direct.write.key
    ensures b.vars[id].meta.visibility == lines[i].direct.write.meta.visibility
  {
    hide IdsHold, IsReferenceList, ImportCommit, PersistDirects, Changed, ReviewKey, HoldsWrite, Tracks, WriteShaped, LineCurrent, KeysUnique;
    var w := lines[i].direct.write;
    ImportLeaves(db, env, lines, refs, expected);
    CommitParts(db, env, lines, refs, expected);
    if b.vars[id].env == env {
      OneRow(b, w, id);
    } else {
      OtherEnvironment(env, lines, b.vars[id].env, b.vars[id].key);
      assert ReviewAllows(ReviewKey(refs, env, w.key), w);
      ReviewSeesRow(db, db.envs[env].service, refs, env, w, id);
    }
  }

  lemma OneRow(db: Db, w: VersionWrite, id: Id)
    requires KeysUnique(db) && HoldsLine(db, w) && id in db.vars && db.vars[id].env == w.env && db.vars[id].key == w.key
    ensures db.vars[id].meta == w.meta && db.vars[id].lifecycle == ACTIVE
  {
  }

  lemma OtherEnvironment(env: Id, lines: seq<Line>, other: Id, key: Name)
    requires other != env && forall i :: 0 <= i < |lines| ==> LineFits(env, lines[i])
    ensures NotTouched(Changed(lines), other, key)
  {
    ChangedLines(lines);
    forall i | 0 <= i < |Changed(lines)| ensures Changed(lines)[i].write.env != other {
      assert ComesFrom(lines, Changed(lines)[i]);
      var k :| 0 <= k < |lines| && !lines[k].same && lines[k].direct == Changed(lines)[i];
    }
  }

  /**
   * After every successful import, whatever was committed since it read, all rows in use of an imported key
   * across the environments of the App have one visibility: that of the import.
   */
  lemma OneVisibility(
    a: Db, ops: seq<Op>, b: Db, c: Db, changed: nat, env: Id, inputs: seq<Input>, draws: seq<Draw>, lines: seq<Line>,
    refs: seq<Reference>, expected: Option<seq<Review>>, i: nat, id: Id)
    requires |inputs| == |draws| && Inv(a) && ImportRead(a, env, inputs, draws) == Ok(lines)
    requires b == Run(a, ops) && env in b.envs && IsReferenceList(b, b.envs[env].service, refs)
    requires ImportCommit(b, env, lines, refs, expected) == Ok((c, changed))
    requires i < |inputs| == |lines| && InUse(c, b.envs[env].service, id) && c.vars[id].key == lines[i].direct.write.key
    ensures c.vars[id].meta.visibility == inputs[i].visibility
  {
    hide Inv, Grows, Run, ImportCommit, IsReferenceList, ReadLine, LineFits, Tracks, WriteShaped, IdsHold, KeysUnique, HistoryComplete;
    hide StatusesHold, ItemsHold, Readable, ImportRead;
    EveryRun(a, ops);
    InvIds(a);
    InvIds(b);
    ReadIsReady(a, b, env, inputs, draws);
    ImportIsAStep(a, b, env, inputs, draws, refs, expected);
    InvIds(c);
    VisibilityOfLine(b, c, env, lines, refs, expected, i, id);
    LineParts(a, env, inputs[i], draws[i]);
    DirectParts(a, env, WithDescription(inputs[i], lines[i].snapshot), draws[i]);
    MetaVisibility(a, env, RowByKey(a, env, lines[i].direct.write.key), WithDescription(inputs[i], lines[i].snapshot));
  }

  lemma MetaVisibility(db: Db, env: Id, existing: Option<Variable>, input: Input)
    requires InputMeta(db, env, existing, input).Some?
    ensures InputMeta(db, env, existing, input).value.visibility == input.visibility
  {
    hide ValidateGroup, ValidateDescription, AppliedOrder, Utf8Len;
  }

  // ----- an import repeated

  predicate Trimmed(inputs: seq<Input>) { forall i :: 0 <= i < |inputs| ==> Trim(inputs[i].key) == inputs[i].key }

  /** The row of an entry after its import: what the entry says, defaults filled in. */
  predicate Landed(db: Db, env: Id, input: Input, w: VersionWrite, id: Id) {
    && id in db.vars && db.vars[id].env == env && db.vars[id].key == w.key && db.vars[id].lifecycle == ACTIVE
    && db.vars[id].meta == w.meta && db.vars[id].sealed.blob.plain == input.value
  }

  ghost predicate HasLanded(db: Db, env: Id, input: Input, w: VersionWrite) { exists id :: Landed(db, env, input, w, id) }

  lemma DescriptionFixed(d: Option<Name>)
    requires ValidateDescription(d).Some?
    ensures ValidateDescription(ValidateDescription(d).value) == ValidateDescription(d)
  {
    hide TrimMatches;
    if d.Some? { TrimIdempotent(d.value, IsWhite); }
  }

  /** Reading an entry again gives the metadata that its import wrote. */
  lemma MetaAgain(a: Db, c: Db, env: Id, before: Option<Variable>, input: Input, snapshot: Option<Variable>, row: Variable, meta: Meta)
    requires InputMeta(a, env, before, WithDescription(input, snapshot)) == Some(meta)
    requires row.meta == meta
    ensures InputMeta(c, env, Some(row), WithDescription(input, Some(row))) == Some(meta)
  {
    hide ValidateGroup, ValidateDescription, Utf8Len, NextDisplayOrder;
    var first := WithDescription(input, snapshot);
    DescriptionFixed(first.description);
    assert meta.description == ValidateDescription(first.description).value;
  }

  /** One entry read again is unchanged. */
  lemma LineAgain(a: Db, c: Db, env: Id, input: Input, draw: Draw, id: Id, draw2: Draw)
    requires IdsHold(a) && ReadLine(a, env, input, draw).Ok?
    requires IdsHold(c) && KeysUnique(c) && Readable(c) && env in c.envs && !c.envs[env].archived && !c.envs[env].serviceArchived
    requires Landed(c, env, input, ReadLine(a, env, input, draw).value.direct.write, id)
    requires Trim(input.key) == input.key && Next(c.vars[id].version).Some?
    ensures ReadLine(c, env, input, draw2).Ok?
    ensures var line := ReadLine(c, env, input, draw2).value;
      && line.same && line.snapshot == ActiveRow(c, env, line.direct.write.key)
      && line.direct.write.key == ReadLine(a, env, input, draw).value.direct.write.key
      && line.direct.write.meta == ReadLine(a, env, input, draw).value.direct.write.meta
      && env in c.active && line.direct.write.sealed.dek == c.active[env]
  {
    hide IdsHold, KeysUnique, Readable, InputMeta, ValidateKey, ReadLine, PrepareDirect, RowByKey, DekByVersion, DecryptRow;
    hide Tracks, WriteShaped, Next, InputTarget;
    LineParts(a, env, input, draw);
    var line := ReadLine(a, env, input, draw).value;
    DirectParts(a, env, WithDescription(input, line.snapshot), draw);
    var row := c.vars[id];
    assert RowByKey(c, env, input.key) == Some(row) by { KeyOf(input.key, line.direct.write.key); RowIs(c, env, id); }
    KeyOf(input.key, line.direct.write.key);
    var w := line.direct.write;
    MetaAgain(a, c, env, RowByKey(a, env, w.key), input, line.snapshot, row, w.meta);
    PreparedAgain(c, env, input, draw2, row, w.meta);
    assert DecryptRow(c, row) == Ok(input.value) by { RowDecrypts(c, id); }
    ReadAgain(c, env, input, draw2, row, w.meta);
  }

  lemma KeyOf(raw: Name, key: Name)
    requires ValidateKey(raw) == Some(key)
    ensures key == Trim(raw)
  {
    hide TrimMatches;
  }

  lemma RowDecrypts(db: Db, id: Id)
    requires Readable(db) && id in db.vars
    ensures DecryptRow(db, db.vars[id]) == Ok(db.vars[id].sealed.blob.plain)
  {
    hide DecryptRow, RowReadable, ItemReadable, HistoryReadable, DekByVersion;
    RowOpens(db, db.vars[id]);
  }

  lemma ActiveDekOpens(db: Db, env: Id)
    requires Readable(db) && env in db.envs
    ensures env in db.active && DekByVersion(db, env, db.active[env]).Some?
  {
    hide DekByVersion, RowReadable, ItemReadable, HistoryReadable;
  }

  lemma PreparedAgain(c: Db, env: Id, input: Input, draw: Draw, row: Variable, meta: Meta)
    requires Readable(c) && env in c.envs && !c.envs[env].archived && !c.envs[env].serviceArchived
    requires ValidateKey(input.key) == Some(row.key) && RowByKey(c, env, row.key) == Some(row)
    requires row.lifecycle == ACTIVE && Next(row.version).Some?
    requires InputMeta(c, env, Some(row), WithDescription(input, Some(row))) == Some(meta)
    ensures var r := PrepareDirect(c, env, WithDescription(input, Some(row)), draw);
            r.Ok? && r.value.write.expected == Some(row.version) && r.value.write.meta == meta && r.value.write.key == row.key
            && env in c.active && r.value.write.sealed.dek == c.active[env]
  {
    hide Readable, InputMeta, ValidateKey, RowByKey, DekByVersion;
    ActiveDekOpens(c, env);
  }

  lemma ReadAgain(c: Db, env: Id, input: Input, draw: Draw, row: Variable, meta: Meta)
    requires ActiveRow(c, env, input.key) == Some(row) && row.meta == meta && DecryptRow(c, row) == Ok(input.value)
    requires var r := PrepareDirect(c, env, WithDescription(input, Some(row)), draw);
             r.Ok? && r.value.write.expected == Some(row.version) && r.value.write.meta == meta
    ensures ReadLine(c, env, input, draw) ==
            Ok(Line(PrepareDirect(c, env, WithDescription(input, Some(row)), draw).value, Some(row), true))
  {
    hide ActiveRow, DecryptRow, PrepareDirect, WithDescription;
  }

  lemma {:induction false} LinesAgain(
    a: Db, c: Db, env: Id, inputs: seq<Input>, draws: seq<Draw>, draws2: seq<Draw>, seen: set<Name>)
    requires |inputs| == |draws| == |draws2| && ReadLines(a, env, inputs, draws, seen).Ok?
    requires forall i :: 0 <= i < |inputs| ==> ReadLine(c, env, inputs[i], draws2[i]).Ok?
    ensures ReadLines(c, env, inputs, draws2, seen).Ok?
    ensures var lines := ReadLines(c, env, inputs, draws2, seen).value;
            |lines| == |inputs| && forall i :: 0 <= i < |lines| ==> ReadLine(c, env, inputs[i], draws2[i]) == Ok(lines[i])
  {
    hide ReadLine, ValidateKey;
    if inputs != [] {
      var key := ValidateKey(inputs[0].key).value;
      LinesAgain(a, c, env, inputs[1..], draws[1..], draws2[1..], seen + {key});
      var lines := ReadLines(c, env, inputs, draws2, seen).value;
      forall i | 0 <= i < |lines| ensures ReadLine(c, env, inputs[i], draws2[i]) == Ok(lines[i]) {
        if i > 0 { assert lines[i] == lines[1..][i - 1]; }
      }
    }
  }

  lemma {:induction false} NothingChanges(lines: seq<Line>)
    requires forall i :: 0 <= i < |lines| ==> lines[i].same
    ensures Changed(lines) == []
  {
    if lines != [] { NothingChanges(lines[1..]); }
  }

  // ----- where each entry landed

  lemma WriteLanded(c: Db, env: Id, input: Input, w: VersionWrite) returns (id: Id)
    requires HoldsWrite(c, w) && w.env == env && w.sealed.blob.plain == input.value
    ensures Landed(c, env, input, w, id)
  {
    id :| id in c.vars && c.vars[id].env == w.env && c.vars[id].key == w.key && c.vars[id].lifecycle == ACTIVE
          && c.vars[id].meta == w.meta && c.vars[id].sealed.blob.plain == w.sealed.blob.plain;
  }

  lemma StillPlain(a: Db, b: Db, id: Id)
    requires Grows(a, b) && id in a.vars && id in b.vars && a.vars[id].version == b.vars[id].version
    ensures SamePlain(a.vars[id].sealed, b.vars[id].sealed)
  {
    hide ItemGrows, RequestGrows, KeysGrow;
    assert VariableGrows(a.vars[id], b.vars[id]);
  }

  /** An unchanged entry: the row at the commit is the row that was compared. */
  lemma SameLanded(a: Db, b: Db, c: Db, env: Id, input: Input, line: Line) returns (id: Id)
    requires IdsHold(a) && IdsHold(b) && Grows(a, b)
    requires line.same && LineFits(env, line) && LineCurrent(b, env, line) && line.snapshot == ActiveRow(a, env, input.key)
    requires IsUnchanged(a, line.direct.write, line.snapshot, input.value) == Ok(true)
    requires forall x :: x in b.vars && b.vars[x].env == env && b.vars[x].key == line.direct.write.key ==> x in c.vars && c.vars[x] == b.vars[x]
    ensures Landed(c, env, input, line.direct.write, id)
  {
    hide IdsHold, Grows, RowByKey, DecryptRow;
    RowFound(a, env, input.key);
    RowFound(b, env, line.direct.write.key);
    id := ActiveRow(b, env, line.direct.write.key).value.id;
    assert line.snapshot.value.id == id;
    StillPlain(a, b, id);
    OpenedRow(a, line.snapshot.value);
  }

  lemma EntryLanded(
    a: Db, b: Db, env: Id, inputs: seq<Input>, draws: seq<Draw>, lines: seq<Line>, refs: seq<Reference>, expected: Option<seq<Review>>, i: nat)
    returns (id: Id)
    requires |inputs| == |draws| && IdsHold(a) && IdsHold(b) && Grows(a, b) && LinesOf(a, env, inputs, draws, lines) && Ready(b, env, lines)
    requires ImportCommit(b, env, lines, refs, expected).Ok? && i < |inputs|
    ensures Landed(ImportCommit(b, env, lines, refs, expected).value.0, env, inputs[i], lines[i].direct.write, id)
  {
    hide IdsHold, Grows, ImportCommit, ReadLine, Tracks, WriteShaped, HoldsWrite, HoldsLine, LineCurrent, ReviewsAllow, Landed, PersistDirects;
    var c := ImportCommit(b, env, lines, refs, expected).value.0;
    ImportLeaves(b, env, lines, refs, expected);
    CommitParts(b, env, lines, refs, expected);
    LineParts(a, env, inputs[i], draws[i]);
    if lines[i].same {
      UntouchedLine(lines, i);
      ImportWrites(b, env, lines);
      id := SameLanded(a, b, c, env, inputs[i], lines[i]);
    } else {
      id := WriteLanded(c, env, inputs[i], lines[i].direct.write);
    }
  }

  // ----- the review of the repetition

  /** Direct writes open no request. */
  predicate NoNewlyOpen(a: Db, b: Db) {
    && b.envs == a.envs
    && forall id :: id in b.items && IsOpen(b, b.items[id]) ==>
         id in a.items && a.items[id] == b.items[id] && IsOpen(a, a.items[id])
         && a.requests[a.items[id].request] == b.requests[b.items[id].request]
  }

  lemma DirectOpensNothing(db: Db, d: Direct)
    requires PersistDirect(db, d).Ok?
    ensures NoNewlyOpen(db, PersistDirect(db, d).value)
  {
    hide WriteVersion, InsertItems;
    var w := d.write;
    var db1 := db.(requests := db.requests[w.request := DirectRequest(w)]);
    var db2 := InsertItems(db1, [DirectItem(d)]).value;
    InsertItemsInserts(db1, [DirectItem(d)]);
    InsertedTables(db1, db2, [DirectItem(d)]);
    NewItemsRequest(db1, db2, [DirectItem(d)], w.request);
    var b := PersistDirect(db, d).value;
    assert b.items == db2.items && b.requests == db2.requests && b.envs == db2.envs by { WriteOnlyVariables(db2, w); }
    forall id | id in b.items && IsOpen(b, b.items[id])
      ensures id in db.items && db.items[id] == b.items[id] && IsOpen(db, db.items[id])
              && db.requests[db.items[id].request] == b.requests[b.items[id].request]
    {
      assert b.items[id].request != w.request;
    }
  }

  lemma WriteOnlyVariables(db: Db, w: VersionWrite)
    requires WriteVersion(db, w).Some?
    ensures SameButVersions(db, WriteVersion(db, w).value)
  {
    hide KeyTaken;
  }

  lemma {:induction false} DirectsOpenNothing(db: Db, directs: seq<Direct>)
    requires PersistDirects(db, directs).Ok?
    ensures NoNewlyOpen(db, PersistDirects(db, directs).value)
    decreases |directs|
  {
    hide PersistDirect;
    if directs != [] {
      DirectOpensNothing(db, directs[0]);
      DirectsOpenNothing(PersistDirect(db, directs[0]).value, directs[1..]);
    }
  }

  /** What the references of the committed state say of one key. */
  lemma ReferencesAfter(b: Db, c: Db, service: Id, refs: seq<Reference>, refs2: seq<Reference>, w: VersionWrite, r: Reference)
    requires IsReferenceList(b, service, refs) && IsReferenceList(c, service, refs2) && NoNewlyOpen(b, c)
    requires forall id :: InUse(c, service, id) && c.vars[id].key == w.key ==> c.vars[id].meta.visibility == w.meta.visibility
    requires r in Matching(refs2, w.key) && r.active
    ensures r.pending ==> r in Matching(refs, w.key)
    ensures !r.pending ==> r.visibility == w.meta.visibility
  {
    var k :| 0 <= k < |refs2| && refs2[k] == r;
    if FromVariable(c, service, r) {
      var id :| id in c.vars && StoredIn(c, service, c.vars[id]) && r == VariableReference(c, c.vars[id]);
      assert InUse(c, service, id);
    } else {
      var id :| id in c.items && OpenIn(c, service, c.items[id]) && r == ItemReference(c, c.items[id]);
      assert OpenIn(b, service, b.items[id]) && ItemReference(b, b.items[id]) == r;
    }
  }

  /** Every reference in use agrees with the write, and none is pending in its environment. */
  predicate ReferencesAgree(refs: seq<Reference>, env: Id, w: VersionWrite) {
    forall x :: x in Matching(refs, w.key) && x.active ==> x.visibility == w.meta.visibility && (x.pending ==> x.env != env)
  }

  lemma AgreeingReview(refs: seq<Reference>, env: Id, w: VersionWrite)
    requires ReferencesAgree(refs, env, w) && Current(Matching(refs, w.key)) != []
    ensures ReviewAllows(ReviewKey(refs, env, w.key), w)
  {
    var matches := Matching(refs, w.key);
    var current := Current(matches);
    assert forall i :: 0 <= i < |current| ==> current[i] in current;
    assert forall i :: 0 <= i < |matches| ==> matches[i] in matches;
  }

  lemma ReviewAgain(b: Db, c: Db, service: Id, refs: seq<Reference>, refs2: seq<Reference>, env: Id, w: VersionWrite, own: Id)
    requires IsReferenceList(b, service, refs) && IsReferenceList(c, service, refs2) && NoNewlyOpen(b, c)
    requires forall id :: InUse(c, service, id) && c.vars[id].key == w.key ==> c.vars[id].meta.visibility == w.meta.visibility
    requires InUse(c, service, own) && c.vars[own].key == w.key
    requires ReviewAllows(ReviewKey(refs, env, w.key), w)
    ensures ReviewAllows(ReviewKey(refs2, env, w.key), w)
  {
    hide IsReferenceList, NoNewlyOpen, ReviewAllows, InUse, ReviewKey;
    OwnReference(c, service, refs2, w.key, own);
    forall x | x in Matching(refs2, w.key) && x.active
      ensures x.visibility == w.meta.visibility && (x.pending ==> x.env != env)
    {
      ReferencesAfter(b, c, service, refs, refs2, w, x);
      if x.pending { PendingAllowed(refs, env, w, x); }
    }
    AgreeingReview(refs2, env, w);
  }

  lemma OwnReference(c: Db, service: Id, refs: seq<Reference>, key: Name, own: Id)
    requires IsReferenceList(c, service, refs) && InUse(c, service, own) && c.vars[own].key == key
    ensures Current(Matching(refs, key)) != []
  {
    hide FromVariable, FromItem, IsOpen;
    assert VariableReference(c, c.vars[own]) in refs;
    assert VariableReference(c, c.vars[own]) in Current(Matching(refs, key));
  }

  lemma PendingAllowed(refs: seq<Reference>, env: Id, w: VersionWrite, r: Reference)
    requires ReviewAllows(ReviewKey(refs, env, w.key), w) && r in Matching(refs, w.key) && r.active && r.pending
    ensures r.env != env && r.visibility == w.meta.visibility
  {
    var matches := Matching(refs, w.key);
    var i :| 0 <= i < |matches| && matches[i] == r;
    assert HasPending(matches);
  }

  // ----- the theorem

  /** A whole call: the read, then the transaction. */
  function ImportCall(
    read: Db, at: Db, env: Id, inputs: seq<Input>, draws: seq<Draw>, refs: seq<Reference>, expected: Option<seq<Review>>): Result<(Db, nat)>
    requires |inputs| == |draws|
  {
    match ImportRead(read, env, inputs, draws)
    case Err(e) => Err(e)
    case Ok(lines) => ImportCommit(at, env, lines, refs, expected)
  }

  /** Each key stands for itself, and its row has a next version. */
  predicate Repeatable(db: Db, env: Id, inputs: seq<Input>) {
    && Trimmed(inputs)
    && forall i :: 0 <= i < |inputs| ==>
         var row := RowByKey(db, env, inputs[i].key); row.Some? ==> Next(row.value.version).Some?
  }

  lemma UntrimmedFails(
    c: Db, env: Id, inputs: seq<Input>, draws: seq<Draw>, refs: seq<Reference>, expected: Option<seq<Review>>, i: nat, id: Id)
    requires |inputs| == |draws| && IdsHold(c) && KeysUnique(c) && i < |inputs| && Trim(inputs[i].key) != inputs[i].key
    requires id in c.vars && c.vars[id].env == env && c.vars[id].key == Trim(inputs[i].key) && c.vars[id].lifecycle == ACTIVE
    ensures ImportCall(c, c, env, inputs, draws, refs, expected).Err?
  {
    hide IdsHold, KeysUnique, ReadLine, RowByKey, ReviewsAllow, PersistDirects, ValidateKey, TrimMatches, ImportCommit;
    if ImportCall(c, c, env, inputs, draws, refs, expected).Ok? {
      ReadGivesLines(c, env, inputs, draws, {});
      var lines := ImportRead(c, env, inputs, draws).value;
      LineParts(c, env, inputs[i], draws[i]);
      CommitParts(c, env, lines, refs, expected);
      KeyOf(inputs[i].key, lines[i].direct.write.key);
      RowIs(c, env, id);
      RowFound(c, env, inputs[i].key);
      SnapshotDiffers(c, env, inputs[i].key, lines[i]);
    }
  }

  lemma SnapshotDiffers(c: Db, env: Id, raw: Name, line: Line)
    requires line.snapshot == ActiveRow(c, env, raw) && line.direct.write.key != raw
    requires ActiveRow(c, env, line.direct.write.key).Some?
    ensures !LineCurrent(c, env, line)
  {
    hide CurrentRows;
  }

  lemma NoNextFails(
    c: Db, env: Id, inputs: seq<Input>, draws: seq<Draw>, refs: seq<Reference>, expected: Option<seq<Review>>, i: nat)
    requires |inputs| == |draws| && IdsHold(c) && i < |inputs| && Trim(inputs[i].key) == inputs[i].key
    requires RowByKey(c, env, inputs[i].key).Some? && Next(RowByKey(c, env, inputs[i].key).value.version).None?
    ensures ImportCall(c, c, env, inputs, draws, refs, expected).Err?
  {
    hide IdsHold, ReadLine, RowByKey, ImportCommit, ValidateKey, TrimMatches, Next, PrepareDirect, ActiveRow;
    if ImportCall(c, c, env, inputs, draws, refs, expected).Ok? {
      ReadGivesLines(c, env, inputs, draws, {});
      var lines := ImportRead(c, env, inputs, draws).value;
      LineParts(c, env, inputs[i], draws[i]);
      KeyOf(inputs[i].key, lines[i].direct.write.key);
      NoNextDirect(c, env, WithDescription(inputs[i], lines[i].snapshot), draws[i]);
    }
  }

  lemma NoNextDirect(c: Db, env: Id, input: Input, draw: Draw)
    requires ValidateKey(input.key).Some?
    requires var row := RowByKey(c, env, ValidateKey(input.key).value); row.Some? && Next(row.value.version).None?
    ensures PrepareDirect(c, env, input, draw).Err?
  {
    hide RowByKey, ValidateKey, InputMeta, Next;
  }

  /** The state that an import leaves, as far as its repetition sees it. */
  ghost predicate Imported(c: Db, env: Id, inputs: seq<Input>, lines: seq<Line>, refs2: seq<Reference>) {
    && |lines| == |inputs| && env in c.envs && !c.envs[env].archived && !c.envs[env].serviceArchived && LineKeysDiffer(lines)
    && (forall i :: 0 <= i < |lines| ==> ValidateKey(inputs[i].key) == Some(lines[i].direct.write.key))
    && (forall i :: 0 <= i < |lines| ==> HasLanded(c, env, inputs[i], lines[i].direct.write))
    && (forall i :: 0 <= i < |lines| ==> ReviewAllows(ReviewKey(refs2, env, lines[i].direct.write.key), lines[i].direct.write))
  }

  lemma RepetitionChangesNothing(
    a: Db, c: Db, env: Id, inputs: seq<Input>, draws: seq<Draw>, draws2: seq<Draw>, refs2: seq<Reference>, expected2: Option<seq<Review>>)
    requires |inputs| == |draws| == |draws2| && IdsHold(a) && ImportRead(a, env, inputs, draws).Ok?
    requires IdsHold(c) && KeysUnique(c) && Readable(c)
    requires Imported(c, env, inputs, ImportRead(a, env, inputs, draws).value, refs2) && Repeatable(c, env, inputs)
    requires expected2.None? || expected2.value == Reviews(refs2, env, LineKeys(ImportRead(a, env, inputs, draws).value))
    ensures ImportCall(c, c, env, inputs, draws2, refs2, expected2) == Ok((c, 0))
  {
    hide IdsHold, KeysUnique, Readable, ReadLine, Landed, RowByKey, Next, ReviewKey, ValidateKey, ReviewAllows;
    var lines := ImportRead(a, env, inputs, draws).value;
    ReadGivesLines(a, env, inputs, draws, {});
    forall i | 0 <= i < |inputs|
      ensures ReadLine(c, env, inputs[i], draws2[i]).Ok?
      ensures SameEntry(c, env, ReadLine(c, env, inputs[i], draws2[i]).value, lines[i])
    {
      var id :| Landed(c, env, inputs[i], lines[i].direct.write, id);
      LandedKey(c, env, inputs[i], lines[i].direct.write, id);
      LineAgain(a, c, env, inputs[i], draws[i], id, draws2[i]);
    }
    LinesAgain(a, c, env, inputs, draws, draws2, {});
    var lines2 := ImportRead(c, env, inputs, draws2).value;
    assert forall i :: 0 <= i < |lines2| ==> SameEntry(c, env, lines2[i], lines[i]);
    CommitAgain(c, env, lines, lines2, refs2, expected2);
  }

  /** An entry read again: unchanged, current, and with the same key and metadata. */
  predicate SameEntry(c: Db, env: Id, line2: Line, line: Line) {
    && line2.same && line2.snapshot == ActiveRow(c, env, line2.direct.write.key)
    && line2.direct.write.key == line.direct.write.key && line2.direct.write.meta == line.direct.write.meta
    && env in c.active && line2.direct.write.sealed.dek == c.active[env]
  }

  lemma LandedKey(c: Db, env: Id, input: Input, w: VersionWrite, id: Id)
    requires IdsHold(c) && KeysUnique(c) && Landed(c, env, input, w, id) && ValidateKey(input.key) == Some(w.key) && Trim(input.key) == input.key
    ensures RowByKey(c, env, input.key) == Some(c.vars[id])
  {
    hide IdsHold, KeysUnique, RowByKey, ValidateKey;
    KeyOf(input.key, w.key);
    RowIs(c, env, id);
  }

  lemma CommitAgain(c: Db, env: Id, lines: seq<Line>, lines2: seq<Line>, refs2: seq<Reference>, expected2: Option<seq<Review>>)
    requires |lines2| == |lines| && lines != [] && env in c.envs && !c.envs[env].archived && !c.envs[env].serviceArchived
    requires forall i :: 0 <= i < |lines| ==> SameEntry(c, env, lines2[i], lines[i])
    requires forall i :: 0 <= i < |lines| ==> ReviewAllows(ReviewKey(refs2, env, lines[i].direct.write.key), lines[i].direct.write)
    requires expected2.None? || expected2.value == Reviews(refs2, env, LineKeys(lines))
    ensures ImportCommit(c, env, lines2, refs2, expected2) == Ok((c, 0))
  {
    hide ReviewKey, ActiveRow;
    assert forall i :: 0 <= i < |lines2| ==> lines2[i].same && LineCurrent(c, env, lines2[i]);
    NothingChanges(lines2);
    assert LineKeys(lines2) == LineKeys(lines);
    var reviews := Reviews(refs2, env, LineKeys(lines));
    assert ReviewsAllow(reviews, lines2);
    assert env in c.active by { assert SameEntry(c, env, lines2[0], lines[0]); }
  }

  /** One entry of the imported state. */
  lemma EntryImported(
    b: Db, c: Db, env: Id, input: Input, lines: seq<Line>, i: nat, id: Id,
    refs: seq<Reference>, expected: Option<seq<Review>>, refs2: seq<Reference>)
    requires IdsHold(b) && Ready(b, env, lines) && KeysUnique(c) && NoNewlyOpen(b, c) && env in b.envs
    requires ImportCommit(b, env, lines, refs, expected).Ok? && c == ImportCommit(b, env, lines, refs, expected).value.0
    requires IsReferenceList(b, b.envs[env].service, refs) && IsReferenceList(c, b.envs[env].service, refs2)
    requires i < |lines| && Landed(c, env, input, lines[i].direct.write, id)
    ensures ReviewAllows(ReviewKey(refs2, env, lines[i].direct.write.key), lines[i].direct.write)
  {
    hide ImportCommit, IsReferenceList, Landed, ReviewKey, ReviewAllows, IdsHold, KeysUnique, Ready, NoNewlyOpen, PersistDirects, LineCurrent;
    CommitParts(b, env, lines, refs, expected);
    var w := lines[i].direct.write;
    assert c.envs == b.envs by { SameEnvironments(b, c); }
    LandedInUse(c, env, input, w, id);
    forall x | InUse(c, b.envs[env].service, x) && c.vars[x].key == w.key ensures c.vars[x].meta.visibility == w.meta.visibility {
      VisibilityOfLine(b, c, env, lines, refs, expected, i, x);
    }
    assert ReviewAllows(ReviewKey(refs, env, w.key), w) by { LineAllowed(refs, env, lines, i); }
    ReviewAgain(b, c, b.envs[env].service, refs, refs2, env, w, id);
  }

  lemma SameEnvironments(b: Db, c: Db)
    requires NoNewlyOpen(b, c)
    ensures c.envs == b.envs
  {
    hide IsOpen;
  }

  lemma LineAllowed(refs: seq<Reference>, env: Id, lines: seq<Line>, i: nat)
    requires ReviewsAllow(Reviews(refs, env, LineKeys(lines)), lines) && i < |lines|
    ensures ReviewAllows(ReviewKey(refs, env, lines[i].direct.write.key), lines[i].direct.write)
  {
    hide ReviewKey, ReviewAllows;
  }

  lemma ImportLeavesImported(
    a: Db, b: Db, env: Id, inputs: seq<Input>, draws: seq<Draw>, refs: seq<Reference>, expected: Option<seq<Review>>, refs2: seq<Reference>)
    requires |inputs| == |draws| && Inv(a) && Inv(b) && Grows(a, b) && ImportRead(a, env, inputs, draws).Ok? && env in b.envs
    requires ImportCommit(b, env, ImportRead(a, env, inputs, draws).value, refs, expected).Ok?
    requires IsReferenceList(b, b.envs[env].service, refs)
    requires IsReferenceList(ImportCommit(b, env, ImportRead(a, env, inputs, draws).value, refs, expected).value.0, b.envs[env].service, refs2)
    ensures var lines := ImportRead(a, env, inputs, draws).value;
            Imported(ImportCommit(b, env, lines, refs, expected).value.0, env, inputs, lines, refs2)
  {
    hide Inv, Grows, ImportRead, ImportCommit, IsReferenceList, ReadLine, Landed, ReviewKey, ReviewAllows, ValidateKey, LineFits;
    hide IdsHold, KeysUnique, HistoryComplete, StatusesHold, ItemsHold, Readable, NoNewlyOpen, PersistDirects, LineCurrent, Ready;
    InvIds(a);
    InvIds(b);
    var lines := ImportRead(a, env, inputs, draws).value;
    var c := ImportCommit(b, env, lines, refs, expected).value.0;
    ReadIsReady(a, b, env, inputs, draws);
    CommitParts(b, env, lines, refs, expected);
    ImportIsAStep(a, b, env, inputs, draws, refs, expected);
    InvIds(c);
    DirectsOpenNothing(b, Changed(lines));
    SameOpen(b, PersistDirects(b, Changed(lines)).value, c);
    SameEnvironments(b, c);
    assert LineKeysDiffer(lines) && |lines| == |inputs|;
    forall i | 0 <= i < |lines|
      ensures ValidateKey(inputs[i].key) == Some(lines[i].direct.write.key)
      ensures HasLanded(c, env, inputs[i], lines[i].direct.write)
      ensures ReviewAllows(ReviewKey(refs2, env, lines[i].direct.write.key), lines[i].direct.write)
    {
      KeyOfLine(a, env, inputs[i], draws[i], lines[i]);
      var id := EntryLanded(a, b, env, inputs, draws, lines, refs, expected, i);
      EntryImported(b, c, env, inputs[i], lines, i, id, refs, expected, refs2);
    }
  }

  lemma KeyOfLine(db: Db, env: Id, input: Input, draw: Draw, line: Line)
    requires IdsHold(db) && ReadLine(db, env, input, draw) == Ok(line)
    ensures ValidateKey(input.key) == Some(line.direct.write.key)
  {
    hide ReadLine, IdsHold, ValidateKey, LineFits, Tracks, WriteShaped, PrepareDirect, ActiveRow, IsUnchanged;
    LineParts(db, env, input, draw);
  }

  lemma SameOpen(a: Db, b: Db, c: Db)
    requires NoNewlyOpen(a, b) && c == b.(audit := c.audit)
    ensures NoNewlyOpen(a, c)
  {
  }

  lemma LandedInUse(c: Db, env: Id, input: Input, w: VersionWrite, id: Id)
    requires Landed(c, env, input, w, id) && env in c.envs && !c.envs[env].archived
    ensures InUse(c, c.envs[env].service, id) && c.vars[id].key == w.key
  {
  }

  /** The keys of a parsed text stand for themselves, so its import can be repeated. */
  lemma ParsedKeysStand(text: string, i: nat)
    requires i < |Dotenv.Parse(text).entries|
    ensures var key := Dotenv.Parse(text).entries[i].key; Dotenv.ValidKey(key) && Trim(key) == key
  {
    hide Dotenv.Parse;
    DotenvExact.ReadingIsGood(text);
    assert DotenvExact.GoodEntry(Dotenv.Parse(text).entries[i]);
    DotenvRoundTrip.KeyText(Dotenv.Parse(text).entries[i].key);
  }

  /**
   * Repeating a successful import with no write in between returns 0 and leaves the database as it is,
   * exactly when every key stands for itself; a key with white space around it makes the repetition fail.
   */
  lemma RepeatedImport(
    a: Db, ops: seq<Op>, b: Db, c: Db, changed: nat, env: Id, inputs: seq<Input>, draws: seq<Draw>, lines: seq<Line>,
    refs: seq<Reference>, expected: Option<seq<Review>>, draws2: seq<Draw>, refs2: seq<Reference>, expected2: Option<seq<Review>>)
    requires |inputs| == |draws| == |draws2| && Inv(a) && ImportRead(a, env, inputs, draws) == Ok(lines)
    requires b == Run(a, ops) && env in b.envs && IsReferenceList(b, b.envs[env].service, refs)
    requires ImportCall(a, b, env, inputs, draws, refs, expected) == Ok((c, changed))
    requires IsReferenceList(c, b.envs[env].service, refs2)
    requires expected2.None? || expected2.value == Reviews(refs2, env, LineKeys(lines))
    ensures Repeatable(c, env, inputs) ==> ImportCall(c, c, env, inputs, draws2, refs2, expected2) == Ok((c, 0))
    ensures !Repeatable(c, env, inputs) ==> ImportCall(c, c, env, inputs, draws2, refs2, expected2).Err?
  {
    hide Inv, Grows, Run, ImportRead, ImportCommit, IsReferenceList, Repeatable, Imported, Reviews;
    hide IdsHold, KeysUnique, HistoryComplete, StatusesHold, ItemsHold, Readable;
    EveryRun(a, ops);
    InvIds(a);
    ImportIsAStep(a, b, env, inputs, draws, refs, expected);
    InvIds(c);
    ImportLeavesImported(a, b, env, inputs, draws, refs, expected, refs2);
    if Repeatable(c, env, inputs) {
      RepetitionChangesNothing(a, c, env, inputs, draws, draws2, refs2, expected2);
    } else {
      NotRepeatable(c, env, inputs, lines, draws2, refs2, expected2);
    }
  }

  lemma NotRepeatable(
    c: Db, env: Id, inputs: seq<Input>, lines: seq<Line>, draws2: seq<Draw>, refs2: seq<Reference>, expected2: Option<seq<Review>>)
    requires |inputs| == |draws2| && IdsHold(c) && KeysUnique(c) && Imported(c, env, inputs, lines, refs2) && !Repeatable(c, env, inputs)
    ensures ImportCall(c, c, env, inputs, draws2, refs2, expected2).Err?
  {
    hide IdsHold, KeysUnique, ImportCall, RowByKey, Next, ReviewKey, ReviewAllows, ValidateKey, TrimMatches, Landed;
    if !Trimmed(inputs) {
      var i :| 0 <= i < |inputs| && Trim(inputs[i].key) != inputs[i].key;
      var id :| Landed(c, env, inputs[i], lines[i].direct.write, id);
      KeyOf(inputs[i].key, lines[i].direct.write.key);
      LandedRow(c, env, inputs[i], lines[i].direct.write, id);
      UntrimmedFails(c, env, inputs, draws2, refs2, expected2, i, id);
    } else {
      var i :| 0 <= i < |inputs| && RowByKey(c, env, inputs[i].key).Some? && Next(RowByKey(c, env, inputs[i].key).value.version).None?;
      NoNextFails(c, env, inputs, draws2, refs2, expected2, i);
    }
  }

  lemma LandedRow(c: Db, env: Id, input: Input, w: VersionWrite, id: Id)
    requires Landed(c, env, input, w, id)
    ensures id in c.vars && c.vars[id].env == env && c.vars[id].key == w.key && c.vars[id].lifecycle == ACTIVE
  {
  }
}
