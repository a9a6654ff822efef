/** A key with white space around it: its import succeeds once and fails when it is repeated. */
module ImportSpaced {
  import opened Text
  import opened Bytes
  import opened Crypto
  import Dotenv
  import opened Model
  import opened Fingerprint
  import opened Store
  import opened StoreProofs
  import opened StoreRuns
  import opened Import
  import opened ImportProofs
  import opened ImportRepeat

  /** One environment with its first key, and no variable. */
  function Fresh(env: Id, service: Id, key: Key): Db {
    Db(map[env := Environment(service, false, false)], map[(env, 1) := DekRow(key, false)], map[env := 1], map[], map[], map[], map[], [])
  }

  const SPACED := Input(" A", "1", true, Restricted, PlainString, None, None, 0)

  lemma FreshHolds(env: Id, service: Id, key: Key)
    ensures Inv(Fresh(env, service, key)) && IsReferenceList(Fresh(env, service, key), service, [])
    ensures CurrentRows(Fresh(env, service, key), env) == []
  {
    hide OrderedIds;
    var db := Fresh(env, service, key);
    RowsAreVariablesOf(db, env);
  }

  lemma RowsAreVariablesOf(db: Db, env: Id)
    requires db.vars == map[]
    ensures CurrentRows(db, env) == []
  {
    EnvironmentIds(db, env);
    assert EnvironmentKeys(db, env) == map[];
  }

  lemma SpacedKey()
    ensures ValidateKey(" A") == Some("A") && Trim(" A") == "A" && Utf8Len("1") == 1
  {
    assert TrimMatches(" A", IsWhite) == "A" by {
      assert SkipFrom(" A", IsWhite, 1) == 1;
      assert SkipFrom(" A", IsWhite, 0) == 1;
      assert DropWhile(" A", IsWhite) == "A";
      assert SkipBack("A", IsWhite, 1) == 1;
    }
    assert Dotenv.ValidKey("A");
  }

  /** The draw of the variable, the request and the item; the line that the read prepares. */
  function SpacedLine(env: Id, service: Id, key: Key, draw: Draw): Line {
    var meta := Meta(Restricted, PlainString, None, None, 0);
    Line(DirectOf(service, env, "A", (draw.variable, 1, ADD, None, ACTIVE), meta, "1", 1, key, draw), None, false)
  }

  lemma SpacedRead(env: Id, service: Id, key: Key, draw: Draw)
    ensures ImportRead(Fresh(env, service, key), env, [SPACED], [draw]) == Ok([SpacedLine(env, service, key, draw)])
  {
    hide CurrentRows, Trim, DirectOf, Dotenv.ValidKey;
    var db := Fresh(env, service, key);
    FreshHolds(env, service, key);
    SpacedKey();
    assert RowByKey(db, env, "A").None? && RowByKey(db, env, " A").None?;
    assert InputMeta(db, env, None, SPACED) == Some(Meta(Restricted, PlainString, None, None, 0));
    assert PrepareDirect(db, env, SPACED, draw) == Ok(SpacedLine(env, service, key, draw).direct);
    assert ReadLine(db, env, SPACED, draw) == Ok(SpacedLine(env, service, key, draw));
    assert [SPACED][1..] == [] && [draw][1..] == [];
    assert ReadLines(db, env, [], [], {} + {"A"}) == Ok([]);
    var lines := [SpacedLine(env, service, key, draw)];
    assert lines + [] == lines;
    assert ReadLines(db, env, [SPACED], [draw], {}) == Ok(lines + []);
  }

  lemma SpacedCommit(env: Id, service: Id, key: Key, draw: Draw)
    ensures var r := ImportCommit(Fresh(env, service, key), env, [SpacedLine(env, service, key, draw)], [], None);
            r.Ok? && r.value.1 == 1
  {
    hide CurrentRows;
    var db := Fresh(env, service, key);
    var line := SpacedLine(env, service, key, draw);
    FreshHolds(env, service, key);
    assert ReviewAllows(ReviewKey([], env, "A"), line.direct.write);
    assert LineCurrent(db, env, line);
    assert [line][1..] == [] && Changed([]) == [];
    assert Changed([line]) == [line.direct];
    assert [line.direct][1..] == [];
    SpacedPersists(env, service, key, draw);
    var after := PersistDirect(db, line.direct).value;
    assert PersistDirects(after, []) == Ok(after);
  }

  lemma SpacedPersists(env: Id, service: Id, key: Key, draw: Draw)
    ensures PersistDirect(Fresh(env, service, key), SpacedLine(env, service, key, draw).direct).Ok?
  {
    var db, d := Fresh(env, service, key), SpacedLine(env, service, key, draw).direct;
    var item := DirectItem(d);
    assert [item][1..] == [];
    var db1 := db.(requests := db.requests[d.write.request := DirectRequest(d.write)]);
    assert ItemInsertable(db1, item);
    var db2 := db1.(items := db1.items[item.id := item]);
    assert InsertItems(db2, []) == Some(db2);
    assert InsertItems(db1, [item]) == Some(db2);
    assert WriteVersion(db2, d.write).Some?;
  }

  /**
   * Into an environment without variables, importing the key " A" succeeds and writes one variable, and
   * the same import again, with nothing in between, fails.
   */
  lemma SpacedKeyFails(env: Id, service: Id, key: Key, draw: Draw, draw2: Draw, refs2: seq<Reference>)
    ensures var db := Fresh(env, service, key);
      && ImportCall(db, db, env, [SPACED], [draw], [], None).Ok?
      && var (c, changed) := ImportCall(db, db, env, [SPACED], [draw], [], None).value;
      && changed == 1
      && (IsReferenceList(c, service, refs2) ==> ImportCall(c, c, env, [SPACED], [draw2], refs2, None).Err?)
  {
    hide Inv, ImportRead, ImportCommit, IsReferenceList, RowByKey, Reviews, ImportCall, SpacedLine, Trim;
    var db := Fresh(env, service, key);
    FreshHolds(env, service, key);
    SpacedRead(env, service, key, draw);
    SpacedCommit(env, service, key, draw);
    SpacedKey();
    var lines := [SpacedLine(env, service, key, draw)];
    CallOf(db, db, env, [SPACED], [draw], [], None, lines);
    var (c, changed) := ImportCall(db, db, env, [SPACED], [draw], [], None).value;
    if IsReferenceList(c, service, refs2) {
      assert Run(db, []) == db;
      assert Trim([SPACED][0].key) != [SPACED][0].key;
      assert !Repeatable(c, env, [SPACED]);
      RepeatedImport(db, [], db, c, changed, env, [SPACED], [draw], lines, [], None, [draw2], refs2, None);
    }
  }

  lemma CallOf(
    a: Db, b: Db, env: Id, inputs: seq<Input>, draws: seq<Draw>, refs: seq<Reference>, expected: Option<seq<Review>>, lines: seq<Line>)
    requires |inputs| == |draws| && ImportRead(a, env, inputs, draws) == Ok(lines)
    ensures ImportCall(a, b, env, inputs, draws, refs, expected) == ImportCommit(b, env, lines, refs, expected)
  {
    hide ImportRead, ImportCommit;
  }
}
