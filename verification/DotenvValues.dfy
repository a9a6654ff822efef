/** What a value in the text means: exactly which writings of a line are read as which value. */
module DotenvValues {
  import opened Text
  import opened Bytes
  import opened Dotenv
  import DotenvRender
  import opened DotenvRoundTrip
  import opened DotenvScanner

  // ----- writings of a value

  /** The letter after a backslash, and the character that the pair stands for. */
  predicate StandsFor(letter: char, c: char) {
    || (letter == 'n' && c == '\n')
    || (letter == 'r' && c == '\r')
    || (letter == 't' && c == '\t')
    || (letter == '\\' && c == '\\')
    || (letter == '"' && c == '"')
  }

  /** `s` writes `v` between double quotes: each character itself, or as a pair that stands for it. */
  predicate Spells(s: string, v: string) {
    if s == "" then v == ""
    else if s[0] == '\\' then |s| >= 2 && v != "" && StandsFor(s[1], v[0]) && Spells(s[2..], v[1..])
    else s[0] != '"' && v != "" && v[0] == s[0] && Spells(s[1..], v[1..])
  }

  predicate Bare(v: string) {
    v != "" ==> v[0] != '"' && v[0] != '\'' && !IsWhite(v[0]) && !IsWhite(v[|v| - 1])
  }

  /** The value without quotes, or unchanged between single quotes, or spelled between double quotes. */
  predicate Writes(body: string, v: string) {
    || (body == v && Bare(v))
    || (body == "'" + v + "'" && '\'' !in v)
    || (|body| >= 2 && body[0] == '"' && body[|body| - 1] == '"' && Spells(body[1..|body| - 1], v))
  }

  /** A writing of the value with white space around it. */
  predicate ReadsAs(raw: string, v: string) {
    exists i, j :: 0 <= i <= j <= |raw| && Surrounded(raw, i, j) && Writes(raw[i..j], v)
  }

  predicate Surrounded(raw: string, i: nat, j: nat)
    requires i <= j <= |raw|
  {
    forall k :: 0 <= k < |raw| && (k < i || j <= k) ==> IsWhite(raw[k])
  }

  // ----- double quotes

  lemma {:induction false} DecodedSpells(s: string, v: string) returns (k: nat)
    requires DecodeDouble(s, false) == Ok(v)
    ensures k < |s| && s[k] == '"' && Spells(s[..k], v) && AllWhite(s[k + 1..])
  {
    if s[0] == '\\' {
      assert s[1..][1..] == s[2..];
      k := DecodedSpells(s[2..], v[1..]);
      k := k + 2;
      assert s[..k][2..] == s[2..][..k - 2] && s[k + 1..] == s[2..][k - 1..];
    } else if s[0] == '"' {
      k := 0;
      TrimAllWhite(s[1..], IsWhite);
    } else {
      k := DecodedSpells(s[1..], v[1..]);
      k := k + 1;
      assert s[..k][1..] == s[1..][..k - 1] && s[k + 1..] == s[1..][k..];
    }
  }

  lemma {:induction false} SpelledDecodes(s: string, k: nat, v: string)
    requires k < |s| && s[k] == '"' && Spells(s[..k], v) && AllWhite(s[k + 1..])
    ensures DecodeDouble(s, false) == Ok(v)
    decreases |s|
  {
    hide DecodeDouble, Spells, AllWhite;
    if k == 0 {
      EndStep(s, v);
    } else if s[0] == '\\' {
      EscapedStep(s, k, v);
      SpelledDecodes(s[2..], k - 2, v[1..]);
    } else {
      PlainStep(s, k, v);
      SpelledDecodes(s[1..], k - 1, v[1..]);
    }
  }

  lemma EndStep(s: string, v: string)
    requires s != "" && s[0] == '"' && Spells(s[..0], v) && AllWhite(s[1..])
    ensures DecodeDouble(s, false) == Ok(v)
  {
    TrimAllWhite(s[1..], IsWhite);
  }

  lemma EscapedStep(s: string, k: nat, v: string)
    requires 0 < k < |s| && s[0] == '\\' && Spells(s[..k], v)
    ensures k >= 2 && v != "" && Spells(s[2..][..k - 2], v[1..]) && s[k + 1..] == s[2..][k - 1..]
    ensures DecodeDouble(s, false) == Prepend(v[0], DecodeDouble(s[2..], false)) && [v[0]] + v[1..] == v
  {
    hide Trim;
    assert s[..k][0] == s[0] && |s[..k]| >= 2;
    assert s[1..][1..] == s[2..] && s[..k][2..] == s[2..][..k - 2];
  }

  lemma PlainStep(s: string, k: nat, v: string)
    requires 0 < k < |s| && s[0] != '\\' && Spells(s[..k], v)
    ensures v != "" && Spells(s[1..][..k - 1], v[1..]) && s[k + 1..] == s[1..][k..]
    ensures DecodeDouble(s, false) == Prepend(v[0], DecodeDouble(s[1..], false)) && [v[0]] + v[1..] == v
  {
    hide Trim;
    assert s[..k][1..] == s[1..][..k - 1];
  }

  // ----- one value

  /** What trimming cuts off, and that it stops. */
  lemma MatchParts(s: string, p: char -> bool) returns (i: nat, j: nat)
    ensures i <= j <= |s| && TrimMatches(s, p) == s[i..j]
    ensures forall k :: 0 <= k < |s| && (k < i || j <= k) ==> p(s[k])
    ensures i < j ==> !p(s[i]) && !p(s[j - 1])
  {
    var a := DropWhile(s, p);
    SkipFromStops(s, p, 0);
    SkipBackStops(a, p, |a|);
    i := SkipFrom(s, p, 0);
    j := i + SkipBack(a, p, |a|);
    assert forall k :: i <= k < |s| ==> s[k] == a[k - i];
    assert s[i..j] == a[..j - i];
  }

  lemma TrimParts(raw: string) returns (i: nat, j: nat)
    ensures i <= j <= |raw| && Surrounded(raw, i, j) && Trim(raw) == raw[i..j]
    ensures i < j ==> !IsWhite(raw[i]) && !IsWhite(raw[j - 1])
  {
    hide TrimMatches;
    i, j := MatchParts(raw, IsWhite);
    TrimIsTrimMatches(raw);
  }

  lemma TrimUnique(raw: string, i: nat, j: nat)
    requires i <= j <= |raw| && Surrounded(raw, i, j)
    requires i < j ==> !IsWhite(raw[i]) && !IsWhite(raw[j - 1])
    ensures Trim(raw) == raw[i..j]
  {
    var m, n := TrimParts(raw);
    if i < j {
      assert raw[i] != raw[j - 1] || raw[i] == raw[j - 1];
    }
  }

  lemma BodyOfValue(body: string, v: string)
    requires body != "" ==> !IsWhite(body[0]) && !IsWhite(body[|body| - 1])
    ensures ParseValue(body) == Ok(v) <==> Writes(body, v)
  {
    if "\"" <= body {
      DoubleBody(body, v);
    } else if "'" <= body {
      SingleBody(body, v);
    }
  }

  lemma LastIsKept(s: string, n: nat)
    requires n <= |s| && AllWhite(s[n..]) && s != "" && !IsWhite(s[|s| - 1])
    ensures n == |s|
  {
    WhiteFrom(s, n);
  }

  lemma WhiteFrom(s: string, n: nat)
    requires n <= |s| && AllWhite(s[n..])
    ensures forall k :: n <= k < |s| ==> IsWhite(s[k])
  {
    forall k | n <= k < |s| ensures IsWhite(s[k]) { assert s[n..][k - n] == s[k]; }
  }

  lemma DoubleBody(body: string, v: string)
    requires "\"" <= body && !IsWhite(body[|body| - 1])
    ensures DecodeDouble(body[1..], false) == Ok(v) <==> Writes(body, v)
  {
    hide DecodeDouble, Spells;
    var s := body[1..];
    if DecodeDouble(s, false) == Ok(v) {
      var k := DecodedSpells(s, v);
      LastIsKept(s, k + 1);
      assert body[1..|body| - 1] == s[..k];
    }
    if Writes(body, v) {
      assert |body| >= 2 && body[|body| - 1] == '"' && Spells(body[1..|body| - 1], v);
      var k := |s| - 1;
      assert s[..k] == body[1..|body| - 1] && s[k + 1..] == "";
      SpelledDecodes(s, k, v);
    }
  }

  lemma SingleBody(body: string, v: string)
    requires "'" <= body && !IsWhite(body[|body| - 1])
    ensures DecodeSingle(body[1..]) == Ok(v) <==> Writes(body, v)
  {
    hide Spells, Trim;
    var s := body[1..];
    var end := Find(s, '\'');
    FindFromFirst(s, '\'', 0);
    if DecodeSingle(s) == Ok(v) {
      TrimAllWhite(s[end + 1..], IsWhite);
      assert Trim(s[end + 1..]) == TrimMatches(s[end + 1..], IsWhite) by { TrimIsTrimMatches(s[end + 1..]); }
      LastIsKept(s, end + 1);
      assert body == "'" + v + "'";
    }
    if Writes(body, v) {
      SingleQuoted(body, v);
    }
  }

  lemma SingleQuoted(body: string, v: string)
    requires body == "'" + v + "'" && '\'' !in v
    ensures DecodeSingle(body[1..]) == Ok(v)
  {
    hide Trim;
    var s := body[1..];
    assert s == v + ['\''] + "";
    FindAfter(v, '\'', "");
    assert s[|v| + 1..] == "" && s[..|v|] == v;
    TrimFixed("", IsWhite);
    assert Trim("") == "" by { TrimIsTrimMatches(""); }
  }

  /** The trimmed text after the equals sign is read as `v` exactly when it writes `v`. */
  lemma ValueExactly(raw: string, v: string)
    ensures ParseValue(Trim(raw)) == Ok(v) <==> ReadsAs(raw, v)
  {
    hide ParseValue, Trim, Writes, Spells, Surrounded;
    var i, j := TrimParts(raw);
    BodyOfValue(raw[i..j], v);
    if ReadsAs(raw, v) {
      var m, n :| 0 <= m <= n <= |raw| && Surrounded(raw, m, n) && Writes(raw[m..n], v);
      if m < n { WritingEnds(raw[m..n], v); }
      TrimUnique(raw, m, n);
      BodyOfValue(raw[m..n], v);
    }
  }

  lemma WritingEnds(body: string, v: string)
    requires Writes(body, v) && body != ""
    ensures !IsWhite(body[0]) && !IsWhite(body[|body| - 1])
  {
    hide Spells;
  }

  // ----- one line

  lemma AssignmentOf(key: string, raw: string)
    requires ValidKey(key)
    ensures ParseAssignment(key + "=" + raw) ==
            match ParseValue(Trim(raw))
            case Err(m) => Err(m)
            case Ok(value) => if Utf8Len(value) > MAX_VALUE_BYTES then Err(ValueTooLong) else Ok(Entry(key, value, None, 0))
  {
    hide ParseValue, Trim, StripExport, Find, Utf8Len, ValidateKeySyntax;
    NoExport(key, raw);
    KeyText(key);
  }

  lemma NotRefused(key: string, raw: string)
    requires ValidKey(key)
    ensures ReadOpening(key + "=" + raw) == Complete(key + "=" + raw)
            || exists q :: ReadOpening(key + "=" + raw) == Open(key + "=" + raw, q)
  {
    hide Closes, StripExport, Find, Trim, TrimStart, ValidateKeySyntax;
    NoExport(key, raw);
    KeyText(key);
  }

  lemma LastLineIs(key: string, raw: string)
    requires ValidKey(key)
    ensures ParseMultiline(key + "=" + raw, []) == (ParseAssignment(key + "=" + raw), 0)
  {
    hide ReadOpening, ParseAssignment, ValidKey;
    NotRefused(key, raw);
  }

  lemma OneLine(text: string)
    requires NL !in text && text != ""
    ensures Lines(text) == [text]
  {
    SplitPlain(text);
  }

  /** What a text of one assignment line is read as. */
  lemma SingleLine(text: string, line: string)
    requires Lines(text) == [text] && Classify(text, 0) == AssignmentLine(line) && Utf8Len(text) <= MAX_INPUT_BYTES
    ensures Parse(text) == if '\0' in text then ParseReport([], [ParseIssue(0, NulByte)]) else Report(Record(START, 1, ParseMultiline(line, []).0))
  {
    hide Classify, Lines, Utf8Len, ParseMultiline, Record, Report;
    var st := Record(START, 1, ParseMultiline(line, []).0);
    assert [text][1..] == [];
    assert ReadTurn([text], 0, START) == Turn(st, 1, false);
    assert ParseLines([text], 0, START) == ParseLines([], 1, st) == st;
  }

  /**
   * A text of one assignment with a valid key is read as the value `v`, without an issue, exactly when
   * what follows the equals sign writes `v` and all limits are kept.
   */
  lemma OneLineExactly(key: string, raw: string, v: string)
    requires ValidKey(key) && NL !in raw
    ensures Parse(key + "=" + raw) == ParseReport([Entry(key, v, None, 0)], []) <==>
              ReadsAs(raw, v) && Utf8Len(v) <= MAX_VALUE_BYTES
              && '\0' !in raw && Utf8Len(key + "=" + raw) <= MAX_INPUT_BYTES
  {
    hide ValidKey, ReadsAs, Utf8Len, ParseValue, ParseMultiline, ParseAssignment, Classify, Lines, Trim, Parse, Report, Record;
    var text := key + "=" + raw;
    KeyText(key);
    NoNulKey(key);
    OneLine(text);
    KeyedLine(key, raw, 0);
    LastLineIs(key, raw);
    AssignmentOf(key, raw);
    ValueExactly(raw, v);
    assert '\0' in text <==> '\0' in raw;
    if Utf8Len(text) <= MAX_INPUT_BYTES {
      SingleLine(text, text);
      ReportOf(ParseAssignment(text), key, v);
    } else {
      TooLong(text);
    }
  }

  /** What the report of one assignment says of it. */
  lemma ReportOf(result: Result<Entry>, key: string, v: string)
    requires result.Ok? ==> result.value.group.None? && result.value.position == 0
    ensures Report(Record(START, 1, result)) == ParseReport([Entry(key, v, None, 0)], []) <==> result == Ok(Entry(key, v, None, 0))
  {
    if result.Ok? {
      var entries := Record(START, 1, result).entries;
      assert entries == [result.value];
      if entries == [Entry(key, v, None, 0)] { assert entries[0] == Entry(key, v, None, 0); }
    }
  }

  lemma TooLong(text: string)
    requires Utf8Len(text) > MAX_INPUT_BYTES
    ensures Parse(text).entries == []
  {
    hide Utf8Len, Lines;
  }

  lemma NoNulKey(key: string)
    requires ValidKey(key)
    ensures '\0' !in key
  {
    forall c | c in key ensures IsKeyChar(c) {
      var i :| 0 <= i < |key| && key[i] == c;
    }
  }

  // ----- many lines

  /** A line `key=raw`, and the value that its text writes. */
  datatype Line = Line(key: string, raw: string, value: string)

  predicate Good(l: Line) {
    ValidKey(l.key) && NL !in l.raw && '\0' !in l.raw && ReadsAs(l.raw, l.value) && Utf8Len(l.value) <= MAX_VALUE_BYTES
  }

  function Texts(ls: seq<Line>): (r: seq<string>)
    ensures |r| == |ls| && forall i :: 0 <= i < |ls| ==> r[i] == ls[i].key + "=" + ls[i].raw
  {
    seq(|ls|, i requires 0 <= i < |ls| => ls[i].key + "=" + ls[i].raw)
  }

  /** No earlier line has the key. */
  predicate First(ls: seq<Line>, i: nat)
    requires i < |ls|
  {
    forall j :: 0 <= j < i ==> ls[j].key != ls[i].key
  }

  /** Entries are the first uses of their keys, numbered from zero; every later use is an issue at its line. */
  function Firsts(ls: seq<Line>, n: nat): ParseReport
    requires n <= |ls|
  {
    if n == 0 then ParseReport([], [])
    else
      var r := Firsts(ls, n - 1);
      var l := ls[n - 1];
      if First(ls, n - 1) then r.(entries := r.entries + [Entry(l.key, l.value, None, |r.entries|)])
      else r.(issues := r.issues + [ParseIssue(n, DuplicateKey)])
  }

  lemma {:induction false} SpelledCloses(s: string, k: nat, v: string)
    requires k < |s| && s[k] == '"' && Spells(s[..k], v)
    ensures Closes(s, '"', false)
    decreases |s|
  {
    if k > 0 {
      if s[0] == '\\' {
        assert s[1..][1..] == s[2..] && s[..k][2..] == s[2..][..k - 2];
        SpelledCloses(s[2..], k - 2, v[1..]);
      } else {
        assert s[..k][1..] == s[1..][..k - 1];
        SpelledCloses(s[1..], k - 1, v[1..]);
      }
    }
  }

  lemma {:induction false} ApostropheCloses(s: string, k: nat)
    requires k < |s| && s[k] == '\''
    ensures Closes(s, '\'', false)
  {
    if s[0] != '\'' { ApostropheCloses(s[1..], k - 1); }
  }

  /** A writing of a value ends on its line, so the line is an assignment of its own. */
  lemma WrittenIsComplete(key: string, raw: string, v: string)
    requires ValidKey(key) && ReadsAs(raw, v)
    ensures ReadOpening(key + "=" + raw) == Complete(key + "=" + raw)
  {
    hide Closes, StripExport, Find, Trim, TrimStart, ValidateKeySyntax, ParseValue, ReadsAs;
    NoExport(key, raw);
    KeyText(key);
    ValueExactly(raw, v);
    ValueCloses(raw, v);
  }

  lemma ValueCloses(raw: string, v: string)
    requires ParseValue(Trim(raw)) == Ok(v)
    ensures var start := TrimStart(raw);
            start == "" || (start[0] != '"' && start[0] != '\'') || Closes(start[1..], start[0], false)
  {
    hide DecodeDouble, Closes, Spells;
    var start := TrimStart(raw);
    var i, j := TrimParts(raw);
    SkipFromStops(raw, IsWhite, 0);
    var body := Trim(raw);
    if start != "" && start[0] == '"' {
      assert i < j && body[0] == raw[i] by { StartsAt(raw, i, j); }
      var k := DecodedSpells(body[1..], v);
      assert start[1..][..k] == body[1..][..k] && start[1..][k] == body[1..][k];
      SpelledCloses(start[1..], k, v);
    } else if start != "" && start[0] == '\'' {
      assert i < j && body[0] == raw[i] by { StartsAt(raw, i, j); }
      var k := Find(body[1..], '\'');
      FindFromFirst(body[1..], '\'', 0);
      assert start[1..][k] == body[1..][k];
      ApostropheCloses(start[1..], k);
    }
  }

  lemma StartsAt(raw: string, i: nat, j: nat)
    requires i <= j <= |raw| && Surrounded(raw, i, j) && TrimStart(raw) != ""
    requires i < j ==> !IsWhite(raw[i]) && !IsWhite(raw[j - 1])
    ensures i < j && TrimStart(raw) == raw[i..]
  {
    SkipFromStops(raw, IsWhite, 0);
  }

  /** A carriage return before the line feed is white space after the value. */
  lemma WithoutCr(raw: string, v: string)
    requires ReadsAs(raw, v)
    ensures ReadsAs(DropCr(raw), v)
  {
    hide Writes;
    var i, j :| 0 <= i <= j <= |raw| && Surrounded(raw, i, j) && Writes(raw[i..j], v);
    var short := DropCr(raw);
    if short != raw {
      if i < j {
        WritingEnds(raw[i..j], v);
        assert j <= |short| && short[i..j] == raw[i..j];
        assert Surrounded(short, i, j);
      } else {
        assert short[0..0] == raw[i..j] && Surrounded(short, 0, 0);
      }
    }
  }

  lemma RecordOfLine(l: Line, rest: seq<string>)
    requires Good(l)
    ensures ParseMultiline(DropCr(l.key + "=" + l.raw), rest) == (Ok(Entry(l.key, l.value, None, 0)), 0)
    ensures DropCr(l.key + "=" + l.raw) == l.key + "=" + DropCr(l.raw)
  {
    hide ReadOpening, ParseAssignment, ValidKey, ReadsAs, ParseValue, Trim, Utf8Len;
    var raw := DropCr(l.raw);
    assert DropCr(l.key + "=" + l.raw) == l.key + "=" + raw;
    WithoutCr(l.raw, l.value);
    WrittenIsComplete(l.key, raw, l.value);
    AssignmentOf(l.key, raw);
    ValueExactly(raw, l.value);
    assert ParseAssignment(l.key + "=" + raw) == Ok(Entry(l.key, l.value, None, 0));
  }

  lemma {:induction false} FirstsKeys(ls: seq<Line>, n: nat)
    requires n <= |ls|
    ensures forall k :: k in Keys(Firsts(ls, n).entries) <==> exists j :: 0 <= j < n && ls[j].key == k
    ensures |Firsts(ls, n).entries| <= n
  {
    if n > 0 {
      FirstsKeys(ls, n - 1);
      var r, l := Firsts(ls, n - 1), ls[n - 1];
      var entries := Firsts(ls, n).entries;
      assert entries == r.entries || entries == r.entries + [Entry(l.key, l.value, None, |r.entries|)];
      forall k ensures k in Keys(entries) <==> k in Keys(r.entries) || k == l.key {
        if k in Keys(r.entries) { var e :| e in r.entries && e.key == k; assert e in entries; }
        if First(ls, n - 1) { assert entries[|r.entries|].key == l.key; assert entries[|r.entries|] in entries; }
      }
    }
  }

  /** One turn of the line loop. */
  lemma LineTurn(ls: seq<Line>, n: nat, rest: seq<string>, boundary: bool)
    requires n < |ls| <= MAX_ENTRIES && Good(ls[n]) && rest != [] && rest[0] == DropCr(ls[n].key + "=" + ls[n].raw)
    ensures var r, next := Firsts(ls, n), Firsts(ls, n + 1);
            ReadTurn(rest, n, ParseState(r.entries, r.issues, None, boundary)) ==
            Turn(ParseState(next.entries, next.issues, None, boundary && !First(ls, n)), 1, false)
  {
    hide Good, Classify, ParseMultiline, Keys, ValidKey;
    GoodLine(ls[n], n);
    RecordOfLine(ls[n], rest[1..]);
    FirstsKeys(ls, n);
  }

  lemma {:induction false} LinesRead(ls: seq<Line>, n: nat, boundary: bool)
    requires n <= |ls| <= MAX_ENTRIES && forall i :: 0 <= i < |ls| ==> Good(ls[i])
    ensures var r := Firsts(ls, n);
            var st := ParseLines(DropCrs(Texts(ls))[n..], n, ParseState(r.entries, r.issues, None, boundary));
            st.entries == Firsts(ls, |ls|).entries && st.issues == Firsts(ls, |ls|).issues
    decreases |ls| - n
  {
    hide Good, ReadTurn, Firsts, First;
    var rest := DropCrs(Texts(ls))[n..];
    if n < |ls| {
      LineTurn(ls, n, rest, boundary);
      assert rest[1..] == DropCrs(Texts(ls))[n + 1..];
      LinesRead(ls, n + 1, boundary && !First(ls, n));
    }
  }

  lemma GoodLine(l: Line, index: nat)
    requires Good(l)
    ensures ValidKey(l.key)
    ensures Classify(DropCr(l.key + "=" + l.raw), index) == AssignmentLine(DropCr(l.key + "=" + l.raw))
  {
    hide ValidKey, ReadsAs, Utf8Len, Classify;
    RecordOfLine(l, []);
    KeyedLine(l.key, DropCr(l.raw), index);
  }

  /**
   * A text of assignment lines, each of which writes a value, is read line by line: the first use of each
   * key becomes an entry with that value, every later one an issue with its line number.
   */
  lemma ManyLines(ls: seq<Line>)
    requires ls != [] && |ls| <= MAX_ENTRIES && forall i :: 0 <= i < |ls| ==> Good(ls[i])
    requires Utf8Len(Unlines(Texts(ls))) <= MAX_INPUT_BYTES
    ensures Parse(Unlines(Texts(ls))) == Firsts(ls, |ls|)
  {
    hide Good, ParseLines, Lines, Utf8Len, Unlines;
    var texts := Texts(ls);
    forall i | 0 <= i < |ls| ensures NL !in texts[i] && '\0' !in texts[i] { GoodCharacters(ls[i]); }
    NoNulText(texts);
    ClosedLines(texts);
    assert DropCrs(texts)[0..] == DropCrs(texts);
    LinesRead(ls, 0, true);
    FirstsKeys(ls, 1);
    NotNothing(ls, |ls|);
  }

  lemma GoodCharacters(l: Line)
    requires Good(l)
    ensures NL !in l.key + "=" + l.raw && '\0' !in l.key + "=" + l.raw
  {
    hide ReadsAs, Utf8Len, ValidKey;
    KeyText(l.key);
    NoNulKey(l.key);
  }

  lemma {:induction false} NoNulText(ls: seq<string>)
    requires forall i :: 0 <= i < |ls| ==> '\0' !in ls[i]
    ensures '\0' !in Unlines(ls)
  {
    if ls != [] { NoNulText(ls[1..]); }
  }

  lemma ClosedLines(ls: seq<string>)
    requires forall i :: 0 <= i < |ls| ==> NL !in ls[i]
    ensures Lines(Unlines(ls)) == DropCrs(ls)
  {
    hide Split, Unlines;
    SplitUnlines(ls);
    assert (ls + [""])[..|ls|] == ls;
  }

  lemma {:induction false} NotNothing(ls: seq<Line>, n: nat)
    requires n <= |ls|
    ensures |Firsts(ls, n).entries| + |Firsts(ls, n).issues| == n
  {
    if n > 0 { NotNothing(ls, n - 1); }
  }

  // ----- what is written

  /** The characters that need no quotes. */
  predicate Plain(c: char) {
    'a' <= c <= 'z' || 'A' <= c <= 'Z' || '0' <= c <= '9' || c in "_-./:@%+"
  }

  lemma {:induction false} EscapeSpells(v: string)
    ensures Spells(DotenvRender.Escape(v), v)
    ensures CR !in DotenvRender.Escape(v) && '\t' !in DotenvRender.Escape(v)
  {
    if v != "" {
      EscapeSpells(v[1..]);
      var e, rest := DotenvRender.EscapeChar(v[0]), DotenvRender.Escape(v[1..]);
      assert (e + rest)[|e|..] == rest;
    }
  }

  /**
   * A value is written so that it is read as itself: without quotes exactly when it has only plain characters,
   * and otherwise between double quotes with no carriage return or tab in the text.
   */
  lemma WrittenValue(v: string)
    ensures var text := DotenvRender.RenderValue(v);
      && Writes(text, v) && CR !in text && '\t' !in text
      && (text == v <==> forall i :: 0 <= i < |v| ==> Plain(v[i]))
      && (text != v ==> |text| >= 2 && text[0] == '"' && text[|text| - 1] == '"')
  {
    hide Writes, Plain, DotenvRender.IsSafe, DotenvRender.Escape;
    if forall i :: 0 <= i < |v| ==> Plain(v[i]) { BareWritten(v); } else { QuotedWritten(v); }
  }

  lemma SafeIsPlain(c: char)
    ensures DotenvRender.IsSafe(c) <==> Plain(c)
  {
  }

  lemma BareWritten(v: string)
    requires forall i :: 0 <= i < |v| ==> Plain(v[i])
    ensures DotenvRender.RenderValue(v) == v && Writes(v, v) && CR !in v && '\t' !in v
  {
    hide DotenvRender.Escape, Spells, DotenvRender.IsSafe;
    forall i | 0 <= i < |v| ensures DotenvRender.IsSafe(v[i]) { SafeIsPlain(v[i]); }
    forall c | c in v ensures Plain(c) {}
  }

  lemma QuotedWritten(v: string)
    requires exists i :: 0 <= i < |v| && !Plain(v[i])
    ensures var text := DotenvRender.RenderValue(v);
      && text != v && Writes(text, v) && CR !in text && '\t' !in text
      && |text| >= 2 && text[0] == '"' && text[|text| - 1] == '"'
  {
    hide DotenvRender.Escape, Spells, DotenvRender.IsSafe, Plain;
    var i :| 0 <= i < |v| && !Plain(v[i]);
    SafeIsPlain(v[i]);
    var inner := DotenvRender.Escape(v);
    EscapeSpells(v);
    var quoted := "\"" + inner + "\"";
    assert quoted[1..|quoted| - 1] == inner;
    SpellsLength(inner, v);
  }

  lemma {:induction false} SpellsLength(s: string, v: string)
    requires Spells(s, v)
    ensures |v| <= |s|
  {
    if s != "" { if s[0] == '\\' { SpellsLength(s[2..], v[1..]); } else { SpellsLength(s[1..], v[1..]); } }
  }
}
