/** What may stand around an assignment, which keys are valid, and what a group is called. */
module DotenvLines {
  import opened Text
  import opened Bytes
  import opened Dotenv
  import opened DotenvRoundTrip
  import opened DotenvScanner
  import opened DotenvValues

  // ----- keys

  predicate Letter(c: char) { 'a' <= c <= 'z' || 'A' <= c <= 'Z' }

  lemma {:induction false} AsciiLength(s: string)
    requires forall i :: 0 <= i < |s| ==> s[i] < '\U{80}'
    ensures Utf8Len(s) == |s|
  {
    if s != "" { AsciiLength(s[1..]); }
  }

  /** A key has 1 to 255 letters, digits, underscores and dots, and begins with a letter or an underscore. */
  lemma KeyExactly(key: string)
    ensures ValidKey(key) <==>
              1 <= |key| <= 255 && (Letter(key[0]) || key[0] == '_')
              && forall i :: 0 <= i < |key| ==> Letter(key[i]) || '0' <= key[i] <= '9' || key[i] == '_' || key[i] == '.'
  {
    hide Utf8Len;
    if key != "" && IsKeyStart(key[0]) && forall i :: 1 <= i < |key| ==> IsKeyChar(key[i]) {
      AsciiLength(key);
    }
  }

  // ----- groups

  /** What is cut off around a group name. */
  predicate Around(c: char) { IsWhite(c) || c == '=' || c == '-' || c == '*' }

  /** A group name is the text without what stands around it: one piece of 1 to 80 characters that begins and ends visibly. */
  lemma GroupName(text: string, g: string) returns (i: nat, j: nat)
    requires NormalizeGroupName(text) == Some(g)
    ensures i < j <= |text| && g == text[i..j] && |g| <= 80 && !IsWhite(g[0]) && !IsWhite(g[|g| - 1])
    ensures forall k :: 0 <= k < |text| && (k < i || j <= k) ==> Around(text[k])
  {
    hide TrimMatches;
    var a, b := MatchParts(text, IsWhite);
    var t := text[a..b];
    assert t == Trim(text) by { TrimIsTrimMatches(text); }
    var m, n := MatchParts(t, IsGroupDecoration);
    var v := t[m..n];
    var c, d := MatchParts(v, IsWhite);
    assert g == v[c..d] by { TrimIsTrimMatches(v); }
    i, j := a + m + c, a + m + d;
    assert forall k :: 0 <= k < |t| ==> t[k] == text[a + k];
    assert forall k :: 0 <= k < |v| ==> v[k] == t[m + k];
    assert g == text[i..j];
    forall k | 0 <= k < |text| && (k < i || j <= k) ensures Around(text[k]) {
      if a <= k < b {
        assert text[k] == t[k - a];
        if m <= k - a < n { assert t[k - a] == v[k - a - m]; }
      }
    }
  }

  // ----- around an assignment

  lemma TrimAround(before: string, s: string, after: string)
    requires AllWhite(before) && AllWhite(after) && s != "" && !IsWhite(s[0]) && !IsWhite(s[|s| - 1])
    ensures Trim(before + s + after) == s
  {
    var raw := before + s + after;
    assert raw[|before|..|before| + |s|] == s;
    forall k | 0 <= k < |raw| && (k < |before| || |before| + |s| <= k) ensures IsWhite(raw[k]) {
      if k < |before| { assert raw[k] == before[k]; } else { assert raw[k] == after[k - |before| - |s|]; }
    }
    TrimUnique(raw, |before|, |before| + |s|);
  }

  lemma StartAround(before: string, s: string)
    requires AllWhite(before) && s != "" && !IsWhite(s[0])
    ensures TrimStart(before + s) == s
  {
    var raw := before + s;
    SkipFromStops(raw, IsWhite, 0);
    var r := SkipFrom(raw, IsWhite, 0);
    assert raw[|before|] == s[0];
    assert forall k :: 0 <= k < |before| ==> raw[k] == before[k];
    assert r == |before|;
    assert raw[r..] == s;
  }

  lemma WhiteHas(s: string)
    requires AllWhite(s)
    ensures '=' !in s && BOM !in s && '\0' !in s && '#' !in s
  {
  }

  /** The part of the line from the key on, white space around the key included. */
  function Keyed(middle: string, key: string, after: string, raw: string): string {
    middle + key + after + "=" + raw
  }

  lemma KeyedParts(middle: string, key: string, after: string, raw: string)
    requires ValidKey(key) && AllWhite(middle) && AllWhite(after)
    ensures var line := Keyed(middle, key, after, raw); var sep := Find(line, '=');
      && sep == |middle + key + after| && Trim(line[..sep]) == key && line[sep + 1..] == raw
  {
    hide ValidKey, Trim;
    var front := middle + key + after;
    KeyText(key);
    WhiteHas(middle);
    WhiteHas(after);
    assert Keyed(middle, key, after, raw) == front + "=" + raw;
    FindAfter(front, '=', raw);
    KeyEnds(key);
    TrimAround(middle, key, after);
    assert (front + "=" + raw)[..|front|] == front && (front + "=" + raw)[|front| + 1..] == raw;
  }

  lemma KeyEnds(key: string)
    requires ValidKey(key)
    ensures key != "" && !IsWhite(key[0]) && !IsWhite(key[|key| - 1])
  {
    assert IsKeyStart(key[0]) && (|key| > 1 ==> IsKeyChar(key[|key| - 1]));
  }

  /** The key is the word `export` and a space follows it: the program takes it for the prefix. */
  predicate LooksExported(key: string, after: string) { key == "export" && after != "" && after[0] == ' ' }

  lemma NotExport(key: string, after: string, raw: string)
    requires ValidKey(key) && AllWhite(after) && !LooksExported(key, after)
    ensures !("export " <= key + after + "=" + raw)
  {
    hide ValidKey;
    KeyText(key);
    var line, x := key + after + "=" + raw, "export ";
    if |key| > 6 {
      assert line[6] == key[6] && x[6] == ' ' && key[6] in key;
    } else if |key| < 6 {
      assert line[|key|] == (if after == "" then '=' else after[0]);
    } else if key != "export" {
      assert forall k :: 0 <= k < 6 ==> line[k] == key[k];
      assert x[..6] == "export";
    } else {
      assert line[6] == (if after == "" then '=' else after[0]);
    }
  }

  /** The assignment that a decorated line holds is that of `key=raw`. */
  lemma DecoratedAssignment(before: string, exported: bool, middle: string, key: string, after: string, raw: string)
    requires ValidKey(key) && AllWhite(before) && AllWhite(middle) && AllWhite(after)
    requires !exported ==> middle == "" && !LooksExported(key, after)
    ensures var start := (if exported then "export " else "") + Keyed(middle, key, after, raw);
      && TrimStart(before + start) == start && start != "" && !IsWhite(start[0]) && start[0] != '#' && start[0] != BOM
      && ParseAssignment(start) == ParseAssignment(key + "=" + raw)
      && (ReadOpening(before + start) == Complete(start) || exists q :: ReadOpening(before + start) == Open(start, q))
  {
    hide ValidKey, ParseAssignment, ReadOpening, TrimStart, Keyed, AllWhite;
    var line := Keyed(middle, key, after, raw);
    var start := (if exported then "export " else "") + line;
    KeyText(key);
    FirstOf(exported, middle, key, after, raw);
    StartAround(before, start);
    assert StripExport(start) == line by {
      if exported { assert start[7..] == line; } else { PlainStart(key, after, raw); assert start == line; }
    }
    KeyedIsAssignment(start, middle, key, after, raw);
    StartedOpening(before + start, start, middle, key, after, raw);
  }

  lemma KeyedIsAssignment(start: string, middle: string, key: string, after: string, raw: string)
    requires ValidKey(key) && AllWhite(middle) && AllWhite(after) && StripExport(start) == Keyed(middle, key, after, raw)
    ensures ParseAssignment(start) == ParseAssignment(key + "=" + raw)
  {
    hide ValidKey, ParseValue, Trim, Find, Keyed, AllWhite, StripExport, ValidateKeySyntax;
    KeyedParts(middle, key, after, raw);
    AssignmentOf(key, raw);
    KeyIsValid(key);
    LineHasSign(middle, key, after, raw);
  }

  lemma StartedOpening(text: string, start: string, middle: string, key: string, after: string, raw: string)
    requires ValidKey(key) && AllWhite(middle) && AllWhite(after)
    requires TrimStart(text) == start && StripExport(start) == Keyed(middle, key, after, raw)
    ensures ReadOpening(text) == Complete(start) || exists q :: ReadOpening(text) == Open(start, q)
  {
    hide ValidKey, Trim, Find, Keyed, AllWhite, StripExport, TrimStart, Closes, ValidateKeySyntax;
    KeyedParts(middle, key, after, raw);
    KeyIsValid(key);
    LineHasSign(middle, key, after, raw);
  }

  lemma KeyIsValid(key: string)
    requires ValidKey(key)
    ensures ValidateKeySyntax(key).None?
  {
  }

  lemma LineHasSign(middle: string, key: string, after: string, raw: string)
    ensures |middle + key + after| < |Keyed(middle, key, after, raw)|
  {
  }

  lemma FirstOf(exported: bool, middle: string, key: string, after: string, raw: string)
    requires key != "" && (!exported ==> middle == "")
    ensures var start := (if exported then "export " else "") + Keyed(middle, key, after, raw);
            start != "" && start[0] == if exported then 'e' else key[0]
  {
  }

  lemma PlainStart(key: string, after: string, raw: string)
    requires ValidKey(key) && AllWhite(after) && !LooksExported(key, after)
    ensures StripExport(Keyed("", key, after, raw)) == Keyed("", key, after, raw)
  {
    hide ValidKey;
    NotExport(key, after, raw);
    assert "" + key + after + "=" + raw == key + after + "=" + raw;
  }

  /**
   * White space before the line, the word `export`, and white space around the key change nothing: such a line is
   * read as `key=raw`.
   */
  lemma DecoratedLine(before: string, exported: bool, middle: string, key: string, after: string, raw: string)
    requires ValidKey(key) && AllWhite(before) && AllWhite(middle) && AllWhite(after)
    requires !exported ==> middle == "" && !LooksExported(key, after)
    ensures var text := before + ((if exported then "export " else "") + Keyed(middle, key, after, raw));
      NL !in text && Utf8Len(text) <= MAX_INPUT_BYTES && Utf8Len(key + "=" + raw) <= MAX_INPUT_BYTES ==>
        Parse(text) == Parse(key + "=" + raw)
  {
    hide ValidKey, Utf8Len, ParseAssignment, ReadOpening, Lines, Trim, TrimStart, Keyed, Classify, AllWhite;
    var start := (if exported then "export " else "") + Keyed(middle, key, after, raw);
    var text, plain := before + start, key + "=" + raw;
    DecoratedAssignment(before, exported, middle, key, after, raw);
    if NL !in text && Utf8Len(text) <= MAX_INPUT_BYTES && Utf8Len(plain) <= MAX_INPUT_BYTES {
      SameCharacters(before, exported, middle, key, after, raw);
      KeyText(key);
      OneLine(text);
      OneLine(plain);
      KeyedLine(key, raw, 0);
      LastLineIs(key, raw);
      StartedLine(before, start);
      assert ParseMultiline(text, []) == ParseMultiline(plain, []);
      SingleLine(text, text);
      SingleLine(plain, plain);
    }
  }

  lemma StartedLine(before: string, start: string)
    requires AllWhite(before) && start != "" && !IsWhite(start[0]) && start[0] != '#' && start[0] != BOM
    ensures Classify(before + start, 0) == AssignmentLine(before + start)
  {
    hide DropWhile, DropWhileEnd;
    var line := before + start;
    assert line[0] == (if before == "" then start[0] else before[0]);
    assert line[0] != BOM;
    assert StripBom(line, 0) == line;
    StartAround(before, start);
    TrimKeepsHead(start, IsWhite);
  }

  lemma SameCharacters(before: string, exported: bool, middle: string, key: string, after: string, raw: string)
    requires ValidKey(key) && AllWhite(before) && AllWhite(middle) && AllWhite(after)
    ensures var text := before + ((if exported then "export " else "") + Keyed(middle, key, after, raw));
      && (NL !in text ==> NL !in key + "=" + raw) && ('\0' in text <==> '\0' in key + "=" + raw) && text != ""
  {
    hide ValidKey;
    WhiteHas(before);
    WhiteHas(middle);
    WhiteHas(after);
    KeyText(key);
  }

  /** A byte order mark before the first line is not part of it. */
  lemma MarkedLine(key: string, raw: string)
    requires ValidKey(key) && NL !in raw && Utf8Len([BOM] + key + "=" + raw) <= MAX_INPUT_BYTES && Utf8Len(key + "=" + raw) <= MAX_INPUT_BYTES
    ensures Parse([BOM] + key + "=" + raw) == Parse(key + "=" + raw)
  {
    hide ValidKey, Utf8Len, ParseMultiline, Lines;
    var plain := key + "=" + raw;
    var text := [BOM] + plain;
    assert text == [BOM] + key + "=" + raw;
    KeyText(key);
    OneLine(text);
    OneLine(plain);
    KeyedLine(key, raw, 0);
    assert Classify(text, 0) == AssignmentLine(plain) by { MarkStripped(plain); }
    SingleLine(text, plain);
    SingleLine(plain, plain);
  }

  lemma MarkStripped(line: string)
    requires Classify(line, 0) == AssignmentLine(line) && !([BOM] <= line)
    ensures Classify([BOM] + line, 0) == AssignmentLine(line)
  {
    hide Trim;
    assert StripBom([BOM] + line, 0) == line && StripBom(line, 0) == line;
  }

  /** A key `export` with a space behind it: the rest is an assignment without a key. */
  lemma ExportAsKey()
    ensures LooksExported("export", " ") && ParseAssignment("export" + " " + "=5") == Err(EmptyKey)
  {
    hide ParseValue;
    var line := "export =5";
    assert "export" + " " + "=5" == line && line[7..] == "=5" && "export " <= line;
    FindAfter("", '=', "5");
    assert "" + ['='] + "5" == "=5";
    TrimFixed("", IsWhite);
    assert Trim("") == "" by { TrimIsTrimMatches(""); }
    assert "=5"[..0] == "";
  }
}
