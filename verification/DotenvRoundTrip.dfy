/** Reading back what was written: `parse` after `render`. */
module DotenvRoundTrip {
  import opened Text
  import opened Bytes
  import opened Dotenv
  import opened DotenvRender

  // ----- quoted values

  lemma {:induction false} DecodeEscaped(v: string)
    ensures DecodeDouble(Escape(v) + "\"", false) == Ok(v)
  {
    if v == "" {
      assert "\""[1..] == "";
      assert Trim("") == "";
    } else {
      var tail := Escape(v[1..]) + "\"";
      DecodeEscaped(v[1..]);
      DecodeEscapedChar(v[0], tail);
      assert Escape(v) + "\"" == EscapeChar(v[0]) + tail;
      assert [v[0]] + v[1..] == v;
    }
  }

  lemma DecodeEscapedChar(c: char, tail: string)
    ensures DecodeDouble(EscapeChar(c) + tail, false) == Prepend(c, DecodeDouble(tail, false))
  {
    var s := EscapeChar(c) + tail;
    if |EscapeChar(c)| == 2 {
      assert s[0] == '\\' && s[1..][1..] == tail;
    } else {
      assert s[1..] == tail;
    }
  }

  lemma ClosesAfterEscapedChar(c: char, tail: string)
    requires c != NL
    ensures Closes(EscapeChar(c) + tail, '"', false) == Closes(tail, '"', false)
  {
    var s := EscapeChar(c) + tail;
    if |EscapeChar(c)| == 2 {
      assert s[0] == '\\' && s[1..][1..] == tail;
    } else {
      assert s[1..] == tail;
    }
  }

  /** All lines but the last leave the quote open. */
  predicate ClosesLast(ls: seq<string>, quote: char) {
    && ls != []
    && (forall i :: 0 <= i < |ls| - 1 ==> !Closes(ls[i], quote, false))
    && Closes(ls[|ls| - 1], quote, false)
  }

  /** Lines stay as they are when text without a line feed and without effect on the scan is put in front. */
  lemma ClosesLastBehind(c: char, tail: string)
    requires ClosesLast(Split(tail), '"')
    ensures ClosesLast(Split(EscapeChar(c) + tail), '"')
  {
    hide Split, Closes;
    var ts := Split(tail);
    if c == NL {
      assert EscapeChar(c) + tail == "" + [NL] + tail;
      SplitConcat("", tail);
      SplitPlain("");
      assert !Closes("", '"', false) by { NothingCloses(); }
    } else {
      SplitPrefix(EscapeChar(c), tail);
      ClosesAfterEscapedChar(c, ts[0]);
    }
  }

  lemma NothingCloses()
    ensures !Closes("", '"', false) && Closes("\"", '"', false)
  {
  }

  lemma {:induction false} EscapedClosesLast(v: string)
    ensures ClosesLast(Split(Escape(v) + "\""), '"')
  {
    hide Split, Closes, EscapeChar;
    if v == "" {
      SplitPlain("\"");
      NothingCloses();
      assert Escape(v) + "\"" == "\"";
    } else {
      var tail := Escape(v[1..]) + "\"";
      EscapedClosesLast(v[1..]);
      assert Escape(v) + "\"" == EscapeChar(v[0]) + tail;
      ClosesLastBehind(v[0], tail);
    }
  }

  lemma {:induction false} CollectClosing(acc: string, ls: seq<string>, rest: seq<string>, quote: char)
    requires ClosesLast(ls, quote)
    ensures Collect(acc, ls + rest, quote) == (acc + [NL] + Join(ls), |ls|)
    decreases |ls|
  {
    hide Closes;
    assert (ls + rest)[0] == ls[0] && (ls + rest)[1..] == ls[1..] + rest;
    if |ls| > 1 {
      var grown := acc + [NL] + ls[0];
      CollectClosing(grown, ls[1..], rest, quote);
      assert grown + [NL] + Join(ls[1..]) == acc + [NL] + Join(ls);
    }
  }

  // ----- one assignment

  lemma KeyText(key: string)
    requires ValidKey(key)
    ensures key != "" && NL !in key && '=' !in key && BOM !in key && ' ' !in key && '"' !in key
    ensures !IsWhite(key[0]) && !IsJsWhite(key[0]) && key[0] != '#'
    ensures Trim(key) == key && JsTrim(key) == key
  {
    forall c | c in key ensures IsKeyChar(c) {
      var i :| 0 <= i < |key| && key[i] == c;
    }
    TrimFixed(key, IsWhite);
    TrimFixed(key, IsJsWhite);
  }

  lemma NoExport(key: string, raw: string)
    requires ValidKey(key)
    ensures StripExport(key + "=" + raw) == key + "=" + raw
    ensures Find(key + "=" + raw, '=') == |key|
    ensures TrimStart(key + "=" + raw) == key + "=" + raw
    ensures (key + "=" + raw)[..|key|] == key && (key + "=" + raw)[|key| + 1..] == raw
  {
    hide ValidKey;
    KeyText(key);
    var line := key + "=" + raw;
    FindAfter(key, '=', raw);
    TrimKeepsHead(line, IsWhite);
    var x := "export ";
    if |key| >= 7 {
      assert line[6] == key[6] && key[6] in key && x[6] == ' ';
    } else {
      assert line[|key|] == '=' && x[|key|] != '=';
    }
  }

  lemma ParseAssignmentOf(key: string, raw: string, value: string)
    requires ValidKey(key) && ParseValue(Trim(raw)) == Ok(value) && Utf8Len(value) <= MAX_VALUE_BYTES
    ensures ParseAssignment(key + "=" + raw) == Ok(Entry(key, value, None, 0))
  {
    hide ParseValue, Trim, StripExport, Find, Utf8Len, ValidateKeySyntax;
    NoExport(key, raw);
    KeyText(key);
  }

  lemma ParseSafeValue(value: string)
    requires AllSafe(value)
    ensures ParseValue(Trim(value)) == Ok(value)
  {
    hide DecodeDouble, DecodeSingle;
    if value != "" { assert IsSafe(value[0]) && IsSafe(value[|value| - 1]); }
    TrimFixed(value, IsWhite);
  }

  lemma ParseQuotedValue(value: string)
    ensures ParseValue(Trim("\"" + Escape(value) + "\"")) == Ok(value)
  {
    hide Escape, DecodeDouble, DecodeSingle;
    var raw := "\"" + Escape(value) + "\"";
    TrimFixed(raw, IsWhite);
    DecodeEscaped(value);
    assert raw[1..] == Escape(value) + "\"";
  }

  lemma ParseRenderedValue(value: string)
    ensures ParseValue(Trim(RenderValue(value))) == Ok(value)
  {
    hide ParseValue, Trim, Escape, AllSafe;
    if AllSafe(value) { ParseSafeValue(value); } else { ParseQuotedValue(value); }
  }

  lemma FirstRecordLine(e: Entry)
    requires ValidKey(e.key)
    ensures var parts := Split(RenderValue(e.value));
            RecordLines(e) == [e.key + "=" + parts[0]] + parts[1..]
  {
    KeyText(e.key);
    SplitPrefix(e.key + "=", RenderValue(e.value));
  }

  lemma StartKept(s: string)
    requires s != "" ==> !IsWhite(s[0])
    ensures TrimStart(s) == s
  {
    if s != "" { TrimKeepsHead(s, IsWhite); }
  }

  lemma ReadOpeningOf(key: string, raw: string)
    requires ValidKey(key)
    requires raw != "" ==> !IsWhite(raw[0])
    ensures ReadOpening(key + "=" + raw) ==
            if raw == "" || (raw[0] != '"' && raw[0] != '\'') || Closes(raw[1..], raw[0], false)
            then Complete(key + "=" + raw) else Open(key + "=" + raw, raw[0])
  {
    hide Closes, StripExport, Find, Trim, TrimStart, ValidateKeySyntax;
    NoExport(key, raw);
    KeyText(key);
    assert TrimStart(raw) == raw by { StartKept(raw); }
  }

  lemma SafeRecord(e: Entry, rest: seq<string>)
    requires ValidKey(e.key) && Utf8Len(e.value) <= MAX_VALUE_BYTES && AllSafe(e.value)
    ensures RecordLines(e) == [Assignment(e)]
    ensures ParseMultiline(Assignment(e), rest) == (Ok(Entry(e.key, e.value, None, 0)), 0)
  {
    hide ParseAssignment, ReadOpening, ValidKey;
    KeyText(e.key);
    var value := e.value;
    forall i | 0 <= i < |value| ensures value[i] != NL && !IsWhite(value[i]) && value[i] != '"' && value[i] != '\'' {
      assert IsSafe(value[i]);
    }
    SplitPlain(Assignment(e));
    ReadOpeningOf(e.key, value);
    ParseRenderedValue(value);
    ParseAssignmentOf(e.key, value, value);
  }

  lemma QuotedRecord(e: Entry, rest: seq<string>)
    requires ValidKey(e.key) && Utf8Len(e.value) <= MAX_VALUE_BYTES && !AllSafe(e.value)
    ensures var ls := RecordLines(e);
            ParseMultiline(ls[0], ls[1..] + rest) == (Ok(Entry(e.key, e.value, None, 0)), |ls| - 1)
  {
    hide ParseAssignment, ReadOpening, ValidKey, Closes, Split, AllSafe;
    var t := Escape(e.value) + "\"";
    var ts := Split(t);
    var raw := "\"" + ts[0];
    assert RenderValue(e.value) == "\"" + t;
    SplitPrefix("\"", t);
    FirstRecordLine(e);
    var ls := RecordLines(e);
    assert ls[0] == e.key + "=" + raw && ls[1..] == ts[1..];
    EscapedClosesLast(e.value);
    ReadOpeningOf(e.key, raw);
    assert raw[1..] == ts[0];
    ParseRenderedValue(e.value);
    ParseAssignmentOf(e.key, RenderValue(e.value), e.value);
    SplitParts(t);
    var whole := e.key + "=" + RenderValue(e.value);
    if |ts| == 1 {
      assert ls[0] == whole;
    } else {
      CollectClosing(ls[0], ts[1..], rest, '"');
      assert Join(ts) == ts[0] + [NL] + Join(ts[1..]);
      assert ls[0] + [NL] + Join(ts[1..]) == whole;
    }
  }

  /** A written record is read as one assignment, whatever follows it. */
  lemma ReadRecord(e: Entry, rest: seq<string>)
    requires ValidKey(e.key) && Utf8Len(e.value) <= MAX_VALUE_BYTES
    ensures var ls := RecordLines(e);
            ParseMultiline(ls[0], ls[1..] + rest) == (Ok(Entry(e.key, e.value, None, 0)), |ls| - 1)
  {
    hide ParseMultiline, ValidKey;
    if AllSafe(e.value) {
      SafeRecord(e, rest);
      assert RecordLines(e)[1..] + rest == rest;
    } else {
      QuotedRecord(e, rest);
    }
  }

  // ----- one turn of the line loop

  lemma TrimIsTrimMatches(s: string)
    ensures Trim(s) == TrimMatches(s, IsWhite) && JsTrim(s) == TrimMatches(s, IsJsWhite)
  {
  }

  lemma KeyedLine(key: string, raw: string, index: nat)
    requires ValidKey(key)
    ensures Classify(key + "=" + raw, index) == AssignmentLine(key + "=" + raw)
  {
    hide ValidKey, Trim, TrimMatches;
    KeyText(key);
    var line := key + "=" + raw;
    assert line[0] == key[0] && key[0] in key;
    assert StripBom(line, index) == line;
    TrimKeepsHead(line, IsWhite);
    assert Trim(line) == TrimMatches(line, IsWhite) by { TrimIsTrimMatches(line); }
  }

  lemma RecordTurn(e: Entry, rest: seq<string>, index: nat, st: ParseState)
    requires ValidKey(e.key) && Utf8Len(e.value) <= MAX_VALUE_BYTES
    requires |st.entries| < MAX_ENTRIES && e.key !in Keys(st.entries)
    ensures ReadTurn(RecordLines(e) + rest, index, st) ==
            Turn(st.(entries := st.entries + [Entry(e.key, e.value, st.group, |st.entries|)], boundary := false),
                 |RecordLines(e)|, false)
  {
    hide ParseMultiline, ValidKey, RecordLines, Keys, Classify, Split, Utf8Len;
    var ls := RecordLines(e);
    ReadRecord(e, rest);
    FirstRecordLine(e);
    KeyedLine(e.key, Split(RenderValue(e.value))[0], index);
    assert (ls + rest)[0] == ls[0] && (ls + rest)[1..] == ls[1..] + rest;
  }

  lemma BlankTurn(rest: seq<string>, index: nat, st: ParseState)
    ensures ReadTurn([""] + rest, index, st) == Turn(st.(boundary := true), 1, false)
  {
    TrimFixed("", IsWhite);
  }

  lemma HeadingComment(group: string, index: nat)
    ensures Classify(HeadingLine(group), index) == CommentLine("[" + group + "]")
  {
    var line, comment := HeadingLine(group), "[" + group + "]";
    TrimFixed(line, IsWhite);
    assert line[1..] == " " + comment;
    var spaced := " " + comment;
    assert SkipFrom(spaced, IsWhite, 1) == 1;
    assert DropWhile(spaced, IsWhite) == comment;
    TrimFixed(comment, IsWhite);
    TrimKeepsHead(comment, IsWhite);
  }

  lemma HeadingName(group: string)
    ensures ParseGroupHeading("[" + group + "]") == NormalizeGroupName(group)
  {
    hide NormalizeGroupName;
    var comment := "[" + group + "]";
    assert comment[1..] == group + "]";
    assert (group + "]")[..|group|] == group;
  }

  lemma HeadingTurn(group: string, rest: seq<string>, index: nat, st: ParseState)
    requires NormalizeGroupName(group) == Some(group)
    ensures ReadTurn([HeadingLine(group)] + rest, index, st) == Turn(st.(group := Some(group), boundary := false), 1, false)
  {
    hide Classify, HeadingLine, NormalizeGroupName, ParseGroupHeading;
    HeadingComment(group, index);
    HeadingName(group);
  }

  // ----- whole texts

  predicate WritableGroup(group: Option<string>) {
    group.Some? ==>
      NormalizeGroupName(group.value) == group && NL !in group.value && '\0' !in group.value
  }

  predicate WritableEntry(e: Entry) {
    && ValidKey(e.key)
    && Utf8Len(e.value) <= MAX_VALUE_BYTES && '\0' !in e.value
    && WritableGroup(e.group)
  }

  /** What a list of entries needs for its text to be read back. */
  predicate Writable(es: seq<Entry>) {
    && 1 <= |es| <= MAX_ENTRIES
    && DistinctKeys(es)
    && (forall i :: 0 <= i < |es| ==> WritableEntry(es[i]))
    && Utf8Len(Render(es)) <= MAX_INPUT_BYTES
  }

  lemma ParseHead(e: Entry, previous: Option<string>, first: bool, tail: seq<string>, index: nat, st: ParseState)
    returns (st': ParseState)
    requires WritableGroup(e.group) && (e.group.None? ==> previous.None?) && st.group == previous
    ensures st'.entries == st.entries && st'.issues == st.issues && st'.group == e.group
    ensures ParseLines(HeadLines(e, previous, first) + tail, index, st) ==
            ParseLines(tail, index + |HeadLines(e, previous, first)|, st')
  {
    hide ReadTurn, NormalizeGroupName;
    var head := HeadLines(e, previous, first);
    st' := st;
    if e.group == previous {
      assert head + tail == tail;
    } else {
      var heading := [HeadingLine(e.group.value)] + tail;
      var next := index;
      if !first {
        BlankTurn(heading, index, st);
        assert head + tail == [""] + heading;
        assert ([""] + heading)[1..] == heading;
        st' := st.(boundary := true);
        next := index + 1;
      } else {
        assert head + tail == heading;
      }
      HeadingTurn(e.group.value, tail, next, st');
      assert heading[1..] == tail;
      st' := st'.(group := e.group, boundary := false);
    }
  }

  lemma ParseRecord(e: Entry, tail: seq<string>, index: nat, st: ParseState)
    requires ValidKey(e.key) && Utf8Len(e.value) <= MAX_VALUE_BYTES
    requires |st.entries| < MAX_ENTRIES && e.key !in Keys(st.entries)
    ensures ParseLines(RecordLines(e) + tail, index, st) ==
            ParseLines(tail, index + |RecordLines(e)|,
                       st.(entries := st.entries + [Entry(e.key, e.value, st.group, |st.entries|)], boundary := false))
  {
    hide ReadTurn, ValidKey, RecordLines;
    RecordTurn(e, tail, index, st);
    assert (RecordLines(e) + tail)[|RecordLines(e)|..] == tail;
  }

  /** The part of `ParseRendered` that one entry contributes. */
  lemma ParseEntry(e: Entry, previous: Option<string>, first: bool, tail: seq<string>, index: nat, st: ParseState)
    returns (index': nat, st': ParseState)
    requires WritableEntry(e) && (e.group.None? ==> previous.None?) && st.group == previous
    requires |st.entries| < MAX_ENTRIES && e.key !in Keys(st.entries)
    ensures st'.entries == st.entries + [e.(position := |st.entries|)]
    ensures st'.issues == st.issues && st'.group == e.group
    ensures ParseLines(HeadLines(e, previous, first) + RecordLines(e) + tail, index, st) == ParseLines(tail, index', st')
  {
    hide ParseLines, ValidKey, RecordLines, HeadLines, NormalizeGroupName, Utf8Len;
    var head, record := HeadLines(e, previous, first), RecordLines(e);
    assert head + record + tail == head + (record + tail);
    var st1 := ParseHead(e, previous, first, record + tail, index, st);
    ParseRecord(e, tail, index + |head|, st1);
    index' := index + |head| + |record|;
    st' := st1.(entries := st.entries + [e.(position := |st.entries|)], boundary := false);
  }

  /** The line loop over written lines appends exactly the written entries. */
  lemma {:induction false} ParseRendered(es: seq<Entry>, previous: Option<string>, first: bool, index: nat, st: ParseState)
    requires Grouped(es) && (es != [] && es[0].group.None? ==> previous.None?) && st.group == previous
    requires DistinctKeys(es) && (forall i :: 0 <= i < |es| ==> es[i].key !in Keys(st.entries))
    requires forall i :: 0 <= i < |es| ==> WritableEntry(es[i])
    requires |st.entries| + |es| <= MAX_ENTRIES
    ensures var final := ParseLines(RenderLines(es, previous, first), index, st);
            final.entries == st.entries + Renumber(es, |st.entries|) && final.issues == st.issues
  {
    hide ReadTurn, RecordLines, HeadLines, WritableEntry;
    if es == [] {
      assert st.entries + Renumber(es, |st.entries|) == st.entries;
    } else {
      var e, rest := es[0], es[1..];
      var tail := RenderLines(rest, e.group, false);
      var index', st' := ParseEntry(e, previous, first, tail, index, st);
      forall i | 0 <= i < |rest| ensures rest[i].key !in Keys(st'.entries) && WritableEntry(rest[i]) {
        assert rest[i] == es[i + 1];
      }
      assert Grouped(rest) && DistinctKeys(rest);
      ParseRendered(rest, e.group, false, index', st');
      assert st.entries + ([e.(position := |st.entries|)] + Renumber(rest, |st.entries| + 1)) ==
             st'.entries + Renumber(rest, |st.entries| + 1);
    }
  }

  // ----- from lines to text

  lemma {:induction false} SplitCharacters(s: string, i: nat, c: char)
    requires i < |Split(s)| && c in Split(s)[i]
    ensures c in s
  {
    if s[0] == NL {
      SplitCharacters(s[1..], i - 1, c);
    } else if i > 0 {
      SplitCharacters(s[1..], i, c);
    } else if c != s[0] {
      SplitCharacters(s[1..], 0, c);
    }
  }

  lemma {:induction false} EscapeCharacters(v: string)
    ensures CR !in Escape(v)
    ensures '\0' in Escape(v) <==> '\0' in v
  {
    if v != "" {
      EscapeCharacters(v[1..]);
      assert v == [v[0]] + v[1..];
    }
  }

  lemma AssignmentCharacters(e: Entry)
    requires ValidKey(e.key)
    ensures CR !in Assignment(e)
    ensures '\0' in Assignment(e) <==> '\0' in e.value
  {
    forall c | c in e.key ensures IsKeyChar(c) {
      var i :| 0 <= i < |e.key| && e.key[i] == c;
    }
    if AllSafe(e.value) {
      forall c | c in e.value ensures IsSafe(c) {
        var i :| 0 <= i < |e.value| && e.value[i] == c;
      }
    } else {
      EscapeCharacters(e.value);
    }
  }

  /** Keys are valid and no group holds a line feed: the text can be cut into its lines again. */
  predicate Lined(es: seq<Entry>) {
    forall i :: 0 <= i < |es| ==> ValidKey(es[i].key) && (es[i].group.Some? ==> NL !in es[i].group.value)
  }

  predicate CleanLine(line: string) { NL !in line && DropCr(line) == line }

  lemma RecordLinesClean(e: Entry)
    requires ValidKey(e.key)
    ensures forall i :: 0 <= i < |RecordLines(e)| ==> CleanLine(RecordLines(e)[i])
  {
    hide ValidKey;
    var ls := RecordLines(e);
    SplitParts(Assignment(e));
    AssignmentCharacters(e);
    forall i | 0 <= i < |ls| ensures DropCr(ls[i]) == ls[i] {
      if ls[i] != "" && ls[i][|ls[i]| - 1] == CR {
        SplitCharacters(Assignment(e), i, CR);
      }
    }
  }

  lemma {:induction false} RenderLinesClean(es: seq<Entry>, previous: Option<string>, first: bool)
    requires Lined(es)
    ensures forall i :: 0 <= i < |RenderLines(es, previous, first)| ==> CleanLine(RenderLines(es, previous, first)[i])
  {
    hide ValidKey, RecordLines;
    if es != [] {
      RecordLinesClean(es[0]);
      RenderLinesClean(es[1..], es[0].group, false);
    }
  }

  lemma {:induction false} UnlinesCharacters(ls: seq<string>, c: char)
    requires c != NL
    ensures c in Unlines(ls) <==> exists i :: 0 <= i < |ls| && c in ls[i]
  {
    if ls != [] {
      UnlinesCharacters(ls[1..], c);
      if i :| 0 <= i < |ls| && c in ls[i] {
        if i > 0 { assert c in ls[1..][i - 1]; }
      }
      if i :| 0 <= i < |ls[1..]| && c in ls[1..][i] {
        assert c in ls[i + 1];
      }
    }
  }

  predicate HasNul(e: Entry) {
    '\0' in e.value || (e.group.Some? && '\0' in e.group.value)
  }

  predicate AnyNul(ls: seq<string>) { exists i :: 0 <= i < |ls| && '\0' in ls[i] }

  lemma AnyNulConcat(a: seq<string>, b: seq<string>)
    ensures AnyNul(a + b) <==> AnyNul(a) || AnyNul(b)
  {
    if i :| 0 <= i < |a| && '\0' in a[i] { assert '\0' in (a + b)[i]; }
    if i :| 0 <= i < |b| && '\0' in b[i] { assert '\0' in (a + b)[|a| + i]; }
  }

  lemma NulInRecord(e: Entry)
    requires ValidKey(e.key)
    ensures AnyNul(RecordLines(e)) <==> '\0' in e.value
  {
    hide ValidKey;
    AssignmentCharacters(e);
    UnlinesSplit(Assignment(e));
    UnlinesCharacters(RecordLines(e), '\0');
  }

  lemma {:induction false} NulInLines(es: seq<Entry>, previous: Option<string>, first: bool)
    requires Lined(es) && (previous.Some? ==> '\0' !in previous.value)
    ensures AnyNul(RenderLines(es, previous, first)) <==> exists i :: 0 <= i < |es| && HasNul(es[i])
  {
    hide ValidKey, RecordLines;
    if es != [] {
      var e, rest := es[0], es[1..];
      var head, record, tail := HeadLines(e, previous, first), RecordLines(e), RenderLines(rest, e.group, false);
      NulInRecord(e);
      AnyNulConcat(head + record, tail);
      AnyNulConcat(head, record);
      assert AnyNul(head) <==> e.group != previous && e.group.Some? && '\0' in e.group.value by {
        if e.group != previous && e.group.Some? {
          assert head[|head| - 1] == HeadingLine(e.group.value);
          assert '\0' in head[|head| - 1] <==> '\0' in e.group.value;
        }
      }
      if !HasNul(e) {
        NulInLines(rest, e.group, false);
        if i :| 0 <= i < |es| && HasNul(es[i]) { assert HasNul(rest[i - 1]); }
        if i :| 0 <= i < |rest| && HasNul(rest[i]) { assert HasNul(es[i + 1]); }
      }
    }
  }

  lemma NulInRender(es: seq<Entry>)
    requires Lined(es)
    ensures '\0' in RenderOrdered(es) <==> exists i :: 0 <= i < |es| && HasNul(es[i])
  {
    hide RenderLines;
    NulInLines(es, None, true);
    UnlinesCharacters(RenderLines(es, None, true), '\0');
  }

  lemma LinesOfRendered(es: seq<Entry>)
    requires Lined(es)
    ensures Lines(RenderOrdered(es)) == RenderLines(es, None, true)
  {
    hide RenderLines, Lines;
    RenderLinesClean(es, None, true);
    LinesUnlines(RenderLines(es, None, true));
  }

  lemma OrderedMembers(es: seq<Entry>, i: nat)
    requires i < |es|
    ensures |Ordered(es)| == |es|
    ensures Ordered(es)[i] in es && es[i] in Ordered(es)
  {
    hide Ordered;
    OrderedProperties(es);
    assert Ordered(es)[i] in multiset(es) && es[i] in multiset(Ordered(es));
  }

  /** Reading a written list gives the list back in canonical order, without a report. */
  lemma ParseOfRender(es: seq<Entry>)
    requires Writable(es)
    ensures Parse(Render(es)) == ParseReport(Canonical(es), [])
  {
    hide Ordered, ParseLines, RenderOrdered, Lines, WritableEntry;
    var ordered := Ordered(es);
    OrderedProperties(es);
    forall i | 0 <= i < |ordered| ensures WritableEntry(ordered[i]) { OrderedMembers(es, i); }
    WritableIsLined(ordered);
    NulInRender(ordered);
    LinesOfRendered(ordered);
    ParseRendered(ordered, None, true, 0, START);
    assert START.entries + Renumber(ordered, 0) == Canonical(es);
  }

  lemma WritableIsLined(es: seq<Entry>)
    requires forall i :: 0 <= i < |es| ==> WritableEntry(es[i])
    ensures Lined(es) && forall i :: 0 <= i < |es| ==> !HasNul(es[i])
  {
    hide ValidKey, NormalizeGroupName;
    forall i | 0 <= i < |es|
      ensures ValidKey(es[i].key) && (es[i].group.Some? ==> NL !in es[i].group.value) && !HasNul(es[i])
    {
      assert WritableEntry(es[i]);
    }
  }
}
