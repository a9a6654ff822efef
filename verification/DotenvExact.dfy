/** Exactly which lists survive being written and read back. */
module DotenvExact {
  import opened Text
  import opened Bytes
  import opened Dotenv
  import opened DotenvRender
  import opened DotenvRoundTrip

  // ----- what every reading guarantees

  lemma TrimCharacters(s: string, p: char -> bool, c: char)
    requires c in TrimMatches(s, p)
    ensures c in s
  {
    var a := DropWhile(s, p);
    assert c in a[..SkipBack(a, p, |a|)];
    assert c in s[SkipFrom(s, p, 0)..];
  }

  lemma NormalizedCharacters(s: string, c: char)
    requires NormalizeGroupName(s).Some? && c in NormalizeGroupName(s).value
    ensures c in s
  {
    hide TrimMatches;
    TrimCharacters(TrimMatches(Trim(s), IsGroupDecoration), IsWhite, c);
    TrimCharacters(Trim(s), IsGroupDecoration, c);
    TrimCharacters(s, IsWhite, c);
  }

  predicate GoodEntry(e: Entry) {
    && ValidKey(e.key)
    && Utf8Len(e.value) <= MAX_VALUE_BYTES
    && (e.group.Some? ==> NL !in e.group.value)
  }

  predicate GoodState(st: ParseState) {
    && |st.entries| <= MAX_ENTRIES
    && DistinctKeys(st.entries)
    && (forall i :: 0 <= i < |st.entries| ==> GoodEntry(st.entries[i]))
    && (st.group.Some? ==> NL !in st.group.value)
  }

  lemma CommentGood(st: ParseState, comment: string, following: seq<string>)
    requires GoodState(st) && NL !in comment
    ensures GoodState(Comment(st, comment, following))
  {
    hide NormalizeGroupName, NonBlank, FirstNonComment, ParseAssignment, GoodEntry;
    var heading := ParseGroupHeading(comment);
    if heading.Some? {
      var inner := comment[1..][..|comment| - 2];
      if NL in heading.value { NormalizedCharacters(inner, NL); }
    } else if st.boundary && InferPlainGroup(following, comment).Some? {
      if NL in InferPlainGroup(following, comment).value { NormalizedCharacters(comment, NL); }
    }
  }

  lemma RecordGood(st: ParseState, line: nat, result: Result<Entry>)
    requires GoodState(st) && |st.entries| < MAX_ENTRIES
    requires result.Ok? ==> ValidKey(result.value.key) && Utf8Len(result.value.value) <= MAX_VALUE_BYTES
    ensures GoodState(Record(st, line, result))
    ensures st.entries <= Record(st, line, result).entries
  {
    hide ValidKey, Utf8Len;
    if result.Ok? && result.value.key !in Keys(st.entries) {
      forall i | 0 <= i < |st.entries| ensures st.entries[i].key != result.value.key {
        assert st.entries[i] in st.entries;
      }
    }
  }

  lemma AssignmentGood(line: string)
    ensures var r := ParseAssignment(line);
            r.Ok? ==> ValidKey(r.value.key) && Utf8Len(r.value.value) <= MAX_VALUE_BYTES
  {
    hide Trim, StripExport, ParseValue, Utf8Len;
  }

  lemma TurnGood(rest: seq<string>, index: nat, st: ParseState)
    requires rest != [] && NL !in rest[0] && GoodState(st)
    ensures GoodState(ReadTurn(rest, index, st).state)
    ensures st.entries <= ReadTurn(rest, index, st).state.entries
  {
    hide Comment, Record, ParseAssignment, Collect, ReadOpening, GoodState;
    match Classify(rest[0], index) {
      case Blank => KeepsGood(st);
      case CommentLine(text) =>
        ClassifiedComment(rest[0], index, NL);
        CommentGood(st, text, rest[1..]);
        CommentKeepsEntries(st, text, rest[1..]);
      case AssignmentLine(line) =>
        KeepsGood(st);
        if |st.entries| < MAX_ENTRIES {
          var parsed := ParseMultiline(line, rest[1..]);
          ParsedGood(line, rest[1..]);
          RecordGood(st, index + 1, parsed.0);
        }
    }
  }

  lemma KeepsGood(st: ParseState)
    requires GoodState(st)
    ensures GoodState(st.(boundary := true))
    ensures forall issues :: GoodState(st.(issues := issues))
  {
  }

  lemma CommentKeepsEntries(st: ParseState, comment: string, following: seq<string>)
    ensures Comment(st, comment, following).entries == st.entries
  {
    hide InferPlainGroup, ParseGroupHeading;
  }

  lemma ParsedGood(line: string, rest: seq<string>)
    ensures var r := ParseMultiline(line, rest).0;
            r.Ok? ==> ValidKey(r.value.key) && Utf8Len(r.value.value) <= MAX_VALUE_BYTES
  {
    hide ParseAssignment, ReadOpening, Collect;
    match ReadOpening(line) {
      case Refused(m) =>
      case Complete(start) => AssignmentGood(start);
      case Open(start, quote) => AssignmentGood(Collect(start, rest, quote).0);
    }
  }

  lemma ClassifiedComment(physical: string, index: nat, c: char)
    requires Classify(physical, index).CommentLine? && c !in physical
    ensures c !in Classify(physical, index).text
  {
    hide TrimMatches;
    var line := StripBom(physical, index);
    var trimmed := Trim(line);
    if c in Trim(trimmed[1..]) {
      TrimCharacters(trimmed[1..], IsWhite, c);
      TrimCharacters(line, IsWhite, c);
    }
  }

  /** Entries are only appended, and every entry read is well formed. */
  lemma {:induction false} LinesGood(rest: seq<string>, index: nat, st: ParseState)
    requires GoodState(st) && forall i :: 0 <= i < |rest| ==> NL !in rest[i]
    ensures GoodState(ParseLines(rest, index, st))
    ensures st.entries <= ParseLines(rest, index, st).entries
    decreases |rest|
  {
    hide ReadTurn, GoodState;
    if rest != [] {
      TurnGood(rest, index, st);
      var t := ReadTurn(rest, index, st);
      if !t.stop { LinesGood(rest[t.taken..], index + t.taken, t.state); }
    }
  }

  lemma LinesHaveNoFeeds(s: string)
    ensures forall i :: 0 <= i < |Lines(s)| ==> NL !in Lines(s)[i]
  {
    hide Split;
    SplitParts(s);
    var parts := Split(s);
    forall i | 0 <= i < |Lines(s)| ensures NL !in Lines(s)[i] {
      assert Lines(s)[i] == parts[i] || Lines(s)[i] == DropCr(parts[i]);
    }
  }

  /** Whatever the input, a report holds at most 500 entries with valid and distinct keys. */
  lemma ReadingIsGood(input: string)
    ensures var report := Parse(input);
      && |report.entries| <= MAX_ENTRIES
      && DistinctKeys(report.entries)
      && (forall i :: 0 <= i < |report.entries| ==> GoodEntry(report.entries[i]))
      && (report.entries == [] ==> report.issues != [])
  {
    hide ParseLines, Lines;
    LinesHaveNoFeeds(input);
    LinesGood(Lines(input), 0, START);
  }

  // ----- a group that is not its own normal form

  lemma BracketedNormal(group: string)
    ensures NormalizeGroupName("[" + group + "]") != Some(group)
  {
    var comment := "[" + group + "]";
    TrimFixed(comment, IsWhite);
    TrimFixed(comment, IsGroupDecoration);
    assert |comment| == |group| + 2;
  }

  lemma UnfixedComment(st: ParseState, group: string, following: seq<string>)
    requires NormalizeGroupName(group) != Some(group) && st.group != Some(group)
    ensures Comment(st, "[" + group + "]", following).group != Some(group)
    ensures Comment(st, "[" + group + "]", following).entries == st.entries
  {
    hide NormalizeGroupName, ParseGroupHeading, NonBlank, FirstNonComment, ParseAssignment;
    HeadingName(group);
    BracketedNormal(group);
  }

  /** After the heading of such a group the current group is another one. */
  lemma UnfixedHead(e: Entry, previous: Option<string>, first: bool, tail: seq<string>, index: nat, st: ParseState)
    returns (st': ParseState)
    requires e.group.Some? && NormalizeGroupName(e.group.value) != e.group
    requires previous != e.group && st.group == previous
    ensures st'.entries == st.entries && st'.group != e.group
    ensures ParseLines(HeadLines(e, previous, first) + tail, index, st) ==
            ParseLines(tail, index + |HeadLines(e, previous, first)|, st')
  {
    hide ReadTurn, NormalizeGroupName, HeadingLine;
    var head := HeadLines(e, previous, first);
    var heading := [HeadingLine(e.group.value)] + tail;
    var next := index;
    st' := st;
    if !first {
      BlankTurn(heading, index, st);
      assert head + tail == [""] + heading;
      assert ([""] + heading)[1..] == heading;
      st' := st.(boundary := true);
      next := index + 1;
    } else {
      assert head + tail == heading;
    }
    assert heading[1..] == tail;
    UnfixedTurn(e.group.value, tail, next, st');
    st' := Comment(st', "[" + e.group.value + "]", tail);
    UnfixedComment(if first then st else st.(boundary := true), e.group.value, tail);
  }

  lemma UnfixedTurn(group: string, rest: seq<string>, index: nat, st: ParseState)
    ensures ReadTurn([HeadingLine(group)] + rest, index, st) == Turn(Comment(st, "[" + group + "]", rest), 1, false)
  {
    hide Classify, HeadingLine, Comment;
    HeadingComment(group, index);
    assert ([HeadingLine(group)] + rest)[1..] == rest;
  }

  predicate FixedGroup(group: Option<string>) {
    group.Some? ==> NormalizeGroupName(group.value) == group
  }

  predicate GoodEntries(es: seq<Entry>) {
    forall i :: 0 <= i < |es| ==> GoodEntry(es[i]) && !HasNul(es[i])
  }

  lemma GoodIsLined(es: seq<Entry>)
    requires forall i :: 0 <= i < |es| ==> GoodEntry(es[i])
    ensures Lined(es)
  {
    hide ValidKey;
    forall i | 0 <= i < |es|
      ensures ValidKey(es[i].key) && (es[i].group.Some? ==> NL !in es[i].group.value)
    {
      assert GoodEntry(es[i]);
    }
  }

  lemma {:induction false} UnfixedChanges(es: seq<Entry>, previous: Option<string>, first: bool, index: nat, st: ParseState)
    requires Grouped(es) && (es != [] && es[0].group.None? ==> previous.None?) && st.group == previous
    requires DistinctKeys(es) && (forall i :: 0 <= i < |es| ==> es[i].key !in Keys(st.entries))
    requires GoodEntries(es) && |st.entries| + |es| <= MAX_ENTRIES && FixedGroup(previous)
    requires exists i :: 0 <= i < |es| && !FixedGroup(es[i].group)
    ensures ParseLines(RenderLines(es, previous, first), index, st).entries != st.entries + Renumber(es, |st.entries|)
  {
    hide ParseLines, RecordLines, HeadLines, HasNul, GoodEntry, FixedGroup, WritableEntry;
    var e, rest := es[0], es[1..];
    var tail := RenderLines(rest, e.group, false);
    if FixedGroup(e.group) {
      EntryConditions(e);
      var index', st' := ParseEntry(e, previous, first, tail, index, st);
      RestOfEntries(es, st, st');
      UnfixedChanges(rest, e.group, false, index', st');
      assert st.entries + ([e.(position := |st.entries|)] + Renumber(rest, |st.entries| + 1)) ==
             st'.entries + Renumber(rest, |st.entries| + 1);
    } else {
      UnfixedFirst(es, previous, first, index, st);
    }
  }

  lemma RestOfEntries(es: seq<Entry>, st: ParseState, st': ParseState)
    requires es != [] && Grouped(es) && DistinctKeys(es) && GoodEntries(es)
    requires FixedGroup(es[0].group) && exists i :: 0 <= i < |es| && !FixedGroup(es[i].group)
    requires forall i :: 0 <= i < |es| ==> es[i].key !in Keys(st.entries)
    requires st'.entries == st.entries + [es[0].(position := |st.entries|)]
    ensures Grouped(es[1..]) && DistinctKeys(es[1..]) && GoodEntries(es[1..])
    ensures exists i :: 0 <= i < |es[1..]| && !FixedGroup(es[1..][i].group)
    ensures forall i :: 0 <= i < |es[1..]| ==> es[1..][i].key !in Keys(st'.entries)
  {
    hide HasNul, GoodEntry, FixedGroup;
    var rest := es[1..];
    var i :| 0 <= i < |es| && !FixedGroup(es[i].group);
    assert !FixedGroup(rest[i - 1].group);
    forall i | 0 <= i < |rest| ensures rest[i].key !in Keys(st'.entries) { assert rest[i] == es[i + 1]; }
  }

  lemma UnfixedFirst(es: seq<Entry>, previous: Option<string>, first: bool, index: nat, st: ParseState)
    requires es != [] && !FixedGroup(es[0].group) && FixedGroup(previous) && st.group == previous
    requires GoodEntry(es[0]) && es[0].key !in Keys(st.entries) && |st.entries| < MAX_ENTRIES
    ensures ParseLines(RenderLines(es, previous, first), index, st).entries != st.entries + Renumber(es, |st.entries|)
  {
    hide ParseLines, ValidKey, RecordLines, HeadLines, NormalizeGroupName, Utf8Len;
    var e := es[0];
    var tail := RenderLines(es[1..], e.group, false);
    var head, record := HeadLines(e, previous, first), RecordLines(e);
    assert head + record + tail == head + (record + tail);
    var st1 := UnfixedHead(e, previous, first, record + tail, index, st);
    var st2 := st1.(entries := st1.entries + [Entry(e.key, e.value, st1.group, |st1.entries|)], boundary := false);
    ParseRecord(e, tail, index + |head|, st1);
    var final := ParseLines(tail, index + |head| + |record|, st2);
    Appended(tail, index + |head| + |record|, st2);
    assert final.entries[|st.entries|] == st2.entries[|st.entries|];
    assert (st.entries + Renumber(es, |st.entries|))[|st.entries|].group == e.group;
  }

  /** Reading further lines keeps the entries read so far. */
  lemma {:induction false} Appended(rest: seq<string>, index: nat, st: ParseState)
    ensures st.entries <= ParseLines(rest, index, st).entries
    decreases |rest|
  {
    hide ReadTurn;
    if rest != [] {
      TurnAppends(rest, index, st);
      var t := ReadTurn(rest, index, st);
      if !t.stop { Appended(rest[t.taken..], index + t.taken, t.state); }
    }
  }

  lemma TurnAppends(rest: seq<string>, index: nat, st: ParseState)
    requires rest != []
    ensures st.entries <= ReadTurn(rest, index, st).state.entries
  {
    hide Comment, ParseMultiline, Classify;
    match Classify(rest[0], index) {
      case Blank =>
      case CommentLine(text) => CommentKeepsEntries(st, text, rest[1..]);
      case AssignmentLine(line) =>
    }
  }

  // ----- the exact condition

  lemma CanonicalTells(es: seq<Entry>)
    requires DistinctKeys(Canonical(es)) && forall i :: 0 <= i < |Canonical(es)| ==> GoodEntry(Canonical(es)[i])
    ensures DistinctKeys(es) && DistinctKeys(Ordered(es))
    ensures forall i :: 0 <= i < |es| ==> GoodEntry(es[i])
    ensures forall i :: 0 <= i < |Ordered(es)| ==> GoodEntry(Ordered(es)[i])
  {
    hide Ordered, Canonical, ValidKey, Utf8Len;
    CanonicalProperties(es);
    OrderedProperties(es);
    var ordered := Ordered(es);
    forall i, j | 0 <= i < j < |ordered| ensures ordered[i].key != ordered[j].key {
      assert Canonical(es)[i].key != Canonical(es)[j].key;
    }
    DistinctOfPermutation(ordered, es);
    forall i | 0 <= i < |es| ensures GoodEntry(ordered[i]) {
      assert GoodEntry(Canonical(es)[i]);
    }
    forall i | 0 <= i < |es| ensures GoodEntry(es[i]) {
      OrderedMembers(es, i);
      var j :| 0 <= j < |ordered| && ordered[j] == es[i];
    }
  }

  /** A list comes back unchanged only when it is writable. */
  lemma OnlyWritableReturns(es: seq<Entry>)
    requires Parse(Render(es)) == ParseReport(Canonical(es), [])
    ensures Writable(es)
  {
    hide Canonical, ParseLines, Ordered, RenderOrdered, Lines, GoodEntry, NormalizeGroupName, HasNul, Utf8Len, WritableEntry;
    ReadingIsGood(Render(es));
    CanonicalTells(es);
    CanonicalProperties(es);
    var ordered := Ordered(es);
    OrderedProperties(es);
    GoodIsLined(ordered);
    NulInRender(ordered);
    LinesOfRendered(ordered);
    NumberedFromZero(es);
    AllGroupsFixed(es);
    forall i | 0 <= i < |es| ensures WritableEntry(es[i]) {
      MemberOfOrdered(es, i);
      EntryConditions(es[i]);
    }
  }

  /** A group that its normal form changes does not come back. */
  lemma AllGroupsFixed(es: seq<Entry>)
    requires Parse(Render(es)) == ParseReport(Canonical(es), [])
    requires GoodEntries(Ordered(es)) && DistinctKeys(Ordered(es)) && Grouped(Ordered(es)) && |Ordered(es)| <= MAX_ENTRIES && Lines(Render(es)) == RenderLines(Ordered(es), None, true)
    ensures forall i :: 0 <= i < |Ordered(es)| ==> FixedGroup(Ordered(es)[i].group)
  {
    hide Canonical, ParseLines, Ordered, RenderOrdered, Lines, GoodEntry, NormalizeGroupName, HasNul, Utf8Len;
    NumberedFromZero(es);
    if exists i :: 0 <= i < |Ordered(es)| && !FixedGroup(Ordered(es)[i].group) {
      UnfixedChanges(Ordered(es), None, true, 0, START);
    }
  }

  lemma MemberOfOrdered(es: seq<Entry>, i: nat)
    requires i < |es| && GoodEntries(Ordered(es)) && forall k :: 0 <= k < |Ordered(es)| ==> FixedGroup(Ordered(es)[k].group)
    ensures FixedGroup(es[i].group) && !HasNul(es[i]) && GoodEntry(es[i])
  {
    hide Ordered, GoodEntry, NormalizeGroupName, HasNul;
    OrderedProperties(es);
    assert es[i] in multiset(Ordered(es));
    var j :| 0 <= j < |Ordered(es)| && Ordered(es)[j] == es[i];
    assert FixedGroup(Ordered(es)[j].group);
  }

  lemma NumberedFromZero(es: seq<Entry>)
    ensures [] + Renumber(Ordered(es), 0) == Canonical(es)
  {
  }

  lemma EntryConditions(e: Entry)
    requires FixedGroup(e.group) && !HasNul(e) && GoodEntry(e)
    ensures WritableEntry(e)
  {
    hide ValidKey, NormalizeGroupName, Utf8Len;
  }

  /**
   * The round trip of the `.env` language: reading a written list reports no issue and gives the
   * canonical list exactly when the list is writable.
   */
  lemma RoundTripExactly(es: seq<Entry>)
    ensures Parse(Render(es)) == ParseReport(Canonical(es), []) <==> Writable(es)
  {
    if Writable(es) { ParseOfRender(es); }
    if Parse(Render(es)) == ParseReport(Canonical(es), []) { OnlyWritableReturns(es); }
  }

  /** The text is a fixed point of reading and writing. */
  lemma RenderedTextIsStable(es: seq<Entry>)
    requires Writable(es)
    ensures Render(Parse(Render(es)).entries) == Render(es)
    ensures Writable(Canonical(es)) && Canonical(Canonical(es)) == Canonical(es)
  {
    hide Render, Canonical, Parse;
    ParseOfRender(es);
    RenderCanonical(es);
    CanonicalAgain(es);
    OnlyWritableReturns(Canonical(es));
  }

  lemma CanonicalAgain(es: seq<Entry>)
    ensures Canonical(Canonical(es)) == Canonical(es)
  {
    hide Ordered;
    var c := Canonical(es);
    RenderCanonical(es);
    CanonicalProperties(es);
    RenumberAt(c, 0);
    RenumberAt(Ordered(es), 0);
    assert Renumber(c, 0) == c;
  }

  /** A group name that its own normal form changes: the heading is read under another name. */
  lemma UnstableGroup()
    ensures NormalizeGroupName("=\t=x") == Some("=x") && NormalizeGroupName("=x") == Some("x")
    ensures !Writable([Entry("A", "1", Some("=x"), 0)])
  {
    Normal("=\t=x");
    Normal("=x");
    assert !WritableEntry(Entry("A", "1", Some("=x"), 0));
  }

  lemma Normal(s: string)
    requires s == "=\t=x" || s == "=x"
    ensures NormalizeGroupName(s) == Some(if s == "=x" then "x" else "=x")
  {
    TrimFixed(s, IsWhite);
    assert SkipFrom(s, IsGroupDecoration, 0) == 1;
    var a := DropWhile(s, IsGroupDecoration);
    assert a == s[1..];
    assert SkipBack(a, IsGroupDecoration, |a|) == |a|;
    assert TrimMatches(s, IsGroupDecoration) == a;
    if s == "=x" {
      TrimFixed(a, IsWhite);
    } else {
      assert SkipFrom(a, IsWhite, 1) == 1;
      assert SkipFrom(a, IsWhite, 0) == 1;
      assert DropWhile(a, IsWhite) == "=x";
      TrimFixed("=x", IsWhite);
      assert SkipBack("=x", IsWhite, 2) == 2;
    }
  }
}
