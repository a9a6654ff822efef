/** Exactly when the browser's copy equals a fresh rendering of the selected entries. */
module BrowserCopyExact {
  import opened Text
  import opened Dotenv
  import opened DotenvRender
  import opened DotenvRoundTrip
  import opened BrowserCopy

  /** The current heading is one the browser recognised. */
  ghost predicate Recognised(current: Option<string>) {
    current.Some? ==> exists h :: OneLineName(Some(h)) && current.value == HeadingLine(h)
  }

  /** The current heading is that of the group being read, unless its name is not on one line. */
  ghost predicate Tracks(current: Option<string>, group: Option<string>) {
    Recognised(current) && (OneLineName(group) ==> current == Heading(group))
  }

  lemma HeadCopied(e: Entry, previous: Option<string>, first: bool, tail: seq<string>, st: Copy, selected: set<string>)
    returns (st': Copy)
    requires StoredGroup(e.group) && (e.group.None? ==> previous.None?) && Tracks(st.current, previous)
    ensures st' == st.(current := st'.current) && Tracks(st'.current, e.group)
    ensures CopyLines(HeadLines(e, previous, first) + tail, st, selected) == CopyLines(tail, st', selected)
  {
    hide CopyTurn, OneLineName, HeadingLine;
    var head := HeadLines(e, previous, first);
    st' := st;
    if e.group == previous {
      assert head + tail == tail;
    } else {
      var heading := [HeadingLine(e.group.value)] + tail;
      if first {
        assert head + tail == heading;
      } else {
        CopyBlankTurn(heading, st, selected);
        assert head + tail == [""] + heading;
        assert ([""] + heading)[1..] == heading;
      }
      CopyHeadingTurn(e.group.value, tail, st, selected);
      assert heading[1..] == tail;
      if OneLineName(e.group) { st' := st.(current := Heading(e.group)); }
    }
  }

  lemma RecordCopied(e: Entry, tail: seq<string>, st: Copy, selected: set<string>)
    requires ValidKey(e.key)
    ensures CopyLines(RecordLines(e) + tail, st, selected) ==
            CopyLines(tail, if e.key in selected then CopyRecord(st, RecordLines(e)) else st, selected)
  {
    hide CopyTurn, ValidKey, RecordLines, CopyRecord;
    CopyRecordTurn(e, tail, st, selected);
    assert (RecordLines(e) + tail)[|RecordLines(e)|..] == tail;
  }

  /** The copy made so far stands for the filtered entries up to here, the last one in group `last`. */
  ghost predicate InStep(st: Copy, previous: Option<string>, last: Option<string>) {
    Tracks(st.current, previous) && st.emitted == Heading(last) && OneLineName(last)
  }

  lemma CopyOfGroup(st: Copy, e: Entry, last: Option<string>)
    requires InStep(st, e.group, last) && OneLineName(e.group)
    requires e.group.None? ==> last.None?
    ensures CopyRecord(st, RecordLines(e)).output == st.output + (HeadLines(e, last, st.output == []) + RecordLines(e))
    ensures InStep(CopyRecord(st, RecordLines(e)), e.group, e.group)
  {
    hide RecordLines, HeadingLine, OneLineName;
    if e.group.Some? && last.Some? && Heading(e.group) == Heading(last) {
      HeadingInjective(e.group.value, last.value);
    }
    assert st.output + [] == st.output;
  }

  /** One entry, when it is not selected or its group is on one line. */
  lemma EntryCopied(e: Entry, previous: Option<string>, first: bool, last: Option<string>, tail: seq<string>, st: Copy, selected: set<string>)
    returns (st': Copy)
    requires ValidKey(e.key) && StoredGroup(e.group) && InStep(st, previous, last)
    requires e.group.None? ==> previous.None? && last.None?
    requires e.key in selected ==> OneLineName(e.group)
    ensures InStep(st', e.group, if e.key in selected then e.group else last)
    ensures st'.output == st.output +
              (if e.key in selected then HeadLines(e, last, st.output == []) + RecordLines(e) else [])
    ensures CopyLines(HeadLines(e, previous, first) + RecordLines(e) + tail, st, selected) ==
            CopyLines(tail, st', selected)
  {
    hide CopyLines, ValidKey, RecordLines, HeadLines, CopyRecord, OneLineName;
    var head, record := HeadLines(e, previous, first), RecordLines(e);
    assert head + record + tail == head + (record + tail);
    st' := HeadCopied(e, previous, first, record + tail, st, selected);
    RecordCopied(e, tail, st', selected);
    if e.key in selected {
      CopyOfGroup(st', e, last);
      st' := CopyRecord(st', record);
    } else {
      assert st.output + [] == st.output;
    }
  }

  predicate UngroupedFirst(es: seq<Entry>, group: Option<string>) {
    && (forall i :: 0 <= i < |es| && es[i].group.None? ==> group.None?)
    && (forall i, j :: 0 <= i < j < |es| && es[j].group.None? ==> es[i].group.None?)
  }

  predicate AllOneLine(es: seq<Entry>, selected: set<string>) {
    forall i :: 0 <= i < |es| && es[i].key in selected ==> OneLineName(es[i].group)
  }

  /** What rendering the selected entries adds to the lines copied so far. */
  function Expected(es: seq<Entry>, last: Option<string>, output: seq<string>, selected: set<string>): seq<string> {
    output + RenderLines(Filter(es, selected), last, output == [])
  }

  lemma ExpectedStep(es: seq<Entry>, last: Option<string>, output: seq<string>, selected: set<string>)
    requires es != []
    ensures var e := es[0];
            var output' := output + (if e.key in selected then HeadLines(e, last, output == []) + RecordLines(e) else []);
            Expected(es, last, output, selected) ==
            Expected(es[1..], if e.key in selected then e.group else last, output', selected)
  {
    hide RecordLines, HeadLines;
    var e := es[0];
    if e.key in selected {
      assert Filter(es, selected)[1..] == Filter(es[1..], selected);
      var block := HeadLines(e, last, output == []) + RecordLines(e);
      assert output + (block + RenderLines(Filter(es[1..], selected), e.group, false)) ==
             (output + block) + RenderLines(Filter(es[1..], selected), e.group, false);
      assert block != [];
    } else {
      assert Filter(es, selected) == Filter(es[1..], selected);
      assert output + [] == output;
    }
  }

  lemma RestStored(es: seq<Entry>, previous: Option<string>, last: Option<string>, selected: set<string>)
    requires es != [] && Stored(es) && UngroupedFirst(es, previous) && UngroupedFirst(es, last)
    ensures Stored(es[1..]) && UngroupedFirst(es[1..], es[0].group) && UngroupedFirst(es[1..], last)
    ensures AllOneLine(es, selected) ==> AllOneLine(es[1..], selected)
    ensures !AllOneLine(es, selected) && !(es[0].key in selected && !OneLineName(es[0].group)) ==> !AllOneLine(es[1..], selected)
  {
    hide ValidKey, StoredGroup, OneLineName;
    var rest := es[1..];
    if i :| 0 <= i < |es| && es[i].key in selected && !OneLineName(es[i].group) {
      if i > 0 { assert rest[i - 1] == es[i]; }
    }
  }

  lemma {:induction false} LinesCopied(es: seq<Entry>, previous: Option<string>, first: bool, last: Option<string>, st: Copy, selected: set<string>)
    requires Stored(es) && InStep(st, previous, last)
    requires UngroupedFirst(es, previous) && UngroupedFirst(es, last)
    ensures (CopyLines(RenderLines(es, previous, first) + [""], st, selected) ==
               Some(Expected(es, last, st.output, selected))) <==> AllOneLine(es, selected)
  {
    hide CopyTurn, ValidKey, RecordLines, HeadLines, OneLineName, StoredGroup, InStep, Expected, AllOneLine, UngroupedFirst;
    if es == [] {
      NothingCopied(last, st, selected);
    } else {
      var e, rest := es[0], es[1..];
      var tail := RenderLines(rest, e.group, false) + [""];
      assert RenderLines(es, previous, first) + [""] == HeadLines(e, previous, first) + RecordLines(e) + tail;
      FirstStored(es, previous, last);
      RestStored(es, previous, last, selected);
      if e.key in selected && !OneLineName(e.group) {
        WrongHeading(es, previous, first, last, tail, st, selected);
        assert !AllOneLine(es, selected) by { FirstNotOneLine(es, selected); }
      } else {
        var st' := EntryCopied(e, previous, first, last, tail, st, selected);
        ExpectedStep(es, last, st.output, selected);
        LastStored(rest, e, last, selected);
        LinesCopied(rest, e.group, false, if e.key in selected then e.group else last, st', selected);
      }
    }
  }

  lemma FirstStored(es: seq<Entry>, previous: Option<string>, last: Option<string>)
    requires es != [] && Stored(es) && UngroupedFirst(es, previous) && UngroupedFirst(es, last)
    ensures ValidKey(es[0].key) && StoredGroup(es[0].group) && (es[0].group.None? ==> previous.None? && last.None?)
  {
    hide ValidKey, StoredGroup;
  }

  lemma FirstNotOneLine(es: seq<Entry>, selected: set<string>)
    requires es != [] && es[0].key in selected && !OneLineName(es[0].group)
    ensures !AllOneLine(es, selected)
  {
  }

  lemma LastStored(rest: seq<Entry>, e: Entry, last: Option<string>, selected: set<string>)
    requires UngroupedFirst(rest, e.group) && UngroupedFirst(rest, last)
    ensures UngroupedFirst(rest, if e.key in selected then e.group else last)
  {
  }

  lemma NothingCopied(last: Option<string>, st: Copy, selected: set<string>)
    ensures RenderLines([], None, true) + [""] == [""]
    ensures CopyLines([""], st, selected) == Some(Expected([], last, st.output, selected))
    ensures AllOneLine([], selected)
  {
    hide CopyTurn;
    CopyBlankTurn([], st, selected);
    assert [""] + [] == [""] && [""][1..] == [];
    assert st.output + [] == st.output;
  }

  /** Copied lines are never taken back. */
  lemma {:induction false} CopyExtends(rest: seq<string>, st: Copy, selected: set<string>)
    ensures var r := CopyLines(rest, st, selected); r.Some? ==> st.output <= r.value
    decreases |rest|
  {
    hide CopyTurn;
    if rest != [] {
      TurnExtends(rest, st, selected);
      match CopyTurn(rest, st, selected) {
        case Failed =>
        case Took(st', n) => CopyExtends(rest[n..], st', selected);
      }
    }
  }

  lemma TurnExtends(rest: seq<string>, st: Copy, selected: set<string>)
    requires rest != []
    ensures var t := CopyTurn(rest, st, selected); t.Took? ==> st.output <= t.state.output
  {
    hide IsHeading, RecordTail, JsTrim, Find;
  }

  /** A selected entry whose group name is not on one line is copied without its heading. */
  lemma WrongHeading(es: seq<Entry>, previous: Option<string>, first: bool, last: Option<string>, tail: seq<string>, st: Copy, selected: set<string>)
    requires es != [] && ValidKey(es[0].key) && StoredGroup(es[0].group) && InStep(st, previous, last)
    requires es[0].group.None? ==> previous.None?
    requires es[0].key in selected && !OneLineName(es[0].group)
    ensures CopyLines(HeadLines(es[0], previous, first) + RecordLines(es[0]) + tail, st, selected) !=
            Some(Expected(es, last, st.output, selected))
  {
    hide CopyLines, ValidKey, RecordLines, CopyRecord, OneLineName;
    var e := es[0];
    var head, record := HeadLines(e, previous, first), RecordLines(e);
    assert head + record + tail == head + (record + tail);
    var st1 := HeadCopied(e, previous, first, record + tail, st, selected);
    RecordCopied(e, tail, st1, selected);
    var st2 := CopyRecord(st1, record);
    CopyExtends(tail, st2, selected);
    RecordStart(e);
    NotOneLine(e.group);
    WithoutHeading(st1, e.group, record);
    var k, expected := |st.output|, Expected(es, last, st.output, selected);
    assert Filter(es, selected)[0] == e;
    HeadOf(e, last, st.output == []);
    assert expected[k..] == RenderLines(Filter(es, selected), last, st.output == []);
    assert st.output + HeadLines(e, last, st.output == []) <= expected;
  }

  lemma RecordStart(e: Entry)
    requires ValidKey(e.key)
    ensures RecordLines(e)[0] != "" && RecordLines(e)[0][0] != '#'
  {
    hide ValidKey;
    FirstRecordLine(e);
    KeyText(e.key);
    assert RecordLines(e)[0][0] == e.key[0];
  }

  lemma HeadOf(e: Entry, last: Option<string>, first: bool)
    requires e.group.Some? && e.group != last
    ensures HeadLines(e, last, first) == if first then [HeadingLine(e.group.value)] else ["", HeadingLine(e.group.value)]
    ensures HeadingLine(e.group.value) != "" && HeadingLine(e.group.value)[0] == '#'
  {
    HeadingStart(e.group.value);
  }

  lemma NotOneLine(group: Option<string>)
    requires !OneLineName(group)
    ensures group.Some?
  {
  }

  lemma WithoutHeading(st: Copy, group: Option<string>, record: seq<string>)
    requires group.Some? && !OneLineName(group) && Recognised(st.current)
    requires record != [] && record[0] != "" && record[0][0] != '#'
    ensures var output, k := CopyRecord(st, record).output, |st.output|;
      && |output| > k
      && (st.output == [] ==> output[k] != HeadingLine(group.value))
      && (st.output != [] ==> output[k] != "" || (|output| > k + 1 && output[k + 1] != HeadingLine(group.value)))
  {
    hide OneLineName, HeadingLine;
    HeadingStart(group.value);
    if st.current.Some? {
      var h :| OneLineName(Some(h)) && st.current.value == HeadingLine(h);
      if HeadingLine(h) == HeadingLine(group.value) { HeadingInjective(h, group.value); }
    }
  }

  // ----- texts

  lemma {:induction false} CopiedLines(rest: seq<string>, st: Copy, selected: set<string>)
    requires forall i :: 0 <= i < |rest| ==> NL !in rest[i]
    requires (st.current.Some? ==> NL !in st.current.value) && forall i :: 0 <= i < |st.output| ==> NL !in st.output[i]
    ensures var r := CopyLines(rest, st, selected);
            r.Some? ==> forall i :: 0 <= i < |r.value| ==> NL !in r.value[i]
    decreases |rest|
  {
    hide IsHeading, RecordTail, JsTrim, Find;
    if rest != [] {
      match CopyTurn(rest, st, selected) {
        case Failed =>
        case Took(st', n) =>
          TurnLines(rest, st, selected);
          CopiedLines(rest[n..], st', selected);
      }
    }
  }

  lemma TurnLines(rest: seq<string>, st: Copy, selected: set<string>)
    requires rest != [] && forall i :: 0 <= i < |rest| ==> NL !in rest[i]
    requires (st.current.Some? ==> NL !in st.current.value) && forall i :: 0 <= i < |st.output| ==> NL !in st.output[i]
    ensures var t := CopyTurn(rest, st, selected);
            t.Took? ==> (t.state.current.Some? ==> NL !in t.state.current.value) &&
                        forall i :: 0 <= i < |t.state.output| ==> NL !in t.state.output[i]
  {
    hide IsHeading, RecordTail, JsTrim, Find;
  }

  lemma StoredIsLined(es: seq<Entry>)
    requires Stored(es)
    ensures Lined(es)
  {
    hide ValidKey;
  }

  lemma {:induction false} FilterOf(es: seq<Entry>, selected: set<string>)
    ensures forall e :: e in Filter(es, selected) <==> e in es && e.key in selected
    ensures forall i :: 0 <= i < |Filter(es, selected)| ==> Filter(es, selected)[i] in es
  {
    if es != [] {
      FilterOf(es[1..], selected);
      assert es == [es[0]] + es[1..];
    }
  }

  /** `Grouped`, told by positions instead of indices. */
  predicate GroupedByPosition(es: seq<Entry>) {
    && (forall a, b :: a in es && b in es && a.position < b.position && b.group.None? ==> a.group.None?)
    && (forall a, b, c :: a in es && b in es && c in es && a.position < b.position < c.position && a.group == c.group
          ==> b.group == a.group)
  }

  lemma ToPosition(es: seq<Entry>)
    requires Increasing(es) && Grouped(es)
    ensures GroupedByPosition(es)
  {
    forall a, b, c | a in es && b in es && c in es && a.position < b.position < c.position && a.group == c.group
      ensures b.group == a.group
    {
      var i :| 0 <= i < |es| && es[i] == a;
      var j :| 0 <= j < |es| && es[j] == b;
      var k :| 0 <= k < |es| && es[k] == c;
    }
    forall a, b | a in es && b in es && a.position < b.position && b.group.None? ensures a.group.None? {
      var i :| 0 <= i < |es| && es[i] == a;
      var j :| 0 <= j < |es| && es[j] == b;
    }
  }

  lemma FromPosition(es: seq<Entry>)
    requires Increasing(es) && GroupedByPosition(es)
    ensures Grouped(es)
  {
    forall i, j, k | 0 <= i < j < k < |es| && es[i].group == es[k].group ensures es[j].group == es[i].group {
      var a, b, c := es[i], es[j], es[k];
      assert a in es && b in es && c in es;
    }
    forall i, j | 0 <= i < j < |es| && es[j].group.None? ensures es[i].group.None? {
      var a, b := es[i], es[j];
      assert a in es && b in es;
    }
  }

  lemma {:induction false} FilterIncreasing(es: seq<Entry>, selected: set<string>)
    requires Increasing(es)
    ensures Increasing(Filter(es, selected))
  {
    if es != [] {
      var f := Filter(es[1..], selected);
      FilterIncreasing(es[1..], selected);
      FilterOf(es[1..], selected);
      forall i | 0 <= i < |f| ensures es[0].position < f[i].position {
        var k :| 0 <= k < |es[1..]| && es[1..][k] == f[i];
        assert es[k + 1] == f[i];
      }
    }
  }

  /** A part of a canonical list is canonical. */
  lemma FilterGrouped(es: seq<Entry>, selected: set<string>)
    requires Grouped(es) && Increasing(es)
    ensures Grouped(Filter(es, selected)) && Increasing(Filter(es, selected))
  {
    hide Filter, Grouped, Increasing;
    FilterIncreasing(es, selected);
    FilterOf(es, selected);
    ToPosition(es);
    FromPosition(Filter(es, selected));
  }

  lemma RenderCons(e: Entry, rest: seq<Entry>, previous: Option<string>, first: bool)
    ensures RenderLines([e] + rest, previous, first) ==
            HeadLines(e, previous, first) + RecordLines(e) + RenderLines(rest, e.group, false)
  {
    hide RecordLines, HeadLines;
    assert ([e] + rest)[1..] == rest;
  }

  lemma {:induction false} FilterRenumbered(es: seq<Entry>, from: int, selected: set<string>, previous: Option<string>, first: bool)
    ensures RenderLines(Filter(Renumber(es, from), selected), previous, first) ==
            RenderLines(Filter(es, selected), previous, first)
  {
    hide RecordLines, HeadLines, RenderLines;
    if es != [] {
      var e, r := es[0], es[0].(position := from);
      var ns := Renumber(es[1..], from + 1);
      assert Renumber(es, from)[0] == r && Renumber(es, from)[1..] == ns;
      if e.key in selected {
        FilterRenumbered(es[1..], from + 1, selected, e.group, false);
        RenderCons(e, Filter(es[1..], selected), previous, first);
        RenderCons(r, Filter(ns, selected), previous, first);
        SameText(e, from, previous, first);
      } else {
        FilterRenumbered(es[1..], from + 1, selected, previous, first);
        assert [] + Filter(ns, selected) == Filter(ns, selected);
        assert [] + Filter(es[1..], selected) == Filter(es[1..], selected);
      }
    }
  }

  lemma SameText(e: Entry, position: int, previous: Option<string>, first: bool)
    ensures HeadLines(e.(position := position), previous, first) == HeadLines(e, previous, first)
    ensures RecordLines(e.(position := position)) == RecordLines(e)
  {
  }

  /** Rendering the selected part of the canonical list. */
  lemma RenderFiltered(es: seq<Entry>, selected: set<string>)
    ensures Render(Filter(Canonical(es), selected)) == Unlines(RenderLines(Filter(Ordered(es), selected), None, true))
  {
    hide RenderLines, Ordered;
    CanonicalProperties(es);
    FilterGrouped(Canonical(es), selected);
    GroupedIsSorted(Filter(Canonical(es), selected));
    FilterRenumbered(Ordered(es), 0, selected, None, true);
  }

  lemma OrderedStored(es: seq<Entry>)
    requires Stored(es)
    ensures Stored(Ordered(es)) && Grouped(Ordered(es)) && UngroupedFirst(Ordered(es), None)
  {
    hide Ordered, ValidKey, StoredGroup;
    OrderedProperties(es);
    forall i | 0 <= i < |es| ensures ValidKey(Ordered(es)[i].key) && StoredGroup(Ordered(es)[i].group) {
      OrderedMembers(es, i);
    }
  }

  lemma OneLineMembers(es: seq<Entry>, selected: set<string>)
    ensures AllOneLine(es, selected) <==> forall e :: e in es && e.key in selected ==> OneLineName(e.group)
  {
    hide OneLineName;
  }

  lemma OrderedOneLine(es: seq<Entry>, selected: set<string>)
    ensures AllOneLine(Ordered(es), selected) <==> AllOneLine(es, selected)
  {
    hide Ordered, OneLineName, AllOneLine;
    OrderedProperties(es);
    OneLineMembers(es, selected);
    OneLineMembers(Ordered(es), selected);
    assert forall e :: e in es <==> e in multiset(es);
    assert forall e :: e in Ordered(es) <==> e in multiset(Ordered(es));
  }

  lemma FilterStored(es: seq<Entry>, selected: set<string>)
    requires Stored(es)
    ensures Stored(Filter(es, selected))
  {
    hide ValidKey, StoredGroup;
    FilterOf(es, selected);
    forall i | 0 <= i < |Filter(es, selected)|
      ensures ValidKey(Filter(es, selected)[i].key) && StoredGroup(Filter(es, selected)[i].group)
    {
      var j :| 0 <= j < |es| && es[j] == Filter(es, selected)[i];
    }
  }

  /** Texts of lines agree exactly when the lines do. */
  lemma CopiedTextIsUnlines(output: seq<string>, expected: seq<string>)
    requires forall i :: 0 <= i < |output| ==> NL !in output[i]
    requires forall i :: 0 <= i < |expected| ==> NL !in expected[i]
    ensures CopiedText(output) == Unlines(expected) <==> output == expected
  {
    hide Unlines, Join;
    if output == [] {
      assert Unlines([]) == "" by { UnlinesNothing(); }
    } else {
      UnlinesJoin(output);
    }
    if CopiedText(output) == Unlines(expected) { UnlinesInjective(output, expected); }
  }

  lemma UnlinesNothing()
    ensures Unlines([]) == ""
  {
  }

  /**
   * Copying the selected keys out of a rendered text gives what rendering the selected entries of the
   * canonical list gives, byte for byte, exactly when no selected entry stands in a group whose name
   * holds a line terminator of the browser.
   */
  lemma CopyIsRenderExactly(es: seq<Entry>, selected: set<string>)
    requires Stored(es)
    ensures (SelectEntries(Render(es), selected) == Some(Render(Filter(Canonical(es), selected))))
            <==> AllOneLine(es, selected)
  {
    hide RenderLines, Ordered, CopyLines, Filter, Unlines, Canonical, ValidKey, StoredGroup, OneLineName;
    var ordered := Ordered(es);
    var lines := RenderLines(ordered, None, true);
    OrderedStored(es);
    OrderedOneLine(es, selected);
    StoredIsLined(ordered);
    RenderLinesClean(ordered, None, true);
    SplitUnlines(lines);
    RenderFiltered(es, selected);
    FilterStored(ordered, selected);
    StoredIsLined(Filter(ordered, selected));
    RenderLinesClean(Filter(ordered, selected), None, true);
    Begin();
    LinesCopied(ordered, None, true, None, UNSET, selected);
    var expected := RenderLines(Filter(ordered, selected), None, true);
    assert Expected(ordered, None, [], selected) == expected;
    CopiedLines(lines + [""], UNSET, selected);
    var copied := CopyLines(lines + [""], UNSET, selected);
    if copied.Some? { CopiedTextIsUnlines(copied.value, expected); }
  }

  lemma Begin()
    ensures InStep(UNSET, None, None)
  {
  }

  /** A line separator in the name of a group: the browser does not see the heading, so the copy is another text. */
  lemma SeparatedHeading()
    ensures var es := [Entry("A", "1", Some("x\U{2028}y"), 0)];
      Stored(es) && SelectEntries(Render(es), {"A"}) != Some(Render(Filter(Canonical(es), {"A"})))
  {
    hide SelectEntries, Render, Filter, Canonical;
    var name := "x\U{2028}y";
    var es := [Entry("A", "1", Some(name), 0)];
    assert ValidKey("A");
    assert IsLineTerminator(name[1]) && !OneLineName(es[0].group);
    CopyIsRenderExactly(es, {"A"});
  }
}
