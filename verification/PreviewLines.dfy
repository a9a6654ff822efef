/** The line-by-line view of a rendered preview: which lines are new, which are updated. */
module PreviewLines {
  import opened Text
  import opened Dotenv
  import opened DotenvRender
  import opened DotenvRoundTrip
  import opened DotenvScanner
  import opened Model

  datatype Marker = Unmarked | New | Updated

  datatype PreviewLine = PreviewLine(number: nat, text: string, marker: Marker)

  function ActionMarker(action: Action): Marker {
    match action
    case ADD => New
    case UPDATE => Updated
    case DELETE => Unmarked
  }

  /** The marker of the first item that names the key. */
  function MarkerOf(items: seq<Item>, key: string): Marker {
    if items == [] then Unmarked
    else if items[0].key == key then ActionMarker(items[0].action)
    else MarkerOf(items[1..], key)
  }

  /** Each key with the line feeds in its value and its marker; a later entry replaces an earlier one. */
  function Assignments(es: seq<Entry>, items: seq<Item>): map<string, (nat, Marker)> {
    if es == [] then map[]
    else
      var e := es[|es| - 1];
      Assignments(es[..|es| - 1], items)[e.key := (Feeds(e.value), MarkerOf(items, e.key))]
  }

  /** The two variables of the scanner. */
  datatype Scan = Scan(remaining: nat, marker: Marker)

  function ScanLine(st: Scan, line: string, known: map<string, (nat, Marker)>): Scan {
    if st.remaining > 0 then st.(remaining := st.remaining - 1)
    else
      var i := Find(line, '=');
      if i < |line| && line[..i] in known then Scan(known[line[..i]].0, known[line[..i]].1)
      else Scan(0, Unmarked)
  }

  function ScanAll(lines: seq<string>, st: Scan, known: map<string, (nat, Marker)>): Scan {
    if lines == [] then st else ScanAll(lines[1..], ScanLine(st, lines[0], known), known)
  }

  function Markers(lines: seq<string>, st: Scan, known: map<string, (nat, Marker)>): (ms: seq<Marker>)
    ensures |ms| == |lines|
  {
    if lines == [] then []
    else
      var st' := ScanLine(st, lines[0], known);
      [st'.marker] + Markers(lines[1..], st', known)
  }

  function Numbered(texts: seq<string>, markers: seq<Marker>): (r: seq<PreviewLine>)
    requires |texts| == |markers|
  {
    seq(|texts|, i requires 0 <= i < |texts| => PreviewLine(i + 1, texts[i], markers[i]))
  }

  /** `annotate_lines` */
  function Annotated(text: string, es: seq<Entry>, items: seq<Item>): seq<PreviewLine> {
    Numbered(Split(text), Markers(Split(text), Scan(0, Unmarked), Assignments(es, items)))
  }

  // ----- the loops

  method MarkerOfKey(items: seq<Item>, key: string) returns (marker: Marker)
    ensures marker == MarkerOf(items, key)
  {
    var i := 0;
    ghost var rest := items;
    while i < |items|
      invariant 0 <= i <= |items| && rest == items[i..]
      invariant MarkerOf(rest, key) == MarkerOf(items, key)
    {
      if items[i].key == key { return ActionMarker(items[i].action); }
      i := i + 1;
      rest := rest[1..];
    }
    return Unmarked;
  }

  method CountFeeds(s: string) returns (n: nat)
    ensures n == Feeds(s)
  {
    n := 0;
    var i := 0;
    ghost var rest := s;
    while i < |s|
      invariant 0 <= i <= |s| && rest == s[i..]
      invariant n + Feeds(rest) == Feeds(s)
    {
      if s[i] == NL { n := n + 1; }
      i := i + 1;
      rest := rest[1..];
    }
  }

  method CollectAssignments(es: seq<Entry>, items: seq<Item>) returns (known: map<string, (nat, Marker)>)
    ensures known == Assignments(es, items)
  {
    known := map[];
    var i := 0;
    while i < |es|
      invariant 0 <= i <= |es| && known == Assignments(es[..i], items)
    {
      assert es[..i + 1][..i] == es[..i];
      var marker := MarkerOfKey(items, es[i].key);
      var feeds := CountFeeds(es[i].value);
      known := known[es[i].key := (feeds, marker)];
      i := i + 1;
    }
    assert es[..i] == es;
  }

  method AnnotateLines(text: string, es: seq<Entry>, items: seq<Item>) returns (lines: seq<PreviewLine>)
    ensures lines == Annotated(text, es, items)
  {
    hide Split, Assignments, Find;
    var known := CollectAssignments(es, items);
    var parts := Split(text);
    var remaining, marker := 0, Unmarked;
    ghost var all := Markers(parts, Scan(0, Unmarked), known);
    ghost var rest := parts;
    lines := [];
    var i := 0;
    while i < |parts|
      invariant 0 <= i <= |parts| && |lines| == i && rest == parts[i..] && remaining >= 0
      invariant all[i..] == Markers(rest, Scan(remaining, marker), known)
      invariant forall k :: 0 <= k < i ==> lines[k] == PreviewLine(k + 1, parts[k], all[k])
    {
      ghost var st := ScanLine(Scan(remaining, marker), parts[i], known);
      if remaining > 0 {
        remaining := remaining - 1;
      } else {
        marker := Unmarked;
        var at := Find(parts[i], '=');
        if at < |parts[i]| && parts[i][..at] in known {
          remaining, marker := known[parts[i][..at]].0, known[parts[i][..at]].1;
        }
      }
      assert st == Scan(remaining, marker);
      assert all[i] == all[i..][0] == marker;
      assert all[i + 1..] == all[i..][1..];
      lines := lines + [PreviewLine(i + 1, parts[i], marker)];
      i := i + 1;
      rest := rest[1..];
    }
    assert lines == Numbered(parts, all);
  }

  // ----- whose record a line belongs to

  function Repeat<T>(x: T, n: nat): (r: seq<T>)
    ensures |r| == n && forall i :: 0 <= i < n ==> r[i] == x
  {
    seq(n, _ => x)
  }

  /** For each rendered line the key whose record it lies in; none for headings and blank lines. */
  function Owners(es: seq<Entry>, previous: Option<string>, first: bool): (r: seq<Option<string>>)
    ensures |r| == |RenderLines(es, previous, first)|
  {
    if es == [] then []
    else
      Repeat(None, |HeadLines(es[0], previous, first)|) + Repeat(Some(es[0].key), |RecordLines(es[0])|)
      + Owners(es[1..], es[0].group, false)
  }

  function OwnerMarker(owner: Option<string>, items: seq<Item>): Marker {
    match owner
    case None => Unmarked
    case Some(key) => MarkerOf(items, key)
  }

  function OwnerMarkers(owners: seq<Option<string>>, items: seq<Item>): (r: seq<Marker>)
    ensures |r| == |owners| && forall i :: 0 <= i < |owners| ==> r[i] == OwnerMarker(owners[i], items)
  {
    seq(|owners|, i requires 0 <= i < |owners| => OwnerMarker(owners[i], items))
  }

  // ----- line feeds and lines

  lemma {:induction false} SplitCount(s: string)
    ensures |Split(s)| == Feeds(s) + 1
  {
    if s != "" { SplitCount(s[1..]); }
  }

  lemma {:induction false} EscapeKeepsFeeds(value: string)
    ensures Feeds(Escape(value)) == Feeds(value)
  {
    if value != "" {
      var head := EscapeChar(value[0]);
      EscapeKeepsFeeds(value[1..]);
      FeedsConcat(head, Escape(value[1..]));
      CharFeeds(value[0]);
    }
  }

  lemma CharFeeds(c: char)
    ensures Feeds(EscapeChar(c)) == if c == NL then 1 else 0
  {
    var t := EscapeChar(c);
    if c == NL { assert t == [NL] && t[1..] == ""; } else { NoFeeds(t); }
  }

  lemma RecordFeeds(e: Entry)
    requires ValidKey(e.key)
    ensures |RecordLines(e)| == Feeds(e.value) + 1
  {
    hide ValidKey, Escape, Split, Feeds, AllSafe;
    SplitCount(Assignment(e));
    KeyText(e.key);
    NoFeeds(e.key + "=");
    FeedsConcat(e.key + "=", RenderValue(e.value));
    if !AllSafe(e.value) {
      NoFeeds("\"");
      FeedsConcat("\"", Escape(e.value));
      FeedsConcat("\"" + Escape(e.value), "\"");
      EscapeKeepsFeeds(e.value);
    }
  }

  // ----- the scanner on rendered lines

  ghost predicate Knows(known: map<string, (nat, Marker)>, es: seq<Entry>, items: seq<Item>) {
    && (forall key :: key in known ==> ValidKey(key))
    && (forall i :: 0 <= i < |es| ==>
          es[i].key in known && known[es[i].key] == (Feeds(es[i].value), MarkerOf(items, es[i].key)))
  }

  lemma {:induction false} ScanConcat(a: seq<string>, b: seq<string>, st: Scan, known: map<string, (nat, Marker)>)
    ensures Markers(a + b, st, known) == Markers(a, st, known) + Markers(b, ScanAll(a, st, known), known)
    ensures ScanAll(a + b, st, known) == ScanAll(b, ScanAll(a, st, known), known)
  {
    hide ScanLine;
    if a == [] {
      assert a + b == b;
    } else {
      assert (a + b)[1..] == a[1..] + b;
      ScanConcat(a[1..], b, ScanLine(st, a[0], known), known);
    }
  }

  /** A line without a known key, outside any record. */
  predicate Unknown(line: string, known: map<string, (nat, Marker)>) {
    var i := Find(line, '=');
    i < |line| ==> line[..i] !in known
  }

  lemma {:induction false} UnknownLines(lines: seq<string>, st: Scan, known: map<string, (nat, Marker)>)
    requires st.remaining == 0 && forall i :: 0 <= i < |lines| ==> Unknown(lines[i], known)
    ensures Markers(lines, st, known) == Repeat(Unmarked, |lines|)
    ensures ScanAll(lines, st, known).remaining == 0
  {
    hide Find;
    if lines != [] {
      assert Unknown(lines[0], known);
      UnknownLines(lines[1..], ScanLine(st, lines[0], known), known);
    }
  }

  lemma {:induction false} ContinuationLines(lines: seq<string>, st: Scan, known: map<string, (nat, Marker)>)
    requires st.remaining >= |lines|
    ensures Markers(lines, st, known) == Repeat(st.marker, |lines|)
    ensures ScanAll(lines, st, known) == st.(remaining := st.remaining - |lines|)
  {
    if lines != [] { ContinuationLines(lines[1..], ScanLine(st, lines[0], known), known); }
  }

  lemma HashIsNoKey(line: string, at: nat)
    requires at <= |line| && line != "" && line[0] == '#'
    ensures !ValidKey(line[..at])
  {
    if at > 0 { assert line[..at][0] == '#'; }
  }

  lemma HeadUnknown(e: Entry, previous: Option<string>, first: bool, known: map<string, (nat, Marker)>)
    requires forall key :: key in known ==> ValidKey(key)
    ensures forall i :: 0 <= i < |HeadLines(e, previous, first)| ==> Unknown(HeadLines(e, previous, first)[i], known)
  {
    hide ValidKey;
    var ls := HeadLines(e, previous, first);
    forall i | 0 <= i < |ls| ensures Unknown(ls[i], known) {
      if ls[i] != "" {
        assert ls[i][0] == '#';
        HashIsNoKey(ls[i], Find(ls[i], '='));
      }
    }
  }

  lemma RecordMarked(e: Entry, st: Scan, known: map<string, (nat, Marker)>, marker: Marker)
    requires ValidKey(e.key) && e.key in known && known[e.key] == (Feeds(e.value), marker) && st.remaining == 0
    ensures Markers(RecordLines(e), st, known) == Repeat(marker, |RecordLines(e)|)
    ensures ScanAll(RecordLines(e), st, known).remaining == 0
  {
    hide ValidKey, RecordLines, Find, Feeds, Split;
    var ls := RecordLines(e);
    RecordFeeds(e);
    FirstRecordLine(e);
    NoExport(e.key, Split(RenderValue(e.value))[0]);
    assert ScanLine(st, ls[0], known) == Scan(|ls| - 1, marker);
    ContinuationLines(ls[1..], Scan(|ls| - 1, marker), known);
  }

  /** One entry with what stands above it. */
  lemma EntryMarked(
    e: Entry, previous: Option<string>, first: bool, st: Scan, known: map<string, (nat, Marker)>, marker: Marker)
    requires forall key :: key in known ==> ValidKey(key)
    requires e.key in known && known[e.key] == (Feeds(e.value), marker) && st.remaining == 0
    ensures var ls := HeadLines(e, previous, first) + RecordLines(e);
      && Markers(ls, st, known) == Repeat(Unmarked, |HeadLines(e, previous, first)|) + Repeat(marker, |RecordLines(e)|)
      && ScanAll(ls, st, known).remaining == 0
  {
    hide ValidKey, RecordLines, HeadLines, Feeds, ScanLine, Markers, ScanAll;
    var head := HeadLines(e, previous, first);
    HeadUnknown(e, previous, first, known);
    UnknownLines(head, st, known);
    RecordMarked(e, ScanAll(head, st, known), known, marker);
    ScanConcat(head, RecordLines(e), st, known);
  }

  lemma OwnersStep(es: seq<Entry>, previous: Option<string>, first: bool, items: seq<Item>)
    requires es != []
    ensures OwnerMarkers(Owners(es, previous, first), items) ==
            Repeat(Unmarked, |HeadLines(es[0], previous, first)|) + Repeat(MarkerOf(items, es[0].key), |RecordLines(es[0])|)
            + OwnerMarkers(Owners(es[1..], es[0].group, false), items)
  {
    hide RecordLines, HeadLines, MarkerOf;
  }

  lemma {:induction false} RenderedMarkers(
    es: seq<Entry>, previous: Option<string>, first: bool, items: seq<Item>, st: Scan, known: map<string, (nat, Marker)>)
    requires Knows(known, es, items) && st.remaining == 0
    ensures Markers(RenderLines(es, previous, first), st, known) == OwnerMarkers(Owners(es, previous, first), items)
    ensures ScanAll(RenderLines(es, previous, first), st, known).remaining == 0
  {
    hide ValidKey, RecordLines, HeadLines, Feeds, ScanLine, MarkerOf, Markers, ScanAll, Owners, OwnerMarkers;
    if es == [] {
      NothingRendered(previous, first, items, st, known);
    } else {
      var front := HeadLines(es[0], previous, first) + RecordLines(es[0]);
      EntryMarked(es[0], previous, first, st, known, MarkerOf(items, es[0].key));
      RenderedMarkers(es[1..], es[0].group, false, items, ScanAll(front, st, known), known);
      ScanConcat(front, RenderLines(es[1..], es[0].group, false), st, known);
      OwnersStep(es, previous, first, items);
    }
  }

  lemma NothingRendered(previous: Option<string>, first: bool, items: seq<Item>, st: Scan, known: map<string, (nat, Marker)>)
    ensures Markers([], st, known) == OwnerMarkers(Owners([], previous, first), items)
    ensures ScanAll([], st, known) == st
  {
  }

  lemma {:induction false} AssignmentsKnow(es: seq<Entry>, items: seq<Item>)
    requires DistinctKeys(es) && forall i :: 0 <= i < |es| ==> ValidKey(es[i].key)
    ensures Knows(Assignments(es, items), es, items)
  {
    hide ValidKey, Feeds, MarkerOf;
    if es != [] {
      var front := es[..|es| - 1];
      AssignmentsKnow(front, items);
      forall i | 0 <= i < |es|
        ensures es[i].key in Assignments(es, items)
        ensures Assignments(es, items)[es[i].key] == (Feeds(es[i].value), MarkerOf(items, es[i].key))
      {
        if i < |es| - 1 { assert front[i] == es[i]; }
      }
    }
  }

  lemma KnowsMembers(known: map<string, (nat, Marker)>, a: seq<Entry>, b: seq<Entry>, items: seq<Item>)
    requires Knows(known, a, items) && multiset(a) == multiset(b)
    ensures Knows(known, b, items)
  {
    hide ValidKey, Feeds, MarkerOf;
    forall i | 0 <= i < |b|
      ensures b[i].key in known && known[b[i].key] == (Feeds(b[i].value), MarkerOf(items, b[i].key))
    {
      assert b[i] in multiset(a);
      var j :| 0 <= j < |a| && a[j] == b[i];
    }
  }

  predicate GroupsOnOneLine(es: seq<Entry>) {
    forall i :: 0 <= i < |es| && es[i].group.Some? ==> NL !in es[i].group.value
  }

  /** The owner of each line of the rendered text; the last line is the empty one behind the final line feed. */
  function LineOwners(es: seq<Entry>): seq<Option<string>> {
    Owners(Ordered(es), None, true) + [None]
  }

  /**
   * Every line of rendered text is marked exactly as the item that names the key of its record says:
   * continuation lines with their record, headings and blank lines never.
   */
  lemma LinesMarkedByOwner(es: seq<Entry>, items: seq<Item>)
    requires DistinctKeys(es) && (forall i :: 0 <= i < |es| ==> ValidKey(es[i].key)) && GroupsOnOneLine(es)
    ensures var lines := Annotated(Render(es), es, items);
      && |lines| == |LineOwners(es)|
      && Join(Texts(lines)) == Render(es)
      && forall k :: 0 <= k < |lines| ==>
           lines[k].number == k + 1 && lines[k].marker == OwnerMarker(LineOwners(es)[k], items)
  {
    hide ValidKey, Ordered, RenderLines, Assignments, Split, Unlines, Owners, Markers, ScanAll, ScanLine, GroupsOnOneLine;
    var known := Assignments(es, items);
    var os := Ordered(es);
    var ls := RenderLines(os, None, true);
    AssignmentsKnow(es, items);
    OrderedProperties(es);
    KnowsMembers(known, es, os, items);
    RenderedMarkers(os, None, true, items, Scan(0, Unmarked), known);
    RenderedOnLines(es);
    SplitUnlines(ls);
    ScanConcat(ls, [""], Scan(0, Unmarked), known);
    UnknownLines([""], ScanAll(ls, Scan(0, Unmarked), known), known);
    SplitParts(Render(es));
    assert Texts(Annotated(Render(es), es, items)) == Split(Render(es));
  }

  function Texts(lines: seq<PreviewLine>): (r: seq<string>) {
    seq(|lines|, i requires 0 <= i < |lines| => lines[i].text)
  }

  lemma RenderedOnLines(es: seq<Entry>)
    requires GroupsOnOneLine(es)
    ensures forall i :: 0 <= i < |RenderLines(Ordered(es), None, true)| ==> NL !in RenderLines(Ordered(es), None, true)[i]
  {
    hide Ordered, RenderLines;
    OrderedProperties(es);
    var os := Ordered(es);
    forall i | 0 <= i < |os| && os[i].group.Some? ensures NL !in os[i].group.value {
      assert os[i] in multiset(es);
      var j :| 0 <= j < |es| && es[j] == os[i];
    }
    LinesAreLines(os, None, true);
  }

  lemma {:induction false} LinesAreLines(es: seq<Entry>, previous: Option<string>, first: bool)
    requires GroupsOnOneLine(es)
    ensures forall i :: 0 <= i < |RenderLines(es, previous, first)| ==> NL !in RenderLines(es, previous, first)[i]
  {
    hide RecordLines;
    if es != [] {
      LinesAreLines(es[1..], es[0].group, false);
      SplitParts(Assignment(es[0]));
      assert forall i :: 0 <= i < |RecordLines(es[0])| ==> NL !in RecordLines(es[0])[i] by { RecordIsLines(es[0]); }
    }
  }

  lemma RecordIsLines(e: Entry)
    ensures forall i :: 0 <= i < |RecordLines(e)| ==> NL !in RecordLines(e)[i]
  {
    hide Split;
    SplitParts(Assignment(e));
  }

  predicate Names(items: seq<Item>, key: string, action: Action) {
    exists i :: 0 <= i < |items| && items[i].key == key && items[i].action == action
  }

  lemma NamesStep(items: seq<Item>, key: string, action: Action)
    requires items != []
    ensures Names(items, key, action) <==> (items[0].key == key && items[0].action == action) || Names(items[1..], key, action)
  {
    if Names(items, key, action) {
      var i :| 0 <= i < |items| && items[i].key == key && items[i].action == action;
      if i > 0 { assert items[1..][i - 1] == items[i]; }
    }
    if Names(items[1..], key, action) {
      var i :| 0 <= i < |items[1..]| && items[1..][i].key == key && items[1..][i].action == action;
      assert items[i + 1] == items[1..][i];
    }
  }

  /** With one item for each key, as a valid selection has, the marker tells the action. */
  lemma {:induction false} MarkerTellsAction(items: seq<Item>, key: string)
    requires forall i, j :: 0 <= i < j < |items| ==> items[i].key != items[j].key
    ensures MarkerOf(items, key) == New <==> Names(items, key, ADD)
    ensures MarkerOf(items, key) == Updated <==> Names(items, key, UPDATE)
  {
    if items != [] {
      MarkerTellsAction(items[1..], key);
      NamesStep(items, key, ADD);
      NamesStep(items, key, UPDATE);
    }
  }
}
