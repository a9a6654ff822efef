/** The `.env` writer: grouping, canonical order, quoting, and the independence from input order. */
module DotenvRender {
  import opened Text
  import opened Dotenv

  // ----- the order of names

  /** Strings compare by their characters, as their UTF-8 bytes do. */
  predicate StrLess(a: string, b: string) {
    b != "" && (a == "" || a[0] < b[0] || (a[0] == b[0] && StrLess(a[1..], b[1..])))
  }

  predicate StrLe(a: string, b: string) { a == b || StrLess(a, b) }

  lemma {:induction false} StrLessIrreflexive(a: string)
    ensures !StrLess(a, a)
  {
    if a != "" { StrLessIrreflexive(a[1..]); }
  }

  lemma {:induction false} StrLessTransitive(a: string, b: string, c: string)
    requires StrLess(a, b) && StrLess(b, c)
    ensures StrLess(a, c)
  {
    if a != "" && a[0] == b[0] == c[0] { StrLessTransitive(a[1..], b[1..], c[1..]); }
  }

  lemma {:induction false} StrLessTotal(a: string, b: string)
    ensures a == b || StrLess(a, b) || StrLess(b, a)
  {
    if a != "" && b != "" && a[0] == b[0] {
      StrLessTotal(a[1..], b[1..]);
      assert a == [a[0]] + a[1..] && b == [b[0]] + b[1..];
    }
  }

  lemma StrLeAntisymmetric(a: string, b: string)
    requires StrLe(a, b) && StrLe(b, a)
    ensures a == b
  {
    if a != b {
      StrLessTransitive(a, b, a);
      StrLessIrreflexive(a);
    }
  }

  lemma StrLeTransitive(a: string, b: string, c: string)
    requires StrLe(a, b) && StrLe(b, c)
    ensures StrLe(a, c)
  {
    if a != b && b != c { StrLessTransitive(a, b, c); }
  }

  // ----- the order of entries

  /** The smallest position of each group. */
  function GroupOrder(es: seq<Entry>): map<string, int> {
    if es == [] then map[]
    else Lowered(GroupOrder(es[..|es| - 1]), es[|es| - 1])
  }

  function Lowered(order: map<string, int>, e: Entry): map<string, int> {
    match e.group
    case None => order
    case Some(g) => if g in order && order[g] <= e.position then order else order[g := e.position]
  }

  function Rank(order: map<string, int>, g: string): int {
    if g in order then order[g] else 0
  }

  /** The comparator of the sort: not greater. */
  predicate EntryLe(order: map<string, int>, a: Entry, b: Entry) {
    match (a.group, b.group)
    case (None, None) => a.position < b.position || (a.position == b.position && StrLe(a.key, b.key))
    case (None, Some(_)) => true
    case (Some(_), None) => false
    case (Some(g), Some(h)) =>
      if g == h then a.position < b.position || (a.position == b.position && StrLe(a.key, b.key))
      else Rank(order, g) < Rank(order, h) || (Rank(order, g) == Rank(order, h) && StrLess(g, h))
  }

  lemma EntryLeTotal(order: map<string, int>, a: Entry, b: Entry)
    ensures EntryLe(order, a, b) || EntryLe(order, b, a)
  {
    StrLessTotal(a.key, b.key);
    if a.group.Some? && b.group.Some? { StrLessTotal(a.group.value, b.group.value); }
  }

  lemma EntryLeTransitive(order: map<string, int>, a: Entry, b: Entry, c: Entry)
    requires EntryLe(order, a, b) && EntryLe(order, b, c)
    ensures EntryLe(order, a, c)
  {
    hide StrLess;
    if StrLe(a.key, b.key) && StrLe(b.key, c.key) { StrLeTransitive(a.key, b.key, c.key); }
    if a.group.Some? && b.group.Some? && c.group.Some? {
      var g, h, k := a.group.value, b.group.value, c.group.value;
      if StrLess(g, h) && StrLess(h, k) {
        StrLessTransitive(g, h, k);
        if g == k { StrLessIrreflexive(g); }
      }
    }
  }

  lemma EntryLeAntisymmetric(order: map<string, int>, a: Entry, b: Entry)
    requires EntryLe(order, a, b) && EntryLe(order, b, a)
    ensures a.key == b.key && a.group == b.group
  {
    hide StrLess;
    if a.group.Some? && b.group.Some? && a.group != b.group {
      StrLessTransitive(a.group.value, b.group.value, a.group.value);
      StrLessIrreflexive(a.group.value);
    } else if a.group == b.group {
      StrLeAntisymmetric(a.key, b.key);
    }
  }

  predicate DistinctKeys(es: seq<Entry>) {
    forall i, j :: 0 <= i < j < |es| ==> es[i].key != es[j].key
  }

  predicate SortedBy(order: map<string, int>, es: seq<Entry>) {
    forall i, j :: 0 <= i < j < |es| ==> EntryLe(order, es[i], es[j])
  }

  // ----- the stable sort

  function Insert(order: map<string, int>, es: seq<Entry>, e: Entry): seq<Entry> {
    if es == [] || EntryLe(order, es[|es| - 1], e) then es + [e]
    else Insert(order, es[..|es| - 1], e) + [es[|es| - 1]]
  }

  function Sort(order: map<string, int>, es: seq<Entry>): seq<Entry> {
    if es == [] then [] else Insert(order, Sort(order, es[..|es| - 1]), es[|es| - 1])
  }

  lemma {:induction false} InsertPermutes(order: map<string, int>, es: seq<Entry>, e: Entry)
    ensures multiset(Insert(order, es, e)) == multiset(es) + multiset{e}
  {
    if es != [] && !EntryLe(order, es[|es| - 1], e) {
      InsertPermutes(order, es[..|es| - 1], e);
      assert es == es[..|es| - 1] + [es[|es| - 1]];
    }
  }

  lemma {:induction false} SortPermutes(order: map<string, int>, es: seq<Entry>)
    ensures multiset(Sort(order, es)) == multiset(es)
    ensures |Sort(order, es)| == |es|
  {
    if es != [] {
      SortPermutes(order, es[..|es| - 1]);
      InsertPermutes(order, Sort(order, es[..|es| - 1]), es[|es| - 1]);
      assert es == es[..|es| - 1] + [es[|es| - 1]];
    }
    assert |multiset(Sort(order, es))| == |multiset(es)|;
  }

  lemma {:induction false} InsertSorts(order: map<string, int>, es: seq<Entry>, e: Entry)
    requires SortedBy(order, es)
    ensures SortedBy(order, Insert(order, es, e))
  {
    hide EntryLe;
    if es != [] {
      var last := es[|es| - 1];
      if EntryLe(order, last, e) {
        forall i | 0 <= i < |es| ensures EntryLe(order, es[i], e) {
          if i < |es| - 1 { EntryLeTransitive(order, es[i], last, e); }
        }
      } else {
        var front := es[..|es| - 1];
        InsertSorts(order, front, e);
        InsertPermutes(order, front, e);
        EntryLeTotal(order, last, e);
        var r := Insert(order, front, e);
        forall i | 0 <= i < |r| ensures EntryLe(order, r[i], last) {
          assert r[i] in multiset(front) + multiset{e};
        }
      }
    }
  }

  lemma {:induction false} SortSorts(order: map<string, int>, es: seq<Entry>)
    ensures SortedBy(order, Sort(order, es))
  {
    if es != [] {
      SortSorts(order, es[..|es| - 1]);
      InsertSorts(order, Sort(order, es[..|es| - 1]), es[|es| - 1]);
    }
  }

  lemma {:induction false} SortOfSorted(order: map<string, int>, es: seq<Entry>)
    requires SortedBy(order, es)
    ensures Sort(order, es) == es
  {
    if es != [] {
      SortOfSorted(order, es[..|es| - 1]);
      assert es == es[..|es| - 1] + [es[|es| - 1]];
    }
  }

  lemma SameFirst(order: map<string, int>, a: seq<Entry>, b: seq<Entry>)
    requires SortedBy(order, a) && SortedBy(order, b) && DistinctKeys(b)
    requires a != [] && b != [] && a[0] in b && b[0] in a
    ensures a[0] == b[0]
  {
    hide EntryLe;
    var i :| 0 <= i < |b| && b[i] == a[0];
    var j :| 0 <= j < |a| && a[j] == b[0];
    if i > 0 && j > 0 { EntryLeAntisymmetric(order, a[0], b[0]); }
  }

  /** A sorted arrangement of entries with distinct keys is unique. */
  lemma {:induction false} SortedUnique(order: map<string, int>, a: seq<Entry>, b: seq<Entry>)
    requires SortedBy(order, a) && SortedBy(order, b)
    requires multiset(a) == multiset(b) && DistinctKeys(a) && DistinctKeys(b)
    ensures a == b
  {
    hide EntryLe;
    if a == [] || b == [] {
      assert |multiset(a)| == |multiset(b)|;
    } else {
      assert a[0] in multiset(b) && b[0] in multiset(a);
      SameFirst(order, a, b);
      TailMultiset(a);
      TailMultiset(b);
      SortedUnique(order, a[1..], b[1..]);
    }
  }

  lemma TailMultiset(a: seq<Entry>)
    requires a != []
    ensures a == [a[0]] + a[1..] && multiset(a[1..]) == multiset(a) - multiset{a[0]}
  {
    assert a == [a[0]] + a[1..];
  }

  lemma {:induction false} GroupOrderIsMinimum(es: seq<Entry>)
    ensures forall i :: 0 <= i < |es| && es[i].group.Some? ==>
              es[i].group.value in GroupOrder(es) && GroupOrder(es)[es[i].group.value] <= es[i].position
    ensures forall g :: g in GroupOrder(es) ==>
              exists i :: 0 <= i < |es| && es[i].group == Some(g) && es[i].position == GroupOrder(es)[g]
  {
    if es != [] {
      var n := |es| - 1;
      var front := es[..n];
      GroupOrderIsMinimum(front);
      forall g | g in GroupOrder(es)
        ensures exists i :: 0 <= i < |es| && es[i].group == Some(g) && es[i].position == GroupOrder(es)[g]
      {
        if es[n].group == Some(g) && GroupOrder(es)[g] == es[n].position {
        } else {
          var i :| 0 <= i < |front| && front[i].group == Some(g) && front[i].position == GroupOrder(front)[g];
          assert es[i] == front[i];
        }
      }
      forall i | 0 <= i < |es| && es[i].group.Some?
        ensures es[i].group.value in GroupOrder(es) && GroupOrder(es)[es[i].group.value] <= es[i].position
      {
        if i < n { assert front[i] == es[i]; }
      }
    }
  }

  lemma GroupOrderOfPermutation(a: seq<Entry>, b: seq<Entry>)
    requires multiset(a) == multiset(b)
    ensures GroupOrder(a) == GroupOrder(b)
  {
    GroupOrderBelow(a, b);
    GroupOrderBelow(b, a);
  }

  lemma GroupOrderBelow(a: seq<Entry>, b: seq<Entry>)
    requires multiset(a) == multiset(b)
    ensures forall g :: g in GroupOrder(a) ==> g in GroupOrder(b) && GroupOrder(b)[g] <= GroupOrder(a)[g]
  {
    GroupOrderIsMinimum(a);
    GroupOrderIsMinimum(b);
    forall g | g in GroupOrder(a) ensures g in GroupOrder(b) && GroupOrder(b)[g] <= GroupOrder(a)[g] {
      var i :| 0 <= i < |a| && a[i].group == Some(g) && a[i].position == GroupOrder(a)[g];
      assert a[i] in multiset(b);
      var j :| 0 <= j < |b| && b[j] == a[i];
    }
  }

  // ----- text

  predicate IsSafe(c: char) {
    IsAlpha(c) || '0' <= c <= '9' || c in {'_', '-', '.', '/', ':', '@', '%', '+'}
  }

  predicate AllSafe(value: string) { forall i :: 0 <= i < |value| ==> IsSafe(value[i]) }

  function EscapeChar(c: char): string {
    match c
    case '\\' => "\\\\"
    case '"' => "\\\""
    case '\r' => "\\r"
    case '\t' => "\\t"
    case _ => [c]
  }

  function Escape(value: string): string {
    if value == "" then "" else EscapeChar(value[0]) + Escape(value[1..])
  }

  function RenderValue(value: string): string {
    if AllSafe(value) then value else "\"" + Escape(value) + "\""
  }

  function Assignment(e: Entry): string { e.key + "=" + RenderValue(e.value) }

  /** The physical lines of one record: a value keeps its own line feeds. */
  function RecordLines(e: Entry): (ls: seq<string>)
    ensures |ls| >= 1
  {
    Split(Assignment(e))
  }

  function HeadingLine(group: string): string { "# [" + group + "]" }

  /** What goes above an entry: a blank line and a heading where a group begins. */
  function HeadLines(e: Entry, previous: Option<string>, first: bool): seq<string> {
    if e.group == previous then []
    else (if first then [] else [""]) + (if e.group.Some? then [HeadingLine(e.group.value)] else [])
  }

  function RenderLines(es: seq<Entry>, previous: Option<string>, first: bool): seq<string> {
    if es == [] then []
    else HeadLines(es[0], previous, first) + RecordLines(es[0]) + RenderLines(es[1..], es[0].group, false)
  }

  function Ordered(es: seq<Entry>): seq<Entry> { Sort(GroupOrder(es), es) }

  function RenderOrdered(es: seq<Entry>): string { Unlines(RenderLines(es, None, true)) }

  /** `render` */
  function Render(es: seq<Entry>): string { RenderOrdered(Ordered(es)) }

  /** Rendering does not depend on the order in which the entries are given. */
  lemma RenderOrderIndependent(a: seq<Entry>, b: seq<Entry>)
    requires multiset(a) == multiset(b) && DistinctKeys(a)
    ensures Ordered(a) == Ordered(b) && Render(a) == Render(b)
  {
    hide EntryLe, Sort, RenderLines, GroupOrder;
    GroupOrderOfPermutation(a, b);
    var order := GroupOrder(a);
    SortPermutes(order, a);
    SortPermutes(order, b);
    SortSorts(order, a);
    SortSorts(order, b);
    DistinctOfPermutation(a, Sort(order, a));
    DistinctOfPermutation(a, Sort(order, b));
    SortedUnique(order, Sort(order, a), Sort(order, b));
  }

  lemma {:induction false} DistinctOfPermutation(a: seq<Entry>, b: seq<Entry>)
    requires multiset(a) == multiset(b) && DistinctKeys(a)
    ensures DistinctKeys(b)
  {
    forall i, j | 0 <= i < j < |b| ensures b[i].key != b[j].key {
      if b[i].key == b[j].key {
        assert b[i] in multiset(a) && b[j] in multiset(a);
        assert b[i] == b[j];
        assert b == b[..i] + [b[i]] + b[i + 1..j] + [b[j]] + b[j + 1..];
        assert multiset(b)[b[i]] >= 2;
        CountOfDistinct(a, b[i]);
      }
    }
  }

  lemma {:induction false} CountOfDistinct(a: seq<Entry>, e: Entry)
    requires DistinctKeys(a)
    ensures multiset(a)[e] <= 1
  {
    if a != [] {
      CountOfDistinct(a[1..], e);
      assert a == [a[0]] + a[1..];
      if e == a[0] { assert e !in a[1..]; }
    }
  }

  // ----- the canonical form

  function Renumber(es: seq<Entry>, from: int): (r: seq<Entry>)
    ensures |r| == |es|
  {
    if es == [] then [] else [es[0].(position := from)] + Renumber(es[1..], from + 1)
  }

  lemma {:induction false} RenumberAt(es: seq<Entry>, from: int)
    ensures forall i :: 0 <= i < |es| ==> Renumber(es, from)[i] == es[i].(position := from + i)
  {
    if es != [] { RenumberAt(es[1..], from + 1); }
  }

  /** The entries in the order in which they are written, numbered from zero. */
  function Canonical(es: seq<Entry>): seq<Entry> { Renumber(Ordered(es), 0) }

  /** Ungrouped entries first, and each group in one piece. */
  predicate Grouped(es: seq<Entry>) {
    && (forall i, j :: 0 <= i < j < |es| && es[j].group.None? ==> es[i].group.None?)
    && (forall i, j, k :: 0 <= i < j < k < |es| && es[i].group == es[k].group ==> es[j].group == es[i].group)
  }

  predicate Increasing(es: seq<Entry>) {
    forall i, j :: 0 <= i < j < |es| ==> es[i].position < es[j].position
  }

  lemma SortedIsGrouped(order: map<string, int>, es: seq<Entry>)
    requires SortedBy(order, es)
    ensures Grouped(es)
  {
    hide StrLess;
    forall i, j, k | 0 <= i < j < k < |es| && es[i].group == es[k].group ensures es[j].group == es[i].group {
      assert EntryLe(order, es[i], es[j]) && EntryLe(order, es[j], es[k]);
      if es[j].group != es[i].group {
        var g, h := es[i].group.value, es[j].group.value;
        StrLessTransitive(g, h, g);
        StrLessIrreflexive(g);
      }
    }
  }

  /** Entries in one piece per group, numbered upwards, are already in order. */
  lemma GroupedIsSorted(es: seq<Entry>)
    requires Grouped(es) && Increasing(es)
    ensures SortedBy(GroupOrder(es), es) && Ordered(es) == es
  {
    hide StrLess, GroupOrder;
    var order := GroupOrder(es);
    GroupOrderIsMinimum(es);
    forall i, j | 0 <= i < j < |es| ensures EntryLe(order, es[i], es[j]) {
      if es[i].group.Some? && es[j].group.Some? && es[i].group != es[j].group {
        var h := es[j].group.value;
        assert h in order;
        var m :| 0 <= m < |es| && es[m].group == Some(h) && es[m].position == order[h];
        assert m > i;
      }
    }
    SortOfSorted(order, es);
  }

  lemma OrderedProperties(es: seq<Entry>)
    ensures multiset(Ordered(es)) == multiset(es) && |Ordered(es)| == |es|
    ensures Grouped(Ordered(es))
    ensures DistinctKeys(es) ==> DistinctKeys(Ordered(es))
  {
    hide EntryLe, Sort;
    SortPermutes(GroupOrder(es), es);
    SortSorts(GroupOrder(es), es);
    SortedIsGrouped(GroupOrder(es), Ordered(es));
    if DistinctKeys(es) { DistinctOfPermutation(es, Ordered(es)); }
  }

  lemma CanonicalProperties(es: seq<Entry>)
    ensures |Canonical(es)| == |es| && Grouped(Canonical(es)) && Increasing(Canonical(es))
    ensures forall i :: 0 <= i < |es| ==> Canonical(es)[i] == Ordered(es)[i].(position := i)
    ensures DistinctKeys(es) ==> DistinctKeys(Canonical(es))
  {
    hide Ordered;
    OrderedProperties(es);
    RenumberAt(Ordered(es), 0);
  }

  /** Positions do not reach the text. */
  lemma {:induction false} RenderLinesOfRenumbered(es: seq<Entry>, from: int, previous: Option<string>, first: bool)
    ensures RenderLines(Renumber(es, from), previous, first) == RenderLines(es, previous, first)
  {
    if es != [] { RenderLinesOfRenumbered(es[1..], from + 1, es[0].group, false); }
  }

  /** The canonical form is a fixed point: it is written as the original list is. */
  lemma RenderCanonical(es: seq<Entry>)
    ensures Ordered(Canonical(es)) == Canonical(es)
    ensures Render(Canonical(es)) == Render(es)
  {
    hide Ordered, RenderLines;
    CanonicalProperties(es);
    GroupedIsSorted(Canonical(es));
    RenderLinesOfRenumbered(Ordered(es), 0, None, true);
  }
}

/** The loops of the `.env` writer. */
module DotenvWriter {
  import opened Text
  import opened Dotenv
  import opened DotenvRender

  method GroupPositions(entries: seq<Entry>) returns (order: map<string, int>)
    ensures order == GroupOrder(entries)
  {
    order := map[];
    var i := 0;
    while i < |entries|
      invariant 0 <= i <= |entries|
      invariant order == GroupOrder(entries[..i])
    {
      assert entries[..i + 1][..i] == entries[..i];
      if entries[i].group.Some? {
        var group, position := entries[i].group.value, entries[i].position;
        if group in order {
          if position < order[group] {
            order := order[group := position];
          }
        } else {
          order := order[group := position];
        }
      }
      i := i + 1;
    }
    assert entries[..|entries|] == entries;
  }

  method RenderValueText(value: string) returns (result: string)
    ensures result == RenderValue(value)
  {
    if AllSafe(value) {
      return value;
    }
    result := "\"";
    var i := 0;
    while i < |value|
      invariant 0 <= i <= |value|
      invariant result + Escape(value[i..]) == "\"" + Escape(value)
    {
      assert value[i..][1..] == value[i + 1..];
      assert result + (EscapeChar(value[i]) + Escape(value[i + 1..])) == (result + EscapeChar(value[i])) + Escape(value[i + 1..]);
      match value[i] {
        case '\\' => result := result + "\\\\";
        case '"' => result := result + "\\\"";
        case '\r' => result := result + "\\r";
        case '\t' => result := result + "\\t";
        case _ => result := result + [value[i]];
      }
      i := i + 1;
    }
    assert Escape(value[|value|..]) == "";
    result := result + "\"";
  }

  /** The blank line and the heading above an entry, where a group begins. */
  method EmitHeading(output: string, entry: Entry, previous: Option<string>) returns (output': string)
    ensures output' == output + Unlines(HeadLines(entry, previous, output == ""))
  {
    hide Unlines, HeadingLine;
    HeadText(entry, HeadLines(entry, previous, output == ""));
    output' := output;
    if entry.group != previous {
      if output' != "" {
        output' := output' + "\n";
      }
      if entry.group.Some? {
        output' := output' + ("# [" + entry.group.value + "]\n");
      }
    }
  }

  lemma RecordText(entry: Entry)
    ensures Unlines(RecordLines(entry)) == entry.key + "=" + RenderValue(entry.value) + "\n"
  {
    UnlinesSplit(Assignment(entry));
  }

  /** The text of one entry, with its heading where a group begins. */
  method EmitEntry(output: string, entry: Entry, previous: Option<string>) returns (output': string)
    ensures output' == output + Unlines(HeadLines(entry, previous, output == "") + RecordLines(entry))
    ensures output' != ""
  {
    hide RenderValue, RecordLines, HeadLines, Unlines;
    RecordText(entry);
    UnlinesConcat(HeadLines(entry, previous, output == ""), RecordLines(entry));
    output' := EmitHeading(output, entry, previous);
    var value := RenderValueText(entry.value);
    var record := entry.key + "=" + value + "\n";
    output' := output' + record;
  }

  /** `render`: positions per group, the sort, then the output buffer. */
  method RenderText(entries: seq<Entry>) returns (output: string)
    ensures output == Render(entries)
  {
    hide Sort, GroupOrder, RecordLines, HeadLines;
    var order := GroupPositions(entries);
    var ordered := Sort(order, entries);
    output := "";
    var previous: Option<string> := None;
    var i := 0;
    ghost var rest := ordered;
    while i < |ordered|
      invariant 0 <= i <= |ordered| && rest == ordered[i..]
      invariant output == "" <==> i == 0
      invariant output + Unlines(RenderLines(rest, previous, i == 0)) == Render(entries)
    {
      ghost var before := output;
      ghost var block := HeadLines(ordered[i], previous, i == 0) + RecordLines(ordered[i]);
      ghost var after := RenderLines(rest[1..], ordered[i].group, false);
      output := EmitEntry(output, ordered[i], previous);
      previous := ordered[i].group;
      UnlinesConcat(block, after);
      assert before + (Unlines(block) + Unlines(after)) == (before + Unlines(block)) + Unlines(after);
      i := i + 1;
      rest := rest[1..];
    }
  }

  lemma HeadText(entry: Entry, head: seq<string>)
    ensures head == [] ==> Unlines(head) == ""
    ensures head == [""] ==> Unlines(head) == "\n"
    ensures entry.group.Some? && head == [HeadingLine(entry.group.value)] ==>
              Unlines(head) == "# [" + entry.group.value + "]\n"
    ensures entry.group.Some? && head == ["", HeadingLine(entry.group.value)] ==>
              Unlines(head) == "\n" + ("# [" + entry.group.value + "]\n")
  {
    if entry.group.Some? {
      var h := HeadingLine(entry.group.value);
      assert ["", h][1..] == [h];
      assert h + [NL] == "# [" + entry.group.value + "]\n";
      assert Unlines([h]) == h + [NL] + Unlines([]);
    }
  }
}
