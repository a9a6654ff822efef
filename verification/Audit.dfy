/** The audit list: pages by cursor in both directions, over a log that only grows at its end. */
module Audit {
  import opened Text
  import opened Model

  const PAGE_LIMIT := 25

  datatype Event = Event(id: int, action: string, outcome: string, actor: Option<Id>)

  /** The cursor of a page: `before` for older events, `after` for newer ones, zero when absent. */
  datatype Cursor = Cursor(before: int, after: int)

  datatype Page = Page(entries: seq<Event>, hasPrevious: bool, hasNext: bool, newer: int, older: int)

  /** The cursor part of `validate_filter`. */
  predicate CursorAllowed(c: Cursor) {
    c.before >= 0 && c.after >= 0 && !(c.before > 0 && c.after > 0)
  }

  /** Identifiers are positive and rise. */
  predicate Rising(log: seq<Event>) {
    && (forall i :: 0 <= i < |log| ==> log[i].id > 0)
    && (forall i, j :: 0 <= i < j < |log| ==> log[i].id < log[j].id)
  }

  predicate InRange(c: Cursor, e: Event) {
    (c.before > 0 ==> e.id < c.before) && (c.after > 0 ==> e.id > c.after)
  }

  /** The rows of the query in the order of their identifiers; `matches` stands for the filters on action, outcome and actor. */
  function Rows(log: seq<Event>, matches: Event -> bool, c: Cursor): seq<Event> {
    if log == [] then []
    else (if matches(log[0]) && InRange(c, log[0]) then [log[0]] else []) + Rows(log[1..], matches, c)
  }

  function Backwards(es: seq<Event>): (r: seq<Event>)
    ensures |r| == |es| && forall i :: 0 <= i < |r| ==> r[i] == es[|es| - 1 - i]
  {
    if es == [] then [] else [es[|es| - 1]] + Backwards(es[..|es| - 1])
  }

  function First(es: seq<Event>, n: nat): seq<Event> { if |es| <= n then es else es[..n] }

  /** The page of a list of rows, in the order of the query and cut to the limit. */
  function PageOf(ordered: seq<Event>, c: Cursor): Page {
    var more := |ordered| > PAGE_LIMIT;
    var cut := First(ordered, PAGE_LIMIT);
    var entries := if c.after > 0 then Backwards(cut) else cut;
    Page(entries,
         if c.after > 0 then more else c.before > 0,
         if c.after > 0 then true else more,
         if entries == [] then c.before else entries[0].id,
         if entries == [] then c.after else entries[|entries| - 1].id)
  }

  /** `list` */
  function List(log: seq<Event>, matches: Event -> bool, c: Cursor): Model.Result<Page> {
    if !CursorAllowed(c) then Model.Err(InvalidRequest)
    else
      var rows := Rows(log, matches, c);
      Model.Ok(PageOf(First(if c.after > 0 then rows else Backwards(rows), PAGE_LIMIT + 1), c))
  }

  // ----- the loops

  /** `ORDER BY id ASC LIMIT limit` */
  method OldestFirst(log: seq<Event>, matches: Event -> bool, c: Cursor, limit: nat) returns (rows: seq<Event>)
    ensures rows == First(Rows(log, matches, c), limit)
  {
    hide Rows, InRange;
    rows := [];
    ghost var rest := log;
    var i := 0;
    while i < |log| && |rows| < limit
      invariant 0 <= i <= |log| && rest == log[i..] && |rows| <= limit
      invariant Rows(log, matches, c) == rows + Rows(rest, matches, c)
    {
      RowsStep(rest, matches, c);
      ghost var more := Rows(rest[1..], matches, c);
      assert rows + ([log[i]] + more) == (rows + [log[i]]) + more;
      if matches(log[i]) && InRange(c, log[i]) { rows := rows + [log[i]]; }
      i := i + 1;
      rest := rest[1..];
    }
    if i == |log| { NoRows(matches, c); }
    assert i == |log| ==> rows + [] == rows;
    assert (rows + Rows(rest, matches, c))[..|rows|] == rows;
  }

  /** `ORDER BY id DESC LIMIT limit` */
  method NewestFirst(log: seq<Event>, matches: Event -> bool, c: Cursor, limit: nat) returns (rows: seq<Event>)
    ensures rows == First(Backwards(Rows(log, matches, c)), limit)
  {
    hide Rows, InRange, Backwards;
    rows := [];
    var i := |log|;
    ghost var rest := log;
    ghost var found: seq<Event> := [];
    NoneBackwards();
    while i > 0 && |rows| < limit
      invariant 0 <= i <= |log| && rest == log[..i] && |rows| == |found| <= limit
      invariant Rows(log, matches, c) == Rows(rest, matches, c) + found && rows == Backwards(found)
    {
      i := i - 1;
      ghost var front := rest[..i];
      assert rest == front + [log[i]];
      LastRow(front, log[i], matches, c, found);
      if matches(log[i]) && InRange(c, log[i]) {
        rows := rows + [log[i]];
        found := [log[i]] + found;
      }
      rest := front;
    }
    if i == 0 { NoRows(matches, c); }
    BackwardsConcat(Rows(rest, matches, c), found);
    assert i == 0 ==> Rows(log, matches, c) == found;
  }

  lemma NoneBackwards()
    ensures Backwards([]) == []
  {
  }

  lemma NoRows(matches: Event -> bool, c: Cursor)
    ensures Rows([], matches, c) == []
  {
  }

  lemma RowsStep(log: seq<Event>, matches: Event -> bool, c: Cursor)
    requires log != []
    ensures Rows(log, matches, c) ==
            if matches(log[0]) && InRange(c, log[0]) then [log[0]] + Rows(log[1..], matches, c) else Rows(log[1..], matches, c)
  {
  }

  lemma LastRow(front: seq<Event>, e: Event, matches: Event -> bool, c: Cursor, found: seq<Event>)
    ensures var rows := Rows(front, matches, c);
            if matches(e) && InRange(c, e) then
              Rows(front + [e], matches, c) + found == rows + ([e] + found) && Backwards([e] + found) == Backwards(found) + [e]
            else Rows(front + [e], matches, c) + found == rows + found
  {
    hide InRange;
    RowsConcat(front, [e], matches, c);
    assert [e][1..] == [];
    NoRows(matches, c);
    var rows := Rows(front, matches, c);
    assert (rows + [e]) + found == rows + ([e] + found);
    assert rows + [] == rows;
    BackwardsConcat([e], found);
  }

  /** `list`: the query, then the rows truncated and put newest first. */
  method ListPage(log: seq<Event>, matches: Event -> bool, c: Cursor) returns (r: Model.Result<Page>)
    ensures r == List(log, matches, c)
  {
    hide Rows, Backwards;
    if c.before < 0 || c.after < 0 || (c.before > 0 && c.after > 0) { return Model.Err(InvalidRequest); }
    var rows: seq<Event>;
    if c.after > 0 {
      rows := OldestFirst(log, matches, c, PAGE_LIMIT + 1);
    } else {
      rows := NewestFirst(log, matches, c, PAGE_LIMIT + 1);
    }
    var more := |rows| > PAGE_LIMIT;
    if |rows| > PAGE_LIMIT { rows := rows[..PAGE_LIMIT]; }
    if c.after > 0 { rows := Reverse(rows); }
    var newer := if rows == [] then c.before else rows[0].id;
    var older := if rows == [] then c.after else rows[|rows| - 1].id;
    var hasPrevious := if c.after > 0 then more else c.before > 0;
    return Model.Ok(Page(rows, hasPrevious, c.after > 0 || more, newer, older));
  }

  method Reverse(es: seq<Event>) returns (r: seq<Event>)
    ensures r == Backwards(es)
  {
    r := [];
    var i := 0;
    while i < |es|
      invariant 0 <= i <= |es| && |r| == i
      invariant forall k :: 0 <= k < i ==> r[k] == es[i - 1 - k]
    {
      r := [es[i]] + r;
      i := i + 1;
    }
  }

  // ----- rows

  lemma {:induction false} RowsConcat(a: seq<Event>, b: seq<Event>, matches: Event -> bool, c: Cursor)
    ensures Rows(a + b, matches, c) == Rows(a, matches, c) + Rows(b, matches, c)
  {
    if a == [] {
      assert a + b == b;
    } else {
      assert (a + b)[1..] == a[1..] + b;
      RowsConcat(a[1..], b, matches, c);
    }
  }

  lemma {:induction false} RowsRise(log: seq<Event>, matches: Event -> bool, c: Cursor)
    requires Rising(log)
    ensures Rising(Rows(log, matches, c))
    ensures forall e :: e in Rows(log, matches, c) ==> e in log
  {
    if log != [] {
      assert Rising(log[1..]);
      RowsRise(log[1..], matches, c);
      assert forall e :: e in log[1..] ==> e in log;
      var rest := Rows(log[1..], matches, c);
      forall i | 0 <= i < |rest| ensures log[0].id < rest[i].id {
        assert rest[i] in log[1..];
        var k :| 0 <= k < |log[1..]| && log[1..][k] == rest[i];
        assert log[k + 1] == rest[i];
      }
    }
  }

  /** Everything that matches, without a cursor. */
  function Found(log: seq<Event>, matches: Event -> bool): seq<Event> { Rows(log, matches, Cursor(0, 0)) }

  /** The rows before an identifier. */
  function Before(es: seq<Event>, id: int): seq<Event> {
    if es == [] || es[0].id >= id then [] else [es[0]] + Before(es[1..], id)
  }

  lemma {:induction false} BeforeIs(es: seq<Event>, i: nat)
    requires Rising(es) && i < |es|
    ensures Before(es, es[i].id) == es[..i]
  {
    if i > 0 {
      assert es[0].id < es[i].id;
      assert Rising(es[1..]) && es[1..][i - 1] == es[i];
      BeforeIs(es[1..], i - 1);
      assert [es[0]] + es[1..][..i - 1] == es[..i];
    }
  }

  lemma {:induction false} RowsBefore(log: seq<Event>, matches: Event -> bool, id: int)
    requires Rising(log) && id > 0
    ensures Rows(log, matches, Cursor(id, 0)) == Before(Found(log, matches), id)
  {
    if log != [] {
      assert Rising(log[1..]);
      RowsBefore(log[1..], matches, id);
      RowsStep(log, matches, Cursor(0, 0));
      RowsStep(log, matches, Cursor(id, 0));
      var rest := Found(log[1..], matches);
      if matches(log[0]) {
        assert Found(log, matches)[0] == log[0] && Found(log, matches)[1..] == rest;
        if log[0].id >= id { NothingBefore(log[1..], matches, id, log[0].id); }
      }
    }
  }

  lemma NothingBefore(log: seq<Event>, matches: Event -> bool, id: int, low: int)
    requires Rising(log) && low >= id && forall i :: 0 <= i < |log| ==> log[i].id > low
    ensures Before(Found(log, matches), id) == []
  {
    RowsRise(log, matches, Cursor(0, 0));
    var es := Found(log, matches);
    if es != [] { assert es[0] in log; }
  }

  lemma {:induction false} RowsAfter(log: seq<Event>, matches: Event -> bool, i: nat)
    requires Rising(log) && i < |Found(log, matches)|
    ensures Rows(log, matches, Cursor(0, Found(log, matches)[i].id)) == Found(log, matches)[i + 1..]
  {
    RowsRise(log, matches, Cursor(0, 0));
    var es := Found(log, matches);
    RowsAbove(log, matches, es[i].id);
    AboveIs(es, i);
  }

  function Above(es: seq<Event>, id: int): seq<Event> {
    if es == [] then [] else (if es[0].id > id then [es[0]] else []) + Above(es[1..], id)
  }

  lemma {:induction false} RowsAbove(log: seq<Event>, matches: Event -> bool, id: int)
    requires id > 0
    ensures Rows(log, matches, Cursor(0, id)) == Above(Found(log, matches), id)
  {
    if log != [] {
      RowsAbove(log[1..], matches, id);
      RowsStep(log, matches, Cursor(0, 0));
      RowsStep(log, matches, Cursor(0, id));
      var rest := Found(log[1..], matches);
      if matches(log[0]) { assert Found(log, matches)[0] == log[0] && Found(log, matches)[1..] == rest; }
    }
  }

  lemma {:induction false} AboveAll(es: seq<Event>, id: int)
    requires forall i :: 0 <= i < |es| ==> es[i].id > id
    ensures Above(es, id) == es
  {
    if es != [] { AboveAll(es[1..], id); }
  }

  lemma {:induction false} AboveIs(es: seq<Event>, i: nat)
    requires Rising(es) && i < |es|
    ensures Above(es, es[i].id) == es[i + 1..]
  {
    var rest := es[1..];
    if i == 0 {
      AboveAll(rest, es[0].id);
    } else {
      assert es[0].id < es[i].id;
      assert Rising(rest) && rest[i - 1] == es[i];
      AboveIs(rest, i - 1);
      assert rest[i..] == es[i + 1..];
    }
  }

  // ----- a growing log

  /** Later states of the log have new events at the end, with larger identifiers. */
  predicate Appended(a: seq<Event>, b: seq<Event>) { a <= b && Rising(b) }

  lemma FoundAppended(a: seq<Event>, b: seq<Event>, matches: Event -> bool)
    requires Appended(a, b)
    ensures Found(a, matches) <= Found(b, matches) && Rising(Found(b, matches)) && Rising(a)
  {
    assert b == a + b[|a|..];
    RowsConcat(a, b[|a|..], matches, Cursor(0, 0));
    RowsRise(b, matches, Cursor(0, 0));
  }

  /** The page below the row at `i`: the rows right below it, newest first, whatever was appended. */
  lemma OlderPage(a: seq<Event>, b: seq<Event>, matches: Event -> bool, i: nat)
    requires Appended(a, b) && i < |Found(a, matches)|
    ensures var es := Found(a, matches);
            var n := if i <= PAGE_LIMIT then i else PAGE_LIMIT;
            List(b, matches, Cursor(es[i].id, 0)) ==
            Model.Ok(Page(Backwards(es[i - n..i]), true, i > PAGE_LIMIT,
                    if i == 0 then es[i].id else es[i - 1].id, if i == 0 then 0 else es[i - n].id))
  {
    hide Rows, Before, Backwards, Found;
    var es, fs := Found(a, matches), Found(b, matches);
    FoundAppended(a, b, matches);
    RowsBefore(b, matches, es[i].id);
    BeforeIs(fs, i);
    assert fs[..i] == es[..i] && fs[i] == es[i];
    assert es[i].id > 0;
    CutPage(es[..i]);
    var n := if i <= PAGE_LIMIT then i else PAGE_LIMIT;
    assert es[..i][i - n..] == es[i - n..i];
    assert |First(Backwards(es[..i]), PAGE_LIMIT + 1)| > PAGE_LIMIT <==> i > PAGE_LIMIT;
  }

  /** The newest rows, cut to a page. */
  lemma CutPage(rows: seq<Event>)
    ensures var n := if |rows| <= PAGE_LIMIT then |rows| else PAGE_LIMIT;
            First(First(Backwards(rows), PAGE_LIMIT + 1), PAGE_LIMIT) == Backwards(rows[|rows| - n..])
  {
    hide Backwards;
    var n := if |rows| <= PAGE_LIMIT then |rows| else PAGE_LIMIT;
    var front, suffix := rows[..|rows| - n], rows[|rows| - n..];
    FirstOfFirst(Backwards(rows));
    assert rows == front + suffix;
    BackwardsConcat(front, suffix);
    FirstOfConcat(Backwards(suffix), Backwards(front));
  }

  lemma FirstOfConcat(a: seq<Event>, b: seq<Event>)
    requires |a| == PAGE_LIMIT || (|a| < PAGE_LIMIT && b == [])
    ensures First(a + b, PAGE_LIMIT) == a
  {
    if |a| < PAGE_LIMIT { assert a + b == a; } else { assert (a + b)[..|a|] == a; assert b == [] ==> a + b == a; }
  }

  lemma FirstOfFirst(es: seq<Event>)
    ensures First(First(es, PAGE_LIMIT + 1), PAGE_LIMIT) == First(es, PAGE_LIMIT)
  {
    if |es| > PAGE_LIMIT + 1 { assert es[..PAGE_LIMIT + 1][..PAGE_LIMIT] == es[..PAGE_LIMIT]; }
  }

  /** The first page. */
  lemma FirstPage(a: seq<Event>, matches: Event -> bool)
    requires Rising(a)
    ensures var es := Found(a, matches);
            var m := |es|;
            var n := if m <= PAGE_LIMIT then m else PAGE_LIMIT;
            List(a, matches, Cursor(0, 0)) ==
            Model.Ok(Page(Backwards(es[m - n..]), false, m > PAGE_LIMIT, if m == 0 then 0 else es[m - 1].id, if m == 0 then 0 else es[m - n].id))
  {
    hide Rows;
    var es := Found(a, matches);
    var m := |es|;
    var n := if m <= PAGE_LIMIT then m else PAGE_LIMIT;
    CutPage(es);
  }

  // ----- the walk

  /** The log at the time of each request of a walk. */
  ghost predicate Grows(log: nat -> seq<Event>) {
    Rising(log(0)) && forall k: nat :: Appended(log(0), log(k))
  }

  /** Following the older cursor from the row at `i` of the first state: the entries of the pages, in order. */
  ghost function WalkFrom(log: nat -> seq<Event>, matches: Event -> bool, k: nat, i: nat): seq<Event>
    requires Grows(log) && i < |Found(log(0), matches)|
    decreases i
  {
    var es := Found(log(0), matches);
    OlderPage(log(0), log(k), matches, i);
    var page := List(log(k), matches, Cursor(es[i].id, 0)).value;
    if page.hasNext then page.entries + WalkFrom(log, matches, k + 1, RowAt(es, page.older, i)) else page.entries
  }

  /** The position of an identifier among the rows below `i`. */
  ghost function RowAt(es: seq<Event>, id: int, i: nat): (r: nat)
    requires exists j :: 0 <= j < i < |es| && es[j].id == id
    ensures r < i < |es| && es[r].id == id
  {
    var j :| 0 <= j < i < |es| && es[j].id == id;
    j
  }

  /** The whole walk: the first page, and then every older one until there is no next page. */
  ghost function Walk(log: nat -> seq<Event>, matches: Event -> bool): seq<Event>
    requires Grows(log)
  {
    FirstPage(log(0), matches);
    var es := Found(log(0), matches);
    var page := List(log(0), matches, Cursor(0, 0)).value;
    if page.hasNext then page.entries + WalkFrom(log, matches, 1, RowAt(es, page.older, |es| - 1)) else page.entries
  }

  lemma RowIs(es: seq<Event>, i: nat, j: nat)
    requires Rising(es) && i < |es| && j < |es| && es[i].id == es[j].id
    ensures i == j
  {
  }

  lemma BackwardsConcat(a: seq<Event>, b: seq<Event>)
    ensures Backwards(a + b) == Backwards(b) + Backwards(a)
  {
  }

  lemma {:induction false} WalkFromIs(log: nat -> seq<Event>, matches: Event -> bool, k: nat, i: nat)
    requires Grows(log) && i < |Found(log(0), matches)|
    ensures WalkFrom(log, matches, k, i) == Backwards(Found(log(0), matches)[..i])
    decreases i
  {
    hide Rows, List, Backwards;
    var es := Found(log(0), matches);
    OlderPage(log(0), log(k), matches, i);
    if i > PAGE_LIMIT {
      var j := RowAt(es, es[i - PAGE_LIMIT].id, i);
      FoundAppended(log(0), log(0), matches);
      RowIs(es, i - PAGE_LIMIT, j);
      WalkFromIs(log, matches, k + 1, j);
      BackwardsConcat(es[..j], es[j..i]);
      assert es[..j] + es[j..i] == es[..i];
    } else {
      assert es[0..i] == es[..i];
    }
  }

  /**
   * Following the older cursor from the first page visits every matching event that was there at the start
   * exactly once, newest first, although events are appended between the pages.
   */
  lemma WalkVisitsAll(log: nat -> seq<Event>, matches: Event -> bool)
    requires Grows(log)
    ensures Walk(log, matches) == Backwards(Found(log(0), matches))
  {
    hide Rows, List, Backwards, WalkFrom, Found, Rising, RowAt, Grows;
    var es := Found(log(0), matches);
    StartRises(log, matches);
    FirstPage(log(0), matches);
    if |es| > PAGE_LIMIT {
      WalkGoesOn(log, matches);
    } else {
      assert es[0..] == es;
    }
  }

  lemma StartRises(log: nat -> seq<Event>, matches: Event -> bool)
    requires Grows(log)
    ensures Rising(log(0)) && Rising(Found(log(0), matches))
  {
    hide Rows, Rising, Appended;
    RowsRise(log(0), matches, Cursor(0, 0));
  }

  lemma WalkGoesOn(log: nat -> seq<Event>, matches: Event -> bool)
    requires Grows(log) && |Found(log(0), matches)| > PAGE_LIMIT
    ensures Walk(log, matches) == Backwards(Found(log(0), matches))
  {
    hide Rows, List, Backwards, WalkFrom, Found, Rising, RowAt, Grows;
    var es := Found(log(0), matches);
    var m := |es|;
    StartRises(log, matches);
    FirstPage(log(0), matches);
    assert exists j :: 0 <= j < m - 1 < |es| && es[j].id == es[m - PAGE_LIMIT].id;
    var j := RowAt(es, es[m - PAGE_LIMIT].id, m - 1);
    RowIs(es, m - PAGE_LIMIT, j);
    WalkFromIs(log, matches, 1, j);
    BackwardsConcat(es[..j], es[j..]);
    assert es[..j] + es[j..] == es;
    assert Walk(log, matches) == Backwards(es[j..]) + WalkFrom(log, matches, 1, j);
  }

  /** One newer step from an older page gives back exactly the page it came from, whatever was appended meanwhile. */
  lemma NewerStepReturns(a: seq<Event>, b: seq<Event>, d: seq<Event>, matches: Event -> bool, c: Cursor)
    requires Appended(a, b) && Appended(b, d) && Rising(a) && c.after == 0 && CursorAllowed(c)
    requires c.before > 0 ==> exists i :: 0 <= i < |Found(a, matches)| && Found(a, matches)[i].id == c.before
    requires List(a, matches, c).value.hasNext
    ensures var page := List(a, matches, c).value;
            var older := List(b, matches, Cursor(page.older, 0));
            older.Ok? && older.value.entries != []
            && var back := List(d, matches, Cursor(0, older.value.newer));
            back.Ok? && back.value.entries == page.entries && back.value.older == page.older
  {
    hide Rows, List, Backwards;
    var es := Found(a, matches);
    FoundAppended(a, a, matches);
    var top := TopOf(a, matches, c);
    var j := top - PAGE_LIMIT;
    OlderPage(a, b, matches, j);
    FoundAppended(a, b, matches);
    FoundAppended(b, d, matches);
    NewerPage(d, matches, j - 1, es[j..top]);
  }

  /** Where the page of an older cursor that has a next page ends. */
  lemma TopOf(a: seq<Event>, matches: Event -> bool, c: Cursor) returns (top: nat)
    requires Rising(a) && c.after == 0 && CursorAllowed(c)
    requires c.before > 0 ==> exists i :: 0 <= i < |Found(a, matches)| && Found(a, matches)[i].id == c.before
    requires List(a, matches, c).value.hasNext
    ensures var es := Found(a, matches);
      && PAGE_LIMIT < top <= |es|
      && List(a, matches, c).value.entries == Backwards(es[top - PAGE_LIMIT..top])
      && List(a, matches, c).value.older == es[top - PAGE_LIMIT].id
  {
    hide Rows, List, Backwards;
    var es := Found(a, matches);
    if c.before > 0 {
      top :| 0 <= top < |es| && es[top].id == c.before;
      OlderPage(a, a, matches, top);
    } else {
      top := |es|;
      FirstPage(a, matches);
      assert es[top - PAGE_LIMIT..top] == es[top - PAGE_LIMIT..];
    }
  }

  /** The page above a row, when the rows right above it are known. */
  lemma NewerPage(d: seq<Event>, matches: Event -> bool, i: nat, next: seq<Event>)
    requires Rising(d) && i < |Found(d, matches)| && |next| == PAGE_LIMIT
    requires i + 1 + PAGE_LIMIT <= |Found(d, matches)| && Found(d, matches)[i + 1..i + 1 + PAGE_LIMIT] == next
    ensures var r := List(d, matches, Cursor(0, Found(d, matches)[i].id));
            r.Ok? && r.value.entries == Backwards(next) && r.value.older == next[0].id
  {
    hide Rows, Backwards;
    var es := Found(d, matches);
    RowsRise(d, matches, Cursor(0, 0));
    assert es[i].id > 0;
    RowsAfter(d, matches, i);
    var rows := es[i + 1..];
    assert First(First(rows, PAGE_LIMIT + 1), PAGE_LIMIT) == next;
  }
}
