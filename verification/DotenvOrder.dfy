/** The order in which entries are written, stated on the written list. */
module DotenvOrder {
  import opened Text
  import opened Dotenv
  import opened DotenvRender

  // ----- names

  /** At the first character in which they differ the first name has the smaller one, or it ends there. */
  predicate Before(a: string, b: string) { exists k :: 0 <= k <= |a| && k < |b| && DifferAt(a, b, k) }

  predicate DifferAt(a: string, b: string, k: nat)
    requires k <= |a| && k < |b|
  {
    (forall i :: 0 <= i < k ==> a[i] == b[i]) && (k == |a| || a[k] < b[k])
  }

  lemma {:induction false} StrLessIsBefore(a: string, b: string)
    ensures StrLess(a, b) <==> Before(a, b)
  {
    if a != "" && b != "" && a[0] == b[0] {
      StrLessIsBefore(a[1..], b[1..]);
      if Before(a[1..], b[1..]) {
        var k :| 0 <= k <= |a[1..]| && k < |b[1..]| && DifferAt(a[1..], b[1..], k);
        forall i | 0 <= i < k + 1 ensures a[i] == b[i] {
          if i > 0 { assert a[1..][i - 1] == b[1..][i - 1]; }
        }
        assert DifferAt(a, b, k + 1);
      }
      if Before(a, b) {
        var k :| 0 <= k <= |a| && k < |b| && DifferAt(a, b, k);
        assert DifferAt(a[1..], b[1..], k - 1);
      }
    } else if b != "" && (a == "" || a[0] < b[0]) {
      assert DifferAt(a, b, 0);
    }
  }

  // ----- the written list

  /** The smallest position of an entry of the group. */
  predicate Lowest(es: seq<Entry>, group: string, n: int) {
    && (exists i :: 0 <= i < |es| && es[i].group == Some(group) && es[i].position == n)
    && forall i :: 0 <= i < |es| && es[i].group == Some(group) ==> n <= es[i].position
  }

  /** Ungrouped entries first; within a group by position, then by key. */
  predicate MayPrecede(a: Entry, b: Entry) {
    && (b.group.None? ==> a.group.None?)
    && (a.group == b.group ==> a.position < b.position || (a.position == b.position && (a.key == b.key || Before(a.key, b.key))))
  }

  /** Of two groups, the one with the smaller smallest position stands first; with equal ones the smaller name. */
  ghost predicate GroupsRise(es: seq<Entry>, a: Entry, b: Entry) {
    a.group.Some? && b.group.Some? && a.group != b.group ==>
      forall m, n :: Lowest(es, a.group.value, m) && Lowest(es, b.group.value, n) ==>
        m < n || (m == n && Before(a.group.value, b.group.value))
  }

  /**
   * The list that is written holds the same entries: ungrouped ones first, groups by smallest position and
   * then by name, and within a group by position and then by key.
   */
  lemma WrittenOrder(es: seq<Entry>)
    ensures multiset(Ordered(es)) == multiset(es) && Render(es) == Unlines(RenderLines(Ordered(es), None, true))
    ensures forall i, j :: 0 <= i < j < |Ordered(es)| ==>
              MayPrecede(Ordered(es)[i], Ordered(es)[j]) && GroupsRise(es, Ordered(es)[i], Ordered(es)[j])
  {
    hide Sort, RenderLines, EntryLe, MayPrecede, GroupsRise;
    var order := GroupOrder(es);
    SortPermutes(order, es);
    SortSorts(order, es);
    forall i, j | 0 <= i < j < |Ordered(es)|
      ensures MayPrecede(Ordered(es)[i], Ordered(es)[j]) && GroupsRise(es, Ordered(es)[i], Ordered(es)[j])
    {
      var a, b := Ordered(es)[i], Ordered(es)[j];
      assert EntryLe(order, a, b);
      assert a in multiset(es) && b in multiset(es);
      LeIsOrder(es, a, b);
    }
  }

  lemma LeIsOrder(es: seq<Entry>, a: Entry, b: Entry)
    requires EntryLe(GroupOrder(es), a, b) && a in es && b in es
    ensures MayPrecede(a, b) && GroupsRise(es, a, b)
  {
    hide StrLess, Before, GroupOrder;
    StrLessIsBefore(a.key, b.key);
    if a.group.Some? && b.group.Some? && a.group != b.group {
      StrLessIsBefore(a.group.value, b.group.value);
      LowestIsRank(es, a.group.value);
      LowestIsRank(es, b.group.value);
    }
  }

  lemma LowestIsRank(es: seq<Entry>, g: string)
    ensures forall n :: Lowest(es, g, n) ==> g in GroupOrder(es) && GroupOrder(es)[g] == n
  {
    GroupOrderIsMinimum(es);
  }
}
