/** Strings as the server and the browser see them: white space, trimming, lines. */
module Text {

  datatype Option<+T> = None | Some(value: T)

  const NL := '\n'
  const CR := '\r'
  const BOM := '\U{FEFF}'

  /** `char::is_whitespace` of the server's language. */
  predicate IsWhite(c: char) {
    || '\U{9}' <= c <= '\U{D}' || c == ' ' || c == '\U{85}' || c == '\U{A0}' || c == '\U{1680}'
    || '\U{2000}' <= c <= '\U{200A}' || c == '\U{2028}' || c == '\U{2029}' || c == '\U{202F}'
    || c == '\U{205F}' || c == '\U{3000}'
  }

  /** The white space and line terminators that the browser's `trim` and `\s` accept. */
  predicate IsJsWhite(c: char) {
    (IsWhite(c) && c != '\U{85}') || c == BOM
  }

  /** The characters the browser's regular expression `.` does not match. */
  predicate IsLineTerminator(c: char) {
    c == NL || c == CR || c == '\U{2028}' || c == '\U{2029}'
  }

  /** The first index from `i` on whose character `p` does not accept. */
  function SkipFrom(s: string, p: char -> bool, i: nat): (r: nat)
    requires i <= |s|
    ensures i <= r <= |s|
    decreases |s| - i
  {
    if i < |s| && p(s[i]) then SkipFrom(s, p, i + 1) else i
  }

  /** The end of `s[..i]` without the characters at its end that `p` accepts. */
  function SkipBack(s: string, p: char -> bool, i: nat): (r: nat)
    requires i <= |s|
    ensures r <= i
  {
    if i > 0 && p(s[i - 1]) then SkipBack(s, p, i - 1) else i
  }

  function DropWhile(s: string, p: char -> bool): string { s[SkipFrom(s, p, 0)..] }

  function DropWhileEnd(s: string, p: char -> bool): string { s[..SkipBack(s, p, |s|)] }

  lemma {:induction false} SkipFromStops(s: string, p: char -> bool, i: nat)
    requires i <= |s|
    ensures var r := SkipFrom(s, p, i); (r < |s| ==> !p(s[r])) && forall j :: i <= j < r ==> p(s[j])
    decreases |s| - i
  {
    if i < |s| && p(s[i]) { SkipFromStops(s, p, i + 1); }
  }

  lemma {:induction false} SkipBackStops(s: string, p: char -> bool, i: nat)
    requires i <= |s|
    ensures var r := SkipBack(s, p, i); (r > 0 ==> !p(s[r - 1])) && forall j :: r <= j < i ==> p(s[j])
  {
    if i > 0 && p(s[i - 1]) { SkipBackStops(s, p, i - 1); }
  }

  function TrimMatches(s: string, p: char -> bool): string {
    DropWhileEnd(DropWhile(s, p), p)
  }

  function TrimStart(s: string): string { DropWhile(s, IsWhite) }

  function Trim(s: string): string { TrimMatches(s, IsWhite) }

  function JsTrim(s: string): string { TrimMatches(s, IsJsWhite) }

  /** Trimming changes nothing exactly when neither end has a character to trim. */
  lemma TrimFixed(s: string, p: char -> bool)
    ensures TrimMatches(s, p) == s <==> s == [] || (!p(s[0]) && !p(s[|s| - 1]))
  {
    var a := DropWhile(s, p);
    SkipFromStops(s, p, 0);
    SkipBackStops(a, p, |a|);
    if s != [] && p(s[0]) {
      assert SkipFrom(s, p, 0) >= 1;
      assert |TrimMatches(s, p)| < |s|;
    }
  }

  lemma TrimIdempotent(s: string, p: char -> bool)
    ensures TrimMatches(TrimMatches(s, p), p) == TrimMatches(s, p)
  {
    var a := DropWhile(s, p);
    var b := DropWhileEnd(a, p);
    SkipFromStops(s, p, 0);
    SkipBackStops(a, p, |a|);
    if b != [] {
      assert b[0] == a[0] && !p(a[0]) && !p(b[|b| - 1]);
    }
    TrimFixed(b, p);
  }

  /** A string that begins with a kept character is trimmed at its end only. */
  lemma TrimKeepsHead(s: string, p: char -> bool)
    requires s != [] && !p(s[0])
    ensures DropWhile(s, p) == s
    ensures TrimMatches(s, p) != [] && TrimMatches(s, p)[0] == s[0]
  {
    SkipBackStops(s, p, |s|);
    assert DropWhile(s, p) == s;
  }

  lemma TrimAllWhite(s: string, p: char -> bool)
    ensures TrimMatches(s, p) == [] <==> forall i :: 0 <= i < |s| ==> p(s[i])
  {
    var a := DropWhile(s, p);
    var k := SkipFrom(s, p, 0);
    SkipFromStops(s, p, 0);
    SkipBackStops(a, p, |a|);
    if a != [] {
      assert a[0] == s[k] && !p(s[k]);
    }
  }

  /** `strip_prefix` */
  function StripPrefix(s: string, prefix: string): Option<string> {
    if prefix <= s then Some(s[|prefix|..]) else None
  }

  /** `strip_suffix` for one character */
  function StripSuffix(s: string, c: char): Option<string> {
    if s != [] && s[|s| - 1] == c then Some(s[..|s| - 1]) else None
  }

  /** Index of the first `c` from `i` on, or the length when there is none. */
  function FindFrom(s: string, c: char, i: nat): (r: nat)
    requires i <= |s|
    ensures i <= r <= |s|
    decreases |s| - i
  {
    if i == |s| || s[i] == c then i else FindFrom(s, c, i + 1)
  }

  function Find(s: string, c: char): (i: nat)
    ensures i <= |s|
  {
    FindFrom(s, c, 0)
  }

  lemma {:induction false} FindFromIs(s: string, c: char, i: nat, k: nat)
    requires i <= k <= |s| && (k < |s| ==> s[k] == c)
    requires forall j :: i <= j < k ==> s[j] != c
    ensures FindFrom(s, c, i) == k
    decreases k - i
  {
    if i < k { FindFromIs(s, c, i + 1, k); }
  }

  lemma {:induction false} FindFromFirst(s: string, c: char, i: nat)
    requires i <= |s|
    ensures var r := FindFrom(s, c, i); (r < |s| ==> s[r] == c) && forall j :: i <= j < r ==> s[j] != c
    decreases |s| - i
  {
    if i < |s| && s[i] != c { FindFromFirst(s, c, i + 1); }
  }

  /** The first `c` after a prefix without any. */
  lemma FindAfter(a: string, c: char, b: string)
    requires c !in a
    ensures Find(a + [c] + b, c) == |a|
  {
    FindFromIs(a + [c] + b, c, 0, |a|);
  }

  /** `split('\n')` and the browser's `split("\n")` */
  function Split(s: string): (ls: seq<string>)
    ensures |ls| >= 1
  {
    if s == [] then [""]
    else if s[0] == NL then [""] + Split(s[1..])
    else [[s[0]] + Split(s[1..])[0]] + Split(s[1..])[1..]
  }

  /** Every line followed by a line feed. */
  function Unlines(ls: seq<string>): string {
    if ls == [] then "" else ls[0] + [NL] + Unlines(ls[1..])
  }

  /** `join("\n")` */
  function Join(ls: seq<string>): string {
    if ls == [] then "" else if |ls| == 1 then ls[0] else ls[0] + [NL] + Join(ls[1..])
  }

  /** The lines of a text as `str::lines` gives them. */
  function Lines(s: string): seq<string> {
    var parts := Split(s);
    var closed := DropCrs(parts[..|parts| - 1]);
    if parts[|parts| - 1] == "" then closed else closed + [parts[|parts| - 1]]
  }

  function DropCr(s: string): string {
    if s != [] && s[|s| - 1] == CR then s[..|s| - 1] else s
  }

  function DropCrs(ls: seq<string>): (r: seq<string>)
    ensures |r| == |ls|
    ensures forall i :: 0 <= i < |ls| ==> r[i] == DropCr(ls[i])
  {
    if ls == [] then [] else [DropCr(ls[0])] + DropCrs(ls[1..])
  }

  lemma {:induction false} SplitParts(s: string)
    ensures Join(Split(s)) == s
    ensures forall i :: 0 <= i < |Split(s)| ==> NL !in Split(s)[i]
  {
    if s != [] {
      SplitParts(s[1..]);
      var rest := Split(s[1..]);
      if s[0] == NL {
        assert Split(s)[1..] == rest;
      } else {
        assert Split(s)[1..] == rest[1..];
        if |rest| > 1 {
          calc {
            Join(Split(s));
            [s[0]] + rest[0] + [NL] + Join(rest[1..]);
            [s[0]] + (rest[0] + [NL] + Join(rest[1..]));
            [s[0]] + Join(rest);
          }
        }
      }
    }
  }

  lemma {:induction false} SplitPlain(s: string)
    requires NL !in s
    ensures Split(s) == [s]
  {
    if s != [] {
      SplitPlain(s[1..]);
      assert [s[0]] + s[1..] == s;
    }
  }

  lemma {:induction false} SplitConcat(a: string, b: string)
    ensures Split(a + [NL] + b) == Split(a) + Split(b)
  {
    if a == [] {
      assert (a + [NL] + b)[1..] == b;
    } else {
      assert (a + [NL] + b)[1..] == a[1..] + [NL] + b;
      SplitConcat(a[1..], b);
    }
  }

  /** A prefix without line feeds only lengthens the first line. */
  lemma {:induction false} SplitPrefix(a: string, b: string)
    requires NL !in a
    ensures Split(a + b) == [a + Split(b)[0]] + Split(b)[1..]
  {
    if a == [] {
      assert a + b == b && a + Split(b)[0] == Split(b)[0];
    } else {
      assert (a + b)[1..] == a[1..] + b;
      SplitPrefix(a[1..], b);
      assert [a[0]] + (a[1..] + Split(b)[0]) == a + Split(b)[0];
    }
  }

  lemma {:induction false} SplitUnlines(ls: seq<string>)
    requires forall i :: 0 <= i < |ls| ==> NL !in ls[i]
    ensures Split(Unlines(ls)) == ls + [""]
  {
    if ls != [] {
      SplitUnlines(ls[1..]);
      SplitConcat(ls[0], Unlines(ls[1..]));
      SplitPlain(ls[0]);
      assert [ls[0]] + (ls[1..] + [""]) == ls + [""];
    }
  }

  lemma {:induction false} UnlinesConcat(a: seq<string>, b: seq<string>)
    ensures Unlines(a + b) == Unlines(a) + Unlines(b)
  {
    if a == [] {
      assert a + b == b;
    } else {
      assert (a + b)[1..] == a[1..] + b;
      UnlinesConcat(a[1..], b);
    }
  }

  lemma {:induction false} UnlinesSplit(s: string)
    ensures Unlines(Split(s)) == s + [NL]
  {
    SplitParts(s);
    UnlinesJoin(Split(s));
  }

  lemma {:induction false} UnlinesJoin(ls: seq<string>)
    requires ls != []
    ensures Join(ls) + [NL] == Unlines(ls)
  {
    if |ls| > 1 {
      UnlinesJoin(ls[1..]);
    } else {
      assert Unlines(ls[1..]) == "";
    }
  }

  /** A text of closed lines, none of which ends in a carriage return, comes back line by line. */
  lemma LinesUnlines(ls: seq<string>)
    requires forall i :: 0 <= i < |ls| ==> NL !in ls[i] && DropCr(ls[i]) == ls[i]
    ensures Lines(Unlines(ls)) == ls
  {
    hide Split, Unlines;
    SplitUnlines(ls);
    var parts := Split(Unlines(ls));
    assert parts[..|parts| - 1] == ls;
    assert DropCrs(ls) == ls;
  }

  /** Texts of closed lines are equal only when the lines are. */
  lemma UnlinesInjective(a: seq<string>, b: seq<string>)
    requires forall i :: 0 <= i < |a| ==> NL !in a[i]
    requires forall i :: 0 <= i < |b| ==> NL !in b[i]
    requires Unlines(a) == Unlines(b)
    ensures a == b
  {
    SplitUnlines(a);
    SplitUnlines(b);
    assert a == (a + [""])[..|a|];
    assert b == (b + [""])[..|b|];
  }
}
