/** The line-by-line quote scanner agrees with the decoder of whole values, on every input. */
module DotenvScanner {
  import opened Text
  import opened Bytes
  import opened Dotenv

  /** Where the decoder of the whole value finds the closing quote; the length when there is none. */
  function Closing(s: string, quote: char, escaped: bool): (k: nat)
    ensures k <= |s|
  {
    if s == "" then 0
    else if escaped then 1 + Closing(s[1..], quote, false)
    else if quote == '"' && s[0] == '\\' then 1 + Closing(s[1..], quote, true)
    else if s[0] == quote then 0
    else 1 + Closing(s[1..], quote, false)
  }

  /** Whether the decoder accepts the text after an opening quote. */
  predicate Accepts(body: string, quote: char) {
    if quote == '"' then DecodeDouble(body, false).Ok? else DecodeSingle(body).Ok?
  }

  predicate AllWhite(s: string) { forall i :: 0 <= i < |s| ==> IsWhite(s[i]) }

  function Feeds(s: string): nat {
    if s == "" then 0 else (if s[0] == NL then 1 else 0) + Feeds(s[1..])
  }

  lemma {:induction false} FeedsConcat(a: string, b: string)
    ensures Feeds(a + b) == Feeds(a) + Feeds(b)
  {
    if a == "" {
      assert a + b == b;
    } else {
      assert (a + b)[1..] == a[1..] + b;
      FeedsConcat(a[1..], b);
    }
  }

  lemma {:induction false} NoFeeds(s: string)
    requires NL !in s
    ensures Feeds(s) == 0
  {
    if s != "" { NoFeeds(s[1..]); }
  }

  /** What is accepted, without trimming: a closing quote with only white space behind it. */
  predicate ClosedBy(s: string, quote: char, escaped: bool) {
    var k := Closing(s, quote, escaped);
    k < |s| && AllWhite(s[k + 1..])
  }

  lemma {:induction false} DoubleClosed(s: string, escaped: bool)
    requires DecodeDouble(s, escaped).Ok?
    ensures ClosedBy(s, '"', escaped)
  {
    hide TrimMatches;
    TrimAllWhite(if s == "" then "" else s[1..], IsWhite);
    if escaped {
      DoubleClosed(s[1..], false);
      ShiftClosed(s, '"', escaped, false);
    } else if s[0] == '\\' {
      DoubleClosed(s[1..], true);
      ShiftClosed(s, '"', escaped, true);
    } else if s[0] != '"' {
      DoubleClosed(s[1..], false);
      ShiftClosed(s, '"', escaped, false);
    }
  }

  lemma ShiftClosed(s: string, quote: char, escaped: bool, escaped': bool)
    requires s != "" && Closing(s, quote, escaped) == 1 + Closing(s[1..], quote, escaped')
    requires ClosedBy(s[1..], quote, escaped')
    ensures ClosedBy(s, quote, escaped)
  {
    hide Closing;
    var k := Closing(s[1..], quote, escaped');
    assert s[k + 2..] == s[1..][k + 1..];
  }

  lemma {:induction false} SingleClosing(s: string, i: nat)
    requires i <= |s|
    ensures FindFrom(s, '\'', i) == i + Closing(s[i..], '\'', false)
    decreases |s| - i
  {
    if i < |s| {
      SingleClosing(s, i + 1);
      assert s[i..][1..] == s[i + 1..];
    }
  }

  lemma AcceptedIsClosed(body: string, quote: char)
    requires quote == '"' || quote == '\''
    requires Accepts(body, quote)
    ensures ClosedBy(body, quote, false)
  {
    hide TrimMatches, Closing, DecodeDouble;
    if quote == '"' {
      DoubleClosed(body, false);
    } else {
      SingleClosing(body, 0);
      assert body[0..] == body;
      TrimAllWhite(body[Find(body, '\'') + 1..], IsWhite);
    }
  }

  /** Text behind the closing quote does not move it. */
  lemma {:induction false} ClosingExtends(s: string, more: string, quote: char, escaped: bool)
    requires Closing(s, quote, escaped) < |s|
    ensures Closing(s + more, quote, escaped) == Closing(s, quote, escaped)
  {
    assert (s + more)[0] == s[0] && (s + more)[1..] == s[1..] + more;
    if escaped {
      ClosingExtends(s[1..], more, quote, false);
    } else if quote == '"' && s[0] == '\\' {
      ClosingExtends(s[1..], more, quote, true);
    } else if s[0] != quote {
      ClosingExtends(s[1..], more, quote, false);
    }
  }

  lemma {:induction false} ClosesIsClosing(s: string, quote: char, escaped: bool)
    ensures Closes(s, quote, escaped) <==> Closing(s, quote, escaped) < |s|
  {
    if s != "" {
      ClosesIsClosing(s[1..], quote, false);
      ClosesIsClosing(s[1..], quote, true);
    }
  }

  /** Every escape in the text names a character the decoder knows, up to the closing quote. */
  predicate EscapesKnown(s: string, escaped: bool) {
    s == "" ||
    (if escaped then Unescape(s[0]).Some? && EscapesKnown(s[1..], false)
     else if s[0] == '\\' then EscapesKnown(s[1..], true)
     else if s[0] == '"' then true
     else EscapesKnown(s[1..], false))
  }

  lemma {:induction false} DecodedEscapesKnown(s: string, escaped: bool)
    requires DecodeDouble(s, escaped).Ok?
    ensures EscapesKnown(s, escaped)
  {
    if escaped {
      DecodedEscapesKnown(s[1..], false);
    } else if s[0] == '\\' {
      DecodedEscapesKnown(s[1..], true);
    } else if s[0] != '"' {
      DecodedEscapesKnown(s[1..], false);
    }
  }

  lemma {:induction false} EscapesKnownPrefix(s: string, more: string, escaped: bool)
    requires EscapesKnown(s, escaped) && Closing(s, '"', escaped) < |s|
    ensures EscapesKnown(s + more, escaped)
  {
    assert (s + more)[0] == s[0] && (s + more)[1..] == s[1..] + more;
    if escaped {
      EscapesKnownPrefix(s[1..], more, false);
    } else if s[0] == '\\' {
      EscapesKnownPrefix(s[1..], more, true);
    } else if s[0] != '"' {
      EscapesKnownPrefix(s[1..], more, false);
    }
  }

  predicate Readable(s: string, quote: char, escaped: bool) {
    quote == '"' ==> EscapesKnown(s, escaped)
  }

  /**
   * A line that the scanner leaves open does not leave an escape pending either, because no escape
   * names a line feed: scanning may start afresh on the next line.
   */
  lemma {:induction false} OpenLine(line: string, tail: string, quote: char, escaped: bool)
    requires quote == '"' || (quote == '\'' && !escaped)
    requires !Closes(line, quote, escaped) && Readable(line + [NL] + tail, quote, escaped)
    ensures Closing(line + [NL] + tail, quote, escaped) == |line| + 1 + Closing(tail, quote, false)
    ensures Readable(tail, quote, false)
  {
    var s := line + [NL] + tail;
    if line == "" {
      assert s[1..] == tail && s[0] == NL;
    } else {
      assert s[0] == line[0] && s[1..] == line[1..] + [NL] + tail;
      OpenLine(line[1..], tail, quote, !escaped && quote == '"' && line[0] == '\\');
    }
  }

  /** How many lines the collector takes. */
  function Taken(rest: seq<string>, quote: char): (n: nat)
    ensures n <= |rest|
    decreases |rest|
  {
    if rest == [] then 0 else if Closes(rest[0], quote, false) then 1 else 1 + Taken(rest[1..], quote)
  }

  lemma JoinCons(a: string, ls: seq<string>)
    requires ls != []
    ensures Join([a] + ls) == a + [NL] + Join(ls)
  {
    assert ([a] + ls)[1..] == ls;
  }

  lemma {:induction false} CollectIsJoin(acc: string, rest: seq<string>, quote: char)
    ensures Collect(acc, rest, quote) == (Join([acc] + rest[..Taken(rest, quote)]), Taken(rest, quote))
    decreases |rest|
  {
    hide Closes, Join;
    var n := Taken(rest, quote);
    if rest == [] {
      assert [acc] + rest[..0] == [acc];
      JoinOne(acc);
    } else {
      var next, grown := rest[0], acc + [NL] + rest[0];
      JoinOne(next);
      JoinOne(grown);
      if Closes(next, quote, false) {
        assert rest[..1] == [next];
        JoinCons(acc, [next]);
      } else {
        CollectIsJoin(grown, rest[1..], quote);
        var lines := rest[1..][..n - 1];
        assert rest[..n] == [next] + lines;
        JoinCons(acc, [next] + lines);
        if lines == [] {
          assert [next] + lines == [next] && [grown] + lines == [grown];
        } else {
          JoinCons(next, lines);
          JoinCons(grown, lines);
          assert acc + [NL] + (next + [NL] + Join(lines)) == grown + [NL] + Join(lines);
        }
      }
    }
  }

  lemma JoinOne(a: string)
    ensures Join([a]) == a
  {
  }

  /** In the lines that the collector takes, the closing quote stands on the last one. */
  lemma {:induction false} CollectedClosing(first: string, rest: seq<string>, quote: char)
    requires quote == '"' || quote == '\''
    requires NL !in first && forall i :: 0 <= i < |rest| ==> NL !in rest[i]
    requires !Closes(first, quote, false)
    ensures var n := Taken(rest, quote);
            var joined := Join([first] + rest[..n]);
            Readable(joined, quote, false) && Closing(joined, quote, false) < |joined| ==>
              Feeds(joined[..Closing(joined, quote, false)]) == n
    decreases |rest|
  {
    hide Closes, Join, Closing, Feeds, EscapesKnown;
    if rest == [] {
      assert [first] + rest[..0] == [first];
      JoinOne(first);
      ClosesIsClosing(first, quote, false);
    } else {
      var next, n := rest[0], Taken(rest, quote);
      if Closes(next, quote, false) {
        assert [first] + rest[..1] == [first, next];
        LastLine(first, next, quote);
      } else {
        CollectedClosing(next, rest[1..], quote);
        var lines := [next] + rest[1..][..n - 1];
        assert rest[..n] == lines;
        JoinCons(first, lines);
        OneLineMore(first, Join(lines), quote, n - 1);
      }
    }
  }

  lemma OneLineMore(first: string, tail: string, quote: char, n: nat)
    requires quote == '"' || quote == '\''
    requires NL !in first && !Closes(first, quote, false)
    requires Readable(tail, quote, false) && Closing(tail, quote, false) < |tail| ==>
               Feeds(tail[..Closing(tail, quote, false)]) == n
    ensures var joined := first + [NL] + tail;
            Readable(joined, quote, false) && Closing(joined, quote, false) < |joined| ==>
              Feeds(joined[..Closing(joined, quote, false)]) == n + 1
  {
    hide Closes, Closing, Feeds, EscapesKnown;
    var joined := first + [NL] + tail;
    if Readable(joined, quote, false) && Closing(joined, quote, false) < |joined| {
      OpenLine(first, tail, quote, false);
      var k := Closing(tail, quote, false);
      NoFeeds(first);
      OneFeed();
      FeedsConcat(first + [NL], tail[..k]);
      FeedsConcat(first, [NL]);
      assert joined[..|first| + 1 + k] == first + [NL] + tail[..k];
    }
  }

  lemma LastLine(first: string, last: string, quote: char)
    requires quote == '"' || quote == '\''
    requires NL !in first && NL !in last
    requires !Closes(first, quote, false) && Closes(last, quote, false)
    ensures var joined := Join([first, last]);
            Readable(joined, quote, false) ==> Feeds(joined[..Closing(joined, quote, false)]) == 1
  {
    hide Closes, Closing, Feeds, EscapesKnown, Join;
    assert [first] + [last] == [first, last];
    JoinCons(first, [last]);
    JoinOne(last);
    var joined := first + [NL] + last;
    if Readable(joined, quote, false) {
      OpenLine(first, last, quote, false);
      var k := Closing(last, quote, false);
      assert joined[..|first| + 1 + k] == first + [NL] + last[..k];
      assert NL !in last[..k];
      FeedsConcat(first + [NL], last[..k]);
      FeedsConcat(first, [NL]);
      NoFeeds(first);
      NoFeeds(last[..k]);
      OneFeed();
    }
  }

  lemma OneFeed()
    ensures Feeds([NL]) == 1
  {
    assert [NL][1..] == "";
  }

  // ----- whole assignments

  /** The quote and the text behind it, when the value of a logical line is quoted. */
  function QuotedBody(logical: string): Option<(char, string)> {
    var assignment := StripExport(logical);
    var sep := Find(assignment, '=');
    if sep == |assignment| then None
    else
      var value := Trim(assignment[sep + 1..]);
      if value != "" && (value[0] == '"' || value[0] == '\'') then Some((value[0], value[1..])) else None
  }

  /** Accepted: the closing quote stands on the last physical line taken. */
  lemma AcceptedHasFeeds(logical: string, full: string, quote: char, n: nat)
    requires QuotedBody(logical).Some?
    requires QuotedBody(logical).value.0 == quote && ParseAssignment(logical).Ok?
    requires QuotedBody(logical).value.1 <= full
    requires Readable(full, quote, false) && Closing(full, quote, false) < |full| ==>
               Feeds(full[..Closing(full, quote, false)]) == n
    ensures var body := QuotedBody(logical).value.1;
            Closing(body, quote, false) < |body| && Feeds(body[..Closing(body, quote, false)]) == n
  {
    hide Trim, StripExport, Find, ValidateKeySyntax, Closing, Feeds, EscapesKnown, DecodeDouble, DecodeSingle, Utf8Len;
    var body := QuotedBody(logical).value.1;
    assert Accepts(body, quote);
    AcceptedIsClosed(body, quote);
    var more := full[|body|..];
    assert full == body + more;
    ClosingExtends(body, more, quote, false);
    if quote == '"' {
      DecodedEscapesKnown(body, false);
      EscapesKnownPrefix(body, more, false);
    }
    assert full[..Closing(full, quote, false)] == body[..Closing(body, quote, false)];
  }

  function Suffix(lines: seq<string>): string {
    if lines == [] then "" else [NL] + Join(lines)
  }

  lemma JoinSuffix(a: string, lines: seq<string>)
    ensures Join([a] + lines) == a + Suffix(lines)
  {
    hide Join;
    if lines == [] {
      assert [a] + lines == [a];
      JoinOne(a);
    } else {
      JoinCons(a, lines);
    }
  }

  lemma {:induction false} SkipWithin(a: string, more: string, p: char -> bool, i: nat)
    requires i <= |a| && SkipFrom(a, p, i) < |a|
    ensures SkipFrom(a + more, p, i) == SkipFrom(a, p, i)
    decreases |a| - i
  {
    if p(a[i]) { SkipWithin(a, more, p, i + 1); }
  }

  lemma StartWithin(a: string, more: string)
    requires TrimStart(a) != ""
    ensures TrimStart(a + more) == TrimStart(a) + more
  {
    SkipWithin(a, more, IsWhite, 0);
  }

  lemma FindWithin(a: string, more: string, c: char)
    requires Find(a, c) < |a|
    ensures Find(a + more, c) == Find(a, c)
  {
    FindFromFirst(a, c, 0);
    FindFromIs(a + more, c, 0, Find(a, c));
  }

  lemma ExportWithin(a: string, more: string)
    requires Find(StripExport(a), '=') < |StripExport(a)|
    ensures StripExport(a + more) == StripExport(a) + more
  {
    var x := "export ";
    FindFromFirst(a, '=', 0);
    if x <= a {
      assert x <= a + more && (a + more)[7..] == a[7..] + more;
    } else if |a| >= 7 {
      assert a[..7] == (a + more)[..7];
    } else {
      var i := Find(a, '=');
      assert (a + more)[i] == '=' && x[i] != '=';
    }
  }

  /** The text after the equals sign, from its first character that is not white space. */
  function RawText(start: string): Option<string> {
    var assignment := StripExport(start);
    var sep := Find(assignment, '=');
    if sep == |assignment| then None else Some(TrimStart(assignment[sep + 1..]))
  }

  predicate IsQuoted(raw: string) { raw != "" && (raw[0] == '"' || raw[0] == '\'') }

  /** The value text of a quoted assignment grows with the lines appended to it. */
  lemma BodyWithin(start: string, more: string)
    requires RawText(start).Some? && IsQuoted(RawText(start).value)
    ensures QuotedBody(start + more).Some?
    ensures QuotedBody(start + more).value.0 == RawText(start).value[0]
    ensures QuotedBody(start + more).value.1 <= RawText(start).value[1..] + more
  {
    hide StripExport, Find, SkipFrom, SkipBack;
    var assignment := StripExport(start);
    var sep := Find(assignment, '=');
    var after := assignment[sep + 1..];
    var raw := TrimStart(after);
    ExportWithin(start, more);
    FindWithin(assignment, more, '=');
    assert (assignment + more)[sep + 1..] == after + more;
    StartWithin(after, more);
    var v := raw + more;
    SkipBackStops(v, IsWhite, |v|);
    assert Trim(after + more) == v[..SkipBack(v, IsWhite, |v|)];
    assert v[0] == raw[0] && !IsWhite(v[0]);
    assert v[1..] == raw[1..] + more;
    assert v[..SkipBack(v, IsWhite, |v|)][1..] <= v[1..];
  }

  lemma OpeningOfQuoted(logical: string)
    requires QuotedBody(logical).Some?
    ensures RawText(logical).Some? && IsQuoted(RawText(logical).value)
  {
    hide StripExport, Find, SkipFrom;
    var assignment := StripExport(logical);
    var after := assignment[Find(assignment, '=') + 1..];
    var raw := TrimStart(after);
    assert Trim(after) == raw[..SkipBack(raw, IsWhite, |raw|)];
  }

  lemma StartCharacters(line: string, c: char)
    requires c !in line
    ensures var raw := RawText(TrimStart(line)); raw.Some? ==> c !in raw.value
  {
    hide SkipFrom, Find;
  }

  lemma SplitOpening(line: string, rest: seq<string>)
    requires ParseMultiline(line, rest).0.Ok?
    ensures var start := TrimStart(line);
            RawText(start).Some? &&
            var raw := RawText(start).value;
            ParseMultiline(line, rest) ==
              if IsQuoted(raw) && !Closes(raw[1..], raw[0], false) then
                (ParseAssignment(Collect(start, rest, raw[0]).0), Collect(start, rest, raw[0]).1)
              else (ParseAssignment(start), 0)
  {
    hide ParseAssignment, Collect, Closes, Trim, TrimStart, StripExport, Find, ValidateKeySyntax;
  }

  /**
   * When an assignment is accepted, the lines taken are exactly those up to the line on which the
   * decoder of the whole value finds the closing quote; an unquoted assignment takes no further line.
   */
  lemma CollectorStopsAtClosingQuote(line: string, rest: seq<string>)
    requires NL !in line && forall i :: 0 <= i < |rest| ==> NL !in rest[i]
    requires ParseMultiline(line, rest).0.Ok?
    ensures var n := ParseMultiline(line, rest).1;
            var logical := Join([TrimStart(line)] + rest[..n]);
      && ParseMultiline(line, rest).0 == ParseAssignment(logical)
      && match QuotedBody(logical)
         case None => n == 0
         case Some((quote, body)) =>
           Closing(body, quote, false) < |body| && Feeds(body[..Closing(body, quote, false)]) == n
  {
    hide ParseMultiline, ParseAssignment, TrimStart, RawText, QuotedBody, Closing, Feeds, Join, Closes, EscapesKnown;
    SplitOpening(line, rest);
    StartCharacters(line, NL);
    var start, n := TrimStart(line), ParseMultiline(line, rest).1;
    var raw := RawText(start).value;
    var logical := Join([start] + rest[..n]);
    JoinSuffix(start, rest[..n]);
    assert start + "" == start;
    if IsQuoted(raw) {
      var quote := raw[0];
      BodyWithin(start, Suffix(rest[..n]));
      assert NL !in raw[1..];
      if Closes(raw[1..], quote, false) {
        var full := raw[1..] + "";
        assert full == raw[1..];
        ClosesIsClosing(full, quote, false);
        NoFeeds(full[..Closing(full, quote, false)]);
        AcceptedHasFeeds(logical, full, quote, 0);
      } else {
        CollectIsJoin(start, rest, quote);
        CollectedClosing(raw[1..], rest, quote);
        JoinSuffix(raw[1..], rest[..n]);
        AcceptedHasFeeds(logical, raw[1..] + Suffix(rest[..n]), quote, n);
      }
    } else if QuotedBody(start).Some? {
      OpeningOfQuoted(start);
    }
  }
}
