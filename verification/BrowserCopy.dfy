/** The browser's copy of selected records out of a rendered `.env` text. */
module BrowserCopy {
  import opened Text
  import opened Dotenv
  import opened DotenvRender
  import opened DotenvRoundTrip

  /** `/^#\s*\[(.+)]$/` on a trimmed line */
  predicate IsHeading(trimmed: string) {
    trimmed != "" && trimmed[0] == '#' &&
    var k := SkipFrom(trimmed, IsJsWhite, 1);
    && k + 3 <= |trimmed|
    && trimmed[k] == '[' && trimmed[|trimmed| - 1] == ']'
    && forall i :: k < i < |trimmed| - 1 ==> !IsLineTerminator(trimmed[i])
  }

  /** The continuation lines of a quoted record; none when the quote is never closed. */
  function Continuation(rest: seq<string>): (n: Option<nat>)
    ensures n.Some? ==> n.value <= |rest|
  {
    if rest == [] then None
    else if Closes(rest[0], '"', false) then Some(1)
    else
      match Continuation(rest[1..])
      case None => None
      case Some(n) => Some(n + 1)
  }

  function RecordTail(value: string, rest: seq<string>): (n: Option<nat>)
    ensures n.Some? ==> n.value <= |rest|
  {
    if "\"" <= value && !Closes(value[1..], '"', false) then Continuation(rest) else Some(0)
  }

  /** The current heading, the heading last copied, and the lines copied so far. */
  datatype Copy = Copy(current: Option<string>, emitted: Option<string>, output: seq<string>)

  function CopyRecord(st: Copy, record: seq<string>): Copy {
    if st.current.Some? && st.current != st.emitted then
      Copy(st.current, st.current,
           st.output + (if st.output == [] then [] else [""]) + [st.current.value] + record)
    else st.(output := st.output + record)
  }

  datatype Step = Failed | Took(state: Copy, lines: nat)

  /** One turn of the loop over the lines. */
  function CopyTurn(rest: seq<string>, st: Copy, selected: set<string>): (t: Step)
    requires rest != []
    ensures t.Took? ==> 1 <= t.lines <= |rest|
  {
    var line := rest[0];
    var trimmed := JsTrim(line);
    if IsHeading(trimmed) then Took(st.(current := Some(line)), 1)
    else if trimmed == "" || trimmed[0] == '#' then Took(st, 1)
    else
      var sep := Find(line, '=');
      if sep == |line| then Failed
      else
        match RecordTail(line[sep + 1..], rest[1..])
        case None => Failed
        case Some(n) =>
          Took(if JsTrim(line[..sep]) in selected then CopyRecord(st, rest[..1 + n]) else st, 1 + n)
  }

  function CopyLines(rest: seq<string>, st: Copy, selected: set<string>): Option<seq<string>>
    decreases |rest|
  {
    if rest == [] then Some(st.output)
    else
      match CopyTurn(rest, st, selected)
      case Failed => None
      case Took(st', n) => CopyLines(rest[n..], st', selected)
  }

  function CopiedText(output: seq<string>): string {
    if output == [] then "" else Join(output) + "\n"
  }

  const UNSET := Copy(None, None, [])

  /** `selectDotenvEntries`; no text when a line is neither a comment nor a complete record. */
  function SelectEntries(text: string, selected: set<string>): Option<string> {
    match CopyLines(Split(text), UNSET, selected)
    case None => None
    case Some(output) => Some(CopiedText(output))
  }

  // ----- the loops

  method ClosesDotenvQuote(value: string) returns (closed: bool)
    ensures closed == Closes(value, '"', false)
  {
    var escaped := false;
    var i := 0;
    while i < |value|
      invariant 0 <= i <= |value|
      invariant Closes(value[i..], '"', escaped) == Closes(value, '"', false)
    {
      assert value[i..][1..] == value[i + 1..];
      if escaped {
        escaped := false;
      } else if value[i] == '\\' {
        escaped := true;
      } else if value[i] == '"' {
        return true;
      }
      i := i + 1;
    }
    return false;
  }

  /** The inner loop: pushes continuation lines until the quote is closed. */
  method TakeRecord(lines: seq<string>, index: nat, value: string)
    returns (record: seq<string>, last: nat, closed: bool)
    requires index < |lines|
    ensures closed <==> RecordTail(value, lines[index + 1..]).Some?
    ensures closed ==> last < |lines| && last == index + RecordTail(value, lines[index + 1..]).value
    ensures closed ==> record == lines[index..last + 1]
  {
    record, last, closed := [lines[index]], index, true;
    if "\"" <= value {
      closed := ClosesDotenvQuote(value[1..]);
      ghost var rest := lines[index + 1..];
      ghost var open := !closed;
      while !closed && last + 1 < |lines|
        invariant index <= last < |lines| && record == lines[index..last + 1]
        invariant rest == lines[last + 1..]
        invariant open && !closed ==>
          Continuation(lines[index + 1..]) ==
            match Continuation(rest) case None => None case Some(n) => Some(n + (last - index))
        invariant open && closed ==> Continuation(lines[index + 1..]) == Some(last - index)
        invariant !open ==> closed && last == index
      {
        assert rest[0] == lines[last + 1];
        last := last + 1;
        record := record + [lines[last]];
        closed := ClosesDotenvQuote(lines[last]);
        rest := rest[1..];
      }
    }
  }

  method PushRecord(st: Copy, record: seq<string>) returns (st': Copy)
    ensures st' == CopyRecord(st, record)
  {
    var output, emitted := st.output, st.emitted;
    if st.current.Some? && st.current != emitted {
      if output != [] {
        output := output + [""];
      }
      output := output + [st.current.value];
      emitted := st.current;
    }
    st' := Copy(st.current, emitted, output + record);
    assert st.output + [] == st.output;
  }

  method CopyLine(lines: seq<string>, index: nat, st: Copy, selected: set<string>) returns (step: Step)
    requires index < |lines|
    ensures step == CopyTurn(lines[index..], st, selected)
  {
    hide IsHeading, RecordTail, JsTrim, Find, CopyRecord;
    ghost var rest := lines[index..];
    assert rest[0] == lines[index] && rest[1..] == lines[index + 1..];
    var line := lines[index];
    var trimmed := JsTrim(line);
    if IsHeading(trimmed) {
      return Took(st.(current := Some(line)), 1);
    }
    if trimmed == "" || trimmed[0] == '#' {
      return Took(st, 1);
    }
    var separator := Find(line, '=');
    if separator == |line| {
      return Failed;
    }
    var record, last, closed := TakeRecord(lines, index, line[separator + 1..]);
    if !closed {
      return Failed;
    }
    assert record == rest[..1 + (last - index)];
    if JsTrim(line[..separator]) !in selected {
      return Took(st, 1 + (last - index));
    }
    var st' := PushRecord(st, record);
    return Took(st', 1 + (last - index));
  }

  method SelectDotenvEntries(text: string, selected: set<string>) returns (r: Option<string>)
    ensures r == SelectEntries(text, selected)
  {
    hide CopyTurn;
    var lines := Split(text);
    var st := UNSET;
    var index := 0;
    ghost var rest := lines;
    while index < |lines|
      invariant 0 <= index <= |lines| && rest == lines[index..]
      invariant CopyLines(rest, st, selected) == CopyLines(lines, UNSET, selected)
    {
      var step := CopyLine(lines, index, st, selected);
      if step.Failed? {
        return None;
      }
      st := step.state;
      index := index + step.lines;
      rest := rest[step.lines..];
    }
    return Some(CopiedText(st.output));
  }

  // ----- rendered text

  /** Names that a stored group can have: not empty, and on one line for the server. */
  predicate StoredGroup(group: Option<string>) {
    group.Some? ==> group.value != "" && NL !in group.value
  }

  /** The browser's `.` matches every character of the name. */
  predicate OneLineName(group: Option<string>) {
    group.Some? ==> forall i :: 0 <= i < |group.value| ==> !IsLineTerminator(group.value[i])
  }

  predicate Stored(es: seq<Entry>) {
    forall i :: 0 <= i < |es| ==> ValidKey(es[i].key) && StoredGroup(es[i].group)
  }

  function Heading(group: Option<string>): Option<string> {
    match group
    case None => None
    case Some(g) => Some(HeadingLine(g))
  }

  function Filter(es: seq<Entry>, selected: set<string>): seq<Entry> {
    if es == [] then []
    else (if es[0].key in selected then [es[0]] else []) + Filter(es[1..], selected)
  }

  lemma HeadingTrimmed(group: string)
    ensures JsTrim(HeadingLine(group)) == HeadingLine(group)
    ensures group != "" ==> (IsHeading(HeadingLine(group)) <==> OneLineName(Some(group)))
  {
    var line := HeadingLine(group);
    TrimFixed(line, IsJsWhite);
    assert SkipFrom(line, IsJsWhite, 2) == 2;
    assert SkipFrom(line, IsJsWhite, 1) == 2;
    assert |line| == |group| + 4;
    assert forall i :: 0 <= i < |group| ==> group[i] == line[i + 3];
    if group != "" && IsHeading(line) {
      forall i | 0 <= i < |group| ensures !IsLineTerminator(group[i]) { assert line[i + 3] == group[i]; }
    }
  }

  lemma HeadingInjective(g: string, h: string)
    requires HeadingLine(g) == HeadingLine(h)
    ensures g == h
  {
    assert HeadingLine(g)[3..|g| + 3] == g;
    assert HeadingLine(h)[3..|h| + 3] == h;
  }

  lemma CopyHeadingTurn(group: string, rest: seq<string>, st: Copy, selected: set<string>)
    requires group != ""
    ensures CopyTurn([HeadingLine(group)] + rest, st, selected) ==
            Took(if OneLineName(Some(group)) then st.(current := Some(HeadingLine(group))) else st, 1)
  {
    hide HeadingLine, JsTrim, IsHeading, RecordTail, Find;
    HeadingTrimmed(group);
    assert HeadingLine(group)[0] == '#' by { HeadingStart(group); }
  }

  lemma HeadingStart(group: string)
    ensures HeadingLine(group) != "" && HeadingLine(group)[0] == '#'
  {
  }

  lemma CopyBlankTurn(rest: seq<string>, st: Copy, selected: set<string>)
    ensures CopyTurn([""] + rest, st, selected) == Took(st, 1)
  {
    TrimFixed("", IsJsWhite);
  }

  lemma {:induction false} ContinuationOf(ls: seq<string>, rest: seq<string>)
    requires ClosesLast(ls, '"')
    ensures Continuation(ls + rest) == Some(|ls|)
  {
    hide Closes;
    assert (ls + rest)[0] == ls[0] && (ls + rest)[1..] == ls[1..] + rest;
    if |ls| > 1 { ContinuationOf(ls[1..], rest); }
  }

  /** The record of an entry is taken as one piece. */
  lemma RecordTailOf(e: Entry, rest: seq<string>)
    requires ValidKey(e.key)
    ensures var ls := RecordLines(e);
      && ls[0] == e.key + "=" + Split(RenderValue(e.value))[0]
      && RecordTail(Split(RenderValue(e.value))[0], ls[1..] + rest) == Some(|ls| - 1)
  {
    hide ValidKey, Closes, Split, AllSafe, Escape;
    FirstRecordLine(e);
    if AllSafe(e.value) {
      SafeValueLine(e.value);
      assert RecordLines(e)[1..] + rest == rest;
    } else {
      var t := Escape(e.value) + "\"";
      var ts := Split(t);
      assert RenderValue(e.value) == "\"" + t;
      SplitPrefix("\"", t);
      EscapedClosesLast(e.value);
      var first := "\"" + ts[0];
      assert first[1..] == ts[0] && RecordLines(e)[1..] == ts[1..];
      if |ts| > 1 { ContinuationOf(ts[1..], rest); }
    }
  }

  lemma SafeValueLine(value: string)
    requires AllSafe(value)
    ensures Split(value) == [value] && !("\"" <= value)
  {
    forall i | 0 <= i < |value| ensures value[i] != NL && value[i] != '"' {
      assert IsSafe(value[i]);
    }
    SplitPlain(value);
  }

  lemma KeyLine(key: string, raw: string)
    requires ValidKey(key)
    ensures var line := key + "=" + raw;
      && JsTrim(line) != "" && JsTrim(line)[0] != '#'
      && Find(line, '=') == |key| && line[..|key|] == key && line[|key| + 1..] == raw
      && JsTrim(line[..|key|]) == key
  {
    hide ValidKey;
    KeyText(key);
    var line := key + "=" + raw;
    assert line[0] == key[0] && line[..|key|] == key;
    FindAfter(key, '=', raw);
    TrimKeepsHead(line, IsJsWhite);
  }

  lemma CopyRecordTurn(e: Entry, rest: seq<string>, st: Copy, selected: set<string>)
    requires ValidKey(e.key)
    ensures CopyTurn(RecordLines(e) + rest, st, selected) ==
            Took(if e.key in selected then CopyRecord(st, RecordLines(e)) else st, |RecordLines(e)|)
  {
    hide ValidKey, RecordLines, RecordTail, JsTrim, Find, Split, CopyRecord, SkipFrom;
    var ls := RecordLines(e);
    var raw := Split(RenderValue(e.value))[0];
    RecordTailOf(e, rest);
    KeyLine(e.key, raw);
    assert (ls + rest)[0] == ls[0] && (ls + rest)[1..] == ls[1..] + rest && (ls + rest)[..|ls|] == ls;
  }
}
