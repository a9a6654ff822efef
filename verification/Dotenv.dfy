/** The `.env` reader: what each line means, as functions, and the server's loops that compute it. */
module Dotenv {
  import opened Text
  import opened Bytes

  const MAX_INPUT_BYTES := 256 * 1024
  const MAX_ENTRIES := 500
  const MAX_VALUE_BYTES := 32 * 1024
  const MAX_KEY_BYTES := 255
  const MAX_GROUP_CHARS := 80

  datatype Entry = Entry(key: string, value: string, group: Option<string>, position: int)

  datatype Message =
    | InputTooLong
    | NulByte
    | TooManyVariables
    | DuplicateKey
    | NoAssignments
    | ExpectedAssignment
    | EmptyKey
    | KeyTooLong
    | BadKeyStart
    | BadKeyCharacter
    | UnknownEscape
    | TrailingCharacters
    | UnterminatedDouble
    | UnterminatedSingle
    | ValueTooLong

  datatype ParseIssue = ParseIssue(line: nat, message: Message)

  datatype ParseReport = ParseReport(entries: seq<Entry>, issues: seq<ParseIssue>)

  datatype Result<+T> = Ok(value: T) | Err(message: Message)


  // ----- keys and groups

  predicate IsAlpha(c: char) { 'a' <= c <= 'z' || 'A' <= c <= 'Z' }

  predicate IsKeyStart(c: char) { c == '_' || IsAlpha(c) }

  predicate IsKeyChar(c: char) { c == '_' || c == '.' || IsAlpha(c) || '0' <= c <= '9' }

  function ValidateKeySyntax(key: string): Option<Message> {
    if key == "" then Some(EmptyKey)
    else if Utf8Len(key) > MAX_KEY_BYTES then Some(KeyTooLong)
    else if !IsKeyStart(key[0]) then Some(BadKeyStart)
    else if exists i :: 1 <= i < |key| && !IsKeyChar(key[i]) then Some(BadKeyCharacter)
    else None
  }

  predicate ValidKey(key: string) { ValidateKeySyntax(key).None? }

  predicate IsGroupDecoration(c: char) { c == '=' || c == '-' || c == '*' || c == ' ' }

  function NormalizeGroupName(value: string): Option<string> {
    var trimmed := Trim(TrimMatches(Trim(value), IsGroupDecoration));
    if trimmed != "" && |trimmed| <= MAX_GROUP_CHARS then Some(trimmed) else None
  }

  function ParseGroupHeading(comment: string): Option<string> {
    match StripPrefix(comment, "[")
    case None => None
    case Some(rest) =>
      match StripSuffix(rest, ']')
      case None => None
      case Some(bracketed) => NormalizeGroupName(bracketed)
  }

  /** The trimmed lines that are not blank. */
  function NonBlank(lines: seq<string>): seq<string> {
    if lines == [] then []
    else (if Trim(lines[0]) == "" then [] else [Trim(lines[0])]) + NonBlank(lines[1..])
  }

  function FirstNonComment(lines: seq<string>): Option<string> {
    if lines == [] then None
    else if "#" <= lines[0] then FirstNonComment(lines[1..])
    else Some(lines[0])
  }

  predicate IsRule(c: char) { c == '=' || c == '-' || c == '*' }

  /** A plain comment is a group heading when it is decorated or stands above a described assignment. */
  function InferPlainGroup(following: seq<string>, comment: string): Option<string> {
    match NormalizeGroupName(comment)
    case None => None
    case Some(candidate) =>
      if candidate[|candidate| - 1] in ['.', ':', ';'] || '=' in candidate then None
      else
        var after := NonBlank(following);
        if after == [] then None
        else
          var decorated := comment != "" && (IsRule(comment[0]) || IsRule(comment[|comment| - 1]));
          var next := FirstNonComment(after[1..]);
          var described := "#" <= after[0] && next.Some? && ParseAssignment(next.value).Ok?;
          if decorated || described then Some(candidate) else None
  }

  // ----- values

  function Unescape(c: char): Option<char> {
    match c
    case 'n' => Some('\n')
    case 'r' => Some('\r')
    case 't' => Some('\t')
    case '\\' => Some('\\')
    case '"' => Some('"')
    case _ => None
  }

  /** What a double-quoted value says, read after its opening quote. */
  function DecodeDouble(s: string, escaped: bool): Result<string> {
    if s == "" then Err(UnterminatedDouble)
    else if escaped then
      match Unescape(s[0])
      case None => Err(UnknownEscape)
      case Some(c) => Prepend(c, DecodeDouble(s[1..], false))
    else if s[0] == '\\' then DecodeDouble(s[1..], true)
    else if s[0] == '"' then
      if Trim(s[1..]) == "" then Ok("") else Err(TrailingCharacters)
    else Prepend(s[0], DecodeDouble(s[1..], false))
  }

  function Prepend(c: char, r: Result<string>): Result<string> {
    match r
    case Ok(s) => Ok([c] + s)
    case Err(m) => Err(m)
  }

  function DecodeSingle(s: string): Result<string> {
    var end := Find(s, '\'');
    if end == |s| then Err(UnterminatedSingle)
    else if Trim(s[end + 1..]) != "" then Err(TrailingCharacters)
    else Ok(s[..end])
  }

  function ParseValue(value: string): Result<string> {
    if "\"" <= value then DecodeDouble(value[1..], false)
    else if "'" <= value then DecodeSingle(value[1..])
    else Ok(value)
  }

  function StripExport(line: string): string {
    if "export " <= line then line[7..] else line
  }

  function ParseAssignment(line: string): Result<Entry> {
    var assignment := StripExport(line);
    var sep := Find(assignment, '=');
    if sep == |assignment| then Err(ExpectedAssignment)
    else
      var key := Trim(assignment[..sep]);
      match ValidateKeySyntax(key)
      case Some(m) => Err(m)
      case None =>
        match ParseValue(Trim(assignment[sep + 1..]))
        case Err(m) => Err(m)
        case Ok(value) =>
          if Utf8Len(value) > MAX_VALUE_BYTES then Err(ValueTooLong)
          else Ok(Entry(key, value, None, 0))
  }

  // ----- records over several lines

  /** Whether one physical line holds the closing quote. */
  predicate Closes(s: string, quote: char, escaped: bool) {
    if s == "" then false
    else if escaped then Closes(s[1..], quote, false)
    else if quote == '"' && s[0] == '\\' then Closes(s[1..], quote, true)
    else if s[0] == quote then true
    else Closes(s[1..], quote, false)
  }

  /** The logical line grown from `acc`, and how many physical lines it took. */
  function Collect(acc: string, rest: seq<string>, quote: char): (r: (string, nat))
    ensures r.1 <= |rest|
    decreases |rest|
  {
    if rest == [] then (acc, 0)
    else
      var grown := acc + [NL] + rest[0];
      if Closes(rest[0], quote, false) then (grown, 1)
      else
        var tail := Collect(grown, rest[1..], quote);
        (tail.0, tail.1 + 1)
  }

  /** How an assignment line begins: refused, complete, or with an open quote. */
  datatype Opening = Refused(message: Message) | Complete(start: string) | Open(start: string, quote: char)

  function ReadOpening(line: string): Opening {
    var start := TrimStart(line);
    var assignment := StripExport(start);
    var sep := Find(assignment, '=');
    if sep == |assignment| then Refused(ExpectedAssignment)
    else
      match ValidateKeySyntax(Trim(assignment[..sep]))
      case Some(m) => Refused(m)
      case None =>
        var raw := TrimStart(assignment[sep + 1..]);
        if raw == "" || (raw[0] != '"' && raw[0] != '\'') || Closes(raw[1..], raw[0], false) then Complete(start)
        else Open(start, raw[0])
  }

  /** One assignment that starts on `line`: its entry, and how many of the next lines it consumed. */
  function ParseMultiline(line: string, rest: seq<string>): (r: (Result<Entry>, nat))
    ensures r.1 <= |rest|
  {
    match ReadOpening(line)
    case Refused(m) => (Err(m), 0)
    case Complete(start) => (ParseAssignment(start), 0)
    case Open(start, quote) =>
      var logical := Collect(start, rest, quote);
      (ParseAssignment(logical.0), logical.1)
  }

  // ----- whole inputs

  datatype ParseState = ParseState(
    entries: seq<Entry>,
    issues: seq<ParseIssue>,
    group: Option<string>,
    boundary: bool)

  function Keys(entries: seq<Entry>): set<string> {
    set e | e in entries :: e.key
  }

  function Record(st: ParseState, line: nat, result: Result<Entry>): ParseState {
    match result
    case Err(m) => st.(issues := st.issues + [ParseIssue(line, m)])
    case Ok(entry) =>
      if entry.key in Keys(st.entries) then st.(issues := st.issues + [ParseIssue(line, DuplicateKey)])
      else st.(entries := st.entries + [entry.(group := st.group, position := |st.entries|)], boundary := false)
  }

  function Comment(st: ParseState, comment: string, following: seq<string>): ParseState {
    var heading := ParseGroupHeading(comment);
    var group :=
      if heading.Some? then heading
      else if st.boundary then InferPlainGroup(following, comment)
      else None;
    if group.Some? then st.(group := group, boundary := false) else st
  }

  function StripBom(line: string, index: nat): string {
    if index == 0 && [BOM] <= line then line[1..] else line
  }

  datatype LineKind = Blank | CommentLine(text: string) | AssignmentLine(line: string)

  function Classify(physical: string, index: nat): LineKind {
    var line := StripBom(physical, index);
    var trimmed := Trim(line);
    if trimmed == "" then Blank
    else if trimmed[0] == '#' then CommentLine(Trim(trimmed[1..]))
    else AssignmentLine(line)
  }

  /** The outcome of one turn of the line loop: the new state, the lines taken, whether the loop ends. */
  datatype Turn = Turn(state: ParseState, taken: nat, stop: bool)

  function ReadTurn(rest: seq<string>, index: nat, st: ParseState): (t: Turn)
    requires rest != []
    ensures 1 <= t.taken <= |rest|
  {
    match Classify(rest[0], index)
    case Blank => Turn(st.(boundary := true), 1, false)
    case CommentLine(text) => Turn(Comment(st, text, rest[1..]), 1, false)
    case AssignmentLine(line) =>
      if |st.entries| >= MAX_ENTRIES then
        Turn(st.(issues := st.issues + [ParseIssue(index + 1, TooManyVariables)]), 1, true)
      else
        var assignment := ParseMultiline(line, rest[1..]);
        Turn(Record(st, index + 1, assignment.0), 1 + assignment.1, false)
  }

  function ParseLines(rest: seq<string>, index: nat, st: ParseState): ParseState
    decreases |rest|
  {
    if rest == [] then st
    else
      var t := ReadTurn(rest, index, st);
      if t.stop then t.state else ParseLines(rest[t.taken..], index + t.taken, t.state)
  }

  const START := ParseState([], [], None, true)

  function ValidateInput(input: string): Option<ParseIssue> {
    if Utf8Len(input) > MAX_INPUT_BYTES then Some(ParseIssue(0, InputTooLong))
    else if '\0' in input then Some(ParseIssue(0, NulByte))
    else None
  }

  function Report(st: ParseState): ParseReport {
    if st.entries == [] && st.issues == [] then ParseReport([], [ParseIssue(0, NoAssignments)])
    else ParseReport(st.entries, st.issues)
  }

  function Parse(input: string): ParseReport {
    match ValidateInput(input)
    case Some(issue) => ParseReport([], [issue])
    case None => Report(ParseLines(Lines(input), 0, START))
  }
}

/** The loops of the `.env` reader, each computing the function that specifies it. */
module DotenvReader {
  import opened Text
  import opened Dotenv

  method QuotedValueIsClosed(value: string, quote: char) returns (closed: bool)
    ensures closed == Closes(value, quote, false)
  {
    var escaped := false;
    var i := 0;
    while i < |value|
      invariant 0 <= i <= |value|
      invariant Closes(value[i..], quote, escaped) == Closes(value, quote, false)
    {
      assert value[i..][1..] == value[i + 1..];
      if escaped {
        escaped := false;
      } else if quote == '"' && value[i] == '\\' {
        escaped := true;
      } else if value[i] == quote {
        return true;
      }
      i := i + 1;
    }
    return false;
  }

  function AndThen(done: string, r: Result<string>): Result<string> {
    match r
    case Ok(s) => Ok(done + s)
    case Err(m) => Err(m)
  }

  lemma AndThenEmpty(r: Result<string>)
    ensures AndThen("", r) == r
  {
    assert r.Ok? ==> "" + r.value == r.value;
  }

  method ParseDoubleQuoted(value: string) returns (r: Result<string>)
    ensures r == DecodeDouble(value, false)
  {
    var result := "";
    var escaped := false;
    var i := 0;
    AndThenEmpty(DecodeDouble(value, false));
    assert value[0..] == value;
    while i < |value|
      invariant 0 <= i <= |value|
      invariant AndThen(result, DecodeDouble(value[i..], escaped)) == DecodeDouble(value, false)
    {
      assert value[i..][1..] == value[i + 1..];
      var c := value[i];
      ghost var tail := DecodeDouble(value[i + 1..], false);
      if escaped {
        match Unescape(c)
        case None => return Err(UnknownEscape);
        case Some(d) =>
          assert tail.Ok? ==> result + ([d] + tail.value) == result + [d] + tail.value;
          result := result + [d];
          escaped := false;
      } else if c == '\\' {
        escaped := true;
      } else if c == '"' {
        if Trim(value[i + 1..]) == "" {
          assert result + "" == result;
          return Ok(result);
        }
        return Err(TrailingCharacters);
      } else {
        assert tail.Ok? ==> result + ([c] + tail.value) == result + [c] + tail.value;
        result := result + [c];
      }
      i := i + 1;
    }
    return Err(UnterminatedDouble);
  }

  method OpenAssignment(line: string) returns (opening: Opening)
    ensures opening == ReadOpening(line)
  {
    hide Trim, TrimStart, ValidateKeySyntax, StripExport, Find;
    var start := TrimStart(line);
    var assignment := StripExport(start);
    var sep := Find(assignment, '=');
    if sep == |assignment| {
      return Refused(ExpectedAssignment);
    }
    var invalid := ValidateKeySyntax(Trim(assignment[..sep]));
    if invalid.Some? {
      return Refused(invalid.value);
    }
    var raw := TrimStart(assignment[sep + 1..]);
    if raw == "" || (raw[0] != '"' && raw[0] != '\'') {
      return Complete(start);
    }
    var closed := QuotedValueIsClosed(raw[1..], raw[0]);
    opening := if closed then Complete(start) else Open(start, raw[0]);
  }

  /** `parse_multiline_assignment`: `next` is advanced over the continuation lines. */
  method ParseMultilineAssignment(line: string, lines: seq<string>, next: nat)
    returns (r: Result<Entry>, next': nat)
    requires next <= |lines|
    ensures next <= next' <= |lines|
    ensures (r, next' - next) == ParseMultiline(line, lines[next..])
  {
    hide ReadOpening, ParseAssignment;
    next' := next;
    var opening := OpenAssignment(line);
    match opening {
      case Refused(message) =>
        r := Err(message);
      case Complete(start) =>
        r := ParseAssignment(start);
      case Open(start, quote) =>
        var logical;
        logical, next' := CollectLogicalLine(start, lines, next, quote);
        r := ParseAssignment(logical);
    }
  }

  method CollectLogicalLine(start: string, lines: seq<string>, next: nat, quote: char)
    returns (logical: string, next': nat)
    requires next <= |lines|
    ensures next <= next' <= |lines|
    ensures (logical, next' - next) == Collect(start, lines[next..], quote)
  {
    logical, next' := start, next;
    var closed := false;
    ghost var whole := Collect(start, lines[next..], quote);
    while next' < |lines|
      invariant next <= next' <= |lines|
      invariant !closed ==> Collect(logical, lines[next'..], quote) == (whole.0, whole.1 - (next' - next))
      invariant closed ==> whole == (logical, next' - next)
    {
      var continuation := lines[next'];
      assert lines[next'..][1..] == lines[next' + 1..];
      next' := next' + 1;
      logical := logical + [NL] + continuation;
      closed := QuotedValueIsClosed(continuation, quote);
      if closed {
        break;
      }
    }
  }

  method RecordResult(st: ParseState, keys: set<string>, line: nat, result: Result<Entry>)
    returns (st': ParseState, keys': set<string>)
    requires keys == Keys(st.entries)
    ensures st' == Record(st, line, result) && keys' == Keys(st'.entries)
  {
    st', keys' := st, keys;
    match result {
      case Ok(entry) =>
        if entry.key !in keys {
          keys' := keys + {entry.key};
          st' := st.(entries := st.entries + [entry.(group := st.group, position := |st.entries|)], boundary := false);
        } else {
          st' := st.(issues := st.issues + [ParseIssue(line, DuplicateKey)]);
        }
      case Err(message) =>
        st' := st.(issues := st.issues + [ParseIssue(line, message)]);
    }
  }

  /** One turn of the line loop, with the set of keys seen so far. */
  method ReadLine(lines: seq<string>, index: nat, st: ParseState, keys: set<string>)
    returns (st': ParseState, keys': set<string>, next: nat, stop: bool)
    requires index < |lines| && keys == Keys(st.entries)
    ensures keys' == Keys(st'.entries)
    ensures index < next <= |lines|
    ensures var t := ReadTurn(lines[index..], index, st); st' == t.state && next - index == t.taken && stop == t.stop
  {
    hide InferPlainGroup, ParseGroupHeading, Record, ParseMultiline, StripBom, Trim;
    ghost var rest := lines[index..];
    assert rest[0] == lines[index] && rest[1..] == lines[index + 1..];
    ghost var turn := ReadTurn(rest, index, st);
    st', keys', next, stop := st, keys, index + 1, false;
    match Classify(lines[index], index) {
      case Blank =>
        st' := st.(boundary := true);
        assert st' == turn.state;
      case CommentLine(text) =>
        st' := Comment(st, text, lines[index + 1..]);
        assert st' == turn.state;
      case AssignmentLine(line) =>
        if |st.entries| >= MAX_ENTRIES {
          st' := st.(issues := st.issues + [ParseIssue(index + 1, TooManyVariables)]);
          stop := true;
            assert st' == turn.state;
        } else {
          var result;
          result, next := ParseMultilineAssignment(line, lines, next);
          st', keys' := RecordResult(st, keys, index + 1, result);
          assert st' == turn.state;
        }
    }
  }

  lemma TurnTaken(rest: seq<string>, index: nat, st: ParseState, turn: Turn)
    requires rest != [] && turn == ReadTurn(rest, index, st)
    ensures ParseLines(rest, index, st) ==
            if turn.stop then turn.state else ParseLines(rest[turn.taken..], index + turn.taken, turn.state)
  {
    hide ReadTurn;
  }

  /** `parse`: the line loop. */
  method ParseText(input: string) returns (report: ParseReport)
    ensures report == Parse(input)
  {
    hide ReadTurn;
    var invalid := ValidateInput(input);
    if invalid.Some? {
      return ParseReport([], [invalid.value]);
    }
    var lines := Lines(input);
    var st := START;
    var keys: set<string> := {};
    var next := 0;
    ghost var rest, final := lines, ParseLines(lines, 0, START);
    while next < |lines|
      invariant 0 <= next <= |lines| && rest == lines[next..]
      invariant keys == Keys(st.entries)
      invariant ParseLines(rest, next, st) == final
    {
      ghost var index, before := next, st;
      var stop;
      st, keys, next, stop := ReadLine(lines, next, st, keys);
      TurnTaken(rest, index, before, Turn(st, next - index, stop));
      rest := rest[next - index..];
      if stop {
        break;
      }
    }
    report := Report(st);
  }
}
