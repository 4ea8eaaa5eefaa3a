/**
 * The configuration editor's view of TOML text: basic strings, table headers and the line scanner.
 * Text is a sequence of Unicode scalar values; every character the editor looks for is ASCII, so it
 * finds the same ones as on the UTF-8 octets.
 */
module TomlSyntax {
  import opened Common

  const BACKSPACE: char := 8 as char
  const FORM_FEED: char := 12 as char
  const TRIPLE_BASIC: string := "\"\"\""
  const TRIPLE_LITERAL: string := "'''"

  predicate StartsWith(s: string, p: string) { |p| <= |s| && s[..|p|] == p }

  function Suffix(s: string, i: nat): string { if i <= |s| then s[i..] else "" }

  // ---------------------------------------------------------------- basic strings

  function HexDigit(d: nat): char
    requires d < 16
  { if d < 10 then ('0' as int + d) as char else ('A' as int + d - 10) as char }

  predicate Control(c: char) { c as int < 0x20 || c as int == 0x7f }

  function Escape(c: char): string {
    if c == '"' then "\\\""
    else if c == '\\' then "\\\\"
    else if c == BACKSPACE then "\\b"
    else if c == '\t' then "\\t"
    else if c == '\n' then "\\n"
    else if c == FORM_FEED then "\\f"
    else if c == '\r' then "\\r"
    else if Control(c) then "\\u00" + [HexDigit(c as int / 16), HexDigit(c as int % 16)]
    else [c]
  }

  function EscapeAll(s: string): string { if s == "" then "" else Escape(s[0]) + EscapeAll(s[1..]) }

  function Quoted(s: string): string { "\"" + EscapeAll(s) + "\"" }

  method TomlBasicString(s: string) returns (b: string)
    ensures b == Quoted(s)
  {
    b := "\"";
    for i := 0 to |s|
      invariant b + EscapeAll(s[i..]) == "\"" + EscapeAll(s)
    {
      assert s[i..][1..] == s[i + 1..];
      b := b + Escape(s[i]);
    }
    b := b + "\"";
  }

  // ---------------------------------------------------------------- escapes

  function HexValue(c: char): Option<nat> {
    if '0' <= c <= '9' then Some(c as int - '0' as int)
    else if 'a' <= c <= 'f' then Some(c as int - 'a' as int + 10)
    else if 'A' <= c <= 'F' then Some(c as int - 'A' as int + 10)
    else None
  }

  function HexNumber(s: string): Option<nat> {
    if s == "" then Some(0) else
    var high := HexNumber(s[..|s| - 1]);
    var low := HexValue(s[|s| - 1]);
    if high.None? || low.None? then None else Some(16 * high.value + low.value)
  }

  predicate ScalarValue(n: nat) { n < 0xD800 || 0xE000 <= n < 0x11_0000 }

  datatype Decoded = Decoded(c: char, length: nat)

  /** The escape sequence at the start of `s`, which begins with a backslash. */
  function ParseTOMLEscape(s: string): (r: Option<Decoded>)
    ensures r.Some? ==> 2 <= r.value.length <= |s|
  {
    if |s| < 2 then None
    else if s[1] == 'b' then Some(Decoded(BACKSPACE, 2))
    else if s[1] == 't' then Some(Decoded('\t', 2))
    else if s[1] == 'n' then Some(Decoded('\n', 2))
    else if s[1] == 'f' then Some(Decoded(FORM_FEED, 2))
    else if s[1] == 'r' then Some(Decoded('\r', 2))
    else if s[1] == '"' then Some(Decoded('"', 2))
    else if s[1] == '\\' then Some(Decoded('\\', 2))
    else if s[1] == 'u' || s[1] == 'U' then
      var width := if s[1] == 'u' then 4 else 8;
      if |s| < 2 + width then None else
      var n := HexNumber(s[2..2 + width]);
      if n.None? || !ScalarValue(n.value) then None else Some(Decoded(n.value as char, 2 + width))
    else None
  }

  /** Every escape the writer emits decodes to the character it stands for. */
  lemma EscapeDecodes(c: char, rest: string)
    requires c == '"' || c == '\\' || Control(c)
    ensures ParseTOMLEscape(Escape(c) + rest) == Some(Decoded(c, |Escape(c)|))
  {
    var s := Escape(c) + rest;
    assert s[1] == Escape(c)[1];
    if s[1] == 'u' {
      var hi, lo := HexDigit(c as int / 16), HexDigit(c as int % 16);
      var digits := s[2..6];
      assert digits == ['0', '0', hi, lo];
      assert digits[..3] == ['0', '0', hi] && digits[..3][..2] == ['0', '0'] && digits[..3][..2][..1] == ['0'];
      assert HexNumber(['0']) == Some(0) by { assert ['0'][..0] == []; }
      assert HexNumber(digits[..3][..2]) == Some(0);
      assert HexValue(hi) == Some(c as int / 16) && HexValue(lo) == Some(c as int % 16);
      assert HexNumber(digits) == Some(c as int);
    }
  }

  // ---------------------------------------------------------------- keys

  /** A parsed key segment and the text after it. */
  datatype Segment = Segment(value: string, rest: string)

  function BasicRest(s: string, acc: string): (r: Option<Segment>)
    ensures r.Some? ==> |r.value.rest| < |s|
    decreases |s|
  {
    if s == "" then None
    else if s[0] == '"' then Some(Segment(acc, s[1..]))
    else if s[0] == '\\' then
      var e := ParseTOMLEscape(s);
      if e.None? then None else BasicRest(s[e.value.length..], acc + [e.value.c])
    else BasicRest(s[1..], acc + [s[0]])
  }

  function LiteralEnd(s: string): (n: nat)
    ensures n <= |s|
  { if s == "" || s[0] == '\'' then 0 else 1 + LiteralEnd(s[1..]) }

  predicate BareKeyChar(c: char) { 'A' <= c <= 'Z' || 'a' <= c <= 'z' || '0' <= c <= '9' || c == '_' || c == '-' }

  function BareEnd(s: string): (n: nat)
    ensures n <= |s|
  { if s == "" || !BareKeyChar(s[0]) then 0 else 1 + BareEnd(s[1..]) }

  function SegmentOf(s: string): (r: Option<Segment>)
    ensures r.Some? ==> |r.value.rest| < |s|
  {
    if s == "" then None
    else if s[0] == '"' then BasicRest(s[1..], "")
    else if s[0] == '\'' then
      var n := LiteralEnd(s[1..]);
      if n == |s| - 1 then None else Some(Segment(s[1..1 + n], s[2 + n..]))
    else if BareEnd(s) == 0 then None
    else Some(Segment(s[..BareEnd(s)], s[BareEnd(s)..]))
  }

  /** The index of the closing quote from `i` on, or the length. */
  method IndexOfQuote(s: string, i: nat) returns (k: nat)
    requires i <= |s|
    ensures k == i + LiteralEnd(s[i..])
    ensures i <= k <= |s|
  {
    k := i;
    while k < |s| && s[k] != '\''
      invariant i <= k <= |s| && k + LiteralEnd(s[k..]) == i + LiteralEnd(s[i..])
    {
      assert s[k..][1..] == s[k + 1..];
      k := k + 1;
    }
  }

  method BasicSegment(s: string, at: nat) returns (seg: string, next: nat, ok: bool)
    requires at <= |s|
    ensures ok == BasicRest(s[at..], "").Some?
    ensures ok ==> at < next <= |s| && BasicRest(s[at..], "") == Some(Segment(seg, s[next..]))
  {
    hide ParseTOMLEscape;
    seg := "";
    var i := at;
    while i < |s|
      invariant at <= i <= |s| && BasicRest(s[i..], seg) == BasicRest(s[at..], "")
    {
      assert s[i..][1..] == s[i + 1..];
      if s[i] == '"' { return seg, i + 1, true; }
      if s[i] == '\\' {
        var e := ParseTOMLEscape(s[i..]);
        if e.None? { return "", i, false; }
        assert s[i..][e.value.length..] == s[i + e.value.length..];
        seg, i := seg + [e.value.c], i + e.value.length;
      } else {
        seg, i := seg + [s[i]], i + 1;
      }
    }
    return "", i, false;
  }

  method BareSegmentEnd(s: string, at: nat) returns (i: nat)
    requires at <= |s|
    ensures i == at + BareEnd(s[at..])
  {
    i := at;
    while i < |s| && BareKeyChar(s[i])
      invariant at <= i <= |s| && i + BareEnd(s[i..]) == at + BareEnd(s[at..])
    {
      assert s[i..][1..] == s[i + 1..];
      i := i + 1;
    }
  }

  /** One dotted-key segment: a basic string, a literal string or a bare key. */
  method ParseKeySegment(s: string, at: nat) returns (seg: string, next: nat, ok: bool)
    requires at <= |s|
    ensures ok == SegmentOf(s[at..]).Some?
    ensures ok ==> at < next <= |s| && SegmentOf(s[at..]) == Some(Segment(seg, s[next..]))
  {
    hide BasicRest, LiteralEnd, BareEnd;
    if at >= |s| { return "", at, false; }
    assert s[at..][1..] == s[at + 1..];
    if s[at] == '"' {
      seg, next, ok := BasicSegment(s, at + 1);
    } else if s[at] == '\'' {
      var end := IndexOfQuote(s, at + 1);
      if end == |s| { return "", at, false; }
      assert s[at..][2 + (end - at - 1)..] == s[end + 1..];
      assert s[at..][1..1 + (end - at - 1)] == s[at + 1..end];
      return s[at + 1..end], end + 1, true;
    } else {
      var i := BareSegmentEnd(s, at);
      if i == at { return "", at, false; }
      assert s[at..][i - at..] == s[i..] && s[at..][..i - at] == s[at..i];
      return s[at..i], i, true;
    }
  }

  // ---------------------------------------------------------------- table headers

  function SkipBlanks(s: string): (r: string)
    ensures |r| <= |s|
  { if s != "" && (s[0] == ' ' || s[0] == '\t') then SkipBlanks(s[1..]) else s }

  method BlanksEnd(s: string, at: nat) returns (i: nat)
    requires at <= |s|
    ensures at <= i <= |s| && s[i..] == SkipBlanks(s[at..])
  {
    i := at;
    while i < |s| && (s[i] == ' ' || s[i] == '\t')
      invariant at <= i <= |s| && SkipBlanks(s[i..]) == SkipBlanks(s[at..])
    {
      assert s[i..][1..] == s[i + 1..];
      i := i + 1;
    }
  }

  /** After the brackets only whitespace, or whitespace and a comment. */
  predicate EndsHeader(s: string) { s == "" || s[0] == '#' || (Whitespace(s[0]) && EndsHeader(s[1..])) }

  datatype Header = Header(path: seq<string>, isArray: bool)

  function HeaderRest(s: string, isArray: bool, path: seq<string>): Option<Header>
    decreases |s|
  {
    var seg := SegmentOf(SkipBlanks(s));
    if seg.None? then None else
    var r := SkipBlanks(seg.value.rest);
    var path' := path + [seg.value.value];
    if r == "" then None
    else if r[0] == '.' then HeaderRest(r[1..], isArray, path')
    else if r[0] != ']' then None
    else if isArray && !StartsWith(r, "]]") then None
    else if EndsHeader(r[(if isArray then 2 else 1)..]) then Some(Header(path', isArray))
    else None
  }

  function TableHeader(line: string): Option<Header> {
    var t := SkipBlanks(line);
    if !StartsWith(t, "[") then None
    else if StartsWith(t, "[[") then HeaderRest(t[2..], true, [])
    else HeaderRest(t[1..], false, [])
  }

  predicate IsZoneTableHeader(line: string, domain: string) {
    TableHeader(line) == Some(Header(["zones", domain], false)) }

  predicate IsTableHeader(line: string) { TableHeader(line).Some? }

  method ParseTableHeader(line: string) returns (r: Option<Header>)
    ensures r == TableHeader(line)
  {
    hide SegmentOf, EndsHeader, SkipBlanks;
    var at := BlanksEnd(line, 0);
    assert line[0..] == line;
    var t := line[at..];
    if !StartsWith(t, "[") { return None; }
    var isArray := StartsWith(t, "[[");
    var i := if isArray then 2 else 1;
    var path: seq<string> := [];
    while true
      invariant i <= |t| && HeaderRest(t[i..], isArray, path) == TableHeader(line)
      decreases |t| - i
    {
      i := BlanksEnd(t, i);
      var seg, next, ok := ParseKeySegment(t, i);
      if !ok { return None; }
      path := path + [seg];
      i := BlanksEnd(t, next);
      if i >= |t| { return None; }
      if t[i] == '.' {
        assert t[i..][1..] == t[i + 1..];
        i := i + 1;
        continue;
      }
      if t[i] != ']' { return None; }
      ghost var close := t[i..];
      i := i + 1;
      if isArray {
        if i >= |t| || t[i] != ']' { return None; }
        assert close[..2] == "]]";
        i := i + 1;
      }
      assert t[i..] == close[(if isArray then 2 else 1)..];
      return if EndsHeader(t[i..]) then Some(Header(path, isArray)) else None;
    }
  }

  // ---------------------------------------------------------------- the line scanner

  datatype ScanState = Normal | MultiBasic | MultiLiteral

  function Extra(s: string, q: char): (n: nat)
    ensures n <= |s| && n <= 2
  { if s == "" || s[0] != q then 0 else if |s| == 1 || s[1] != q then 1 else 2 }

  function AfterBasic(s: string): (r: string)
    ensures |r| <= |s|
    decreases |s|
  {
    if s == "" then "" else if s[0] == '"' then s[1..]
    else if s[0] == '\\' then AfterBasic(Suffix(s, 2)) else AfterBasic(s[1..])
  }

  function AfterLiteral(s: string): (r: string)
    ensures |r| <= |s|
  { if s == "" then "" else if s[0] == '\'' then s[1..] else AfterLiteral(s[1..]) }

  /** The multi-line string state after the rest of a line. */
  function Scan(s: string, state: ScanState): ScanState
    decreases |s|
  {
    if s == "" then state else
    match state
    case MultiBasic =>
      if s[0] == '\\' then Scan(Suffix(s, 2), state)
      else if StartsWith(s, TRIPLE_BASIC) then Scan(s[3 + Extra(s[3..], '"')..], Normal)
      else Scan(s[1..], state)
    case MultiLiteral =>
      if StartsWith(s, TRIPLE_LITERAL) then Scan(s[3 + Extra(s[3..], '\'')..], Normal)
      else Scan(s[1..], state)
    case Normal =>
      if s[0] == '#' then state
      else if StartsWith(s, TRIPLE_BASIC) then Scan(s[3..], MultiBasic)
      else if StartsWith(s, TRIPLE_LITERAL) then Scan(s[3..], MultiLiteral)
      else if s[0] == '"' then Scan(AfterBasic(s[1..]), Normal)
      else if s[0] == '\'' then Scan(AfterLiteral(s[1..]), Normal)
      else Scan(s[1..], Normal)
  }

  method QuotesEnd(line: string, i: nat, q: char) returns (j: nat)
    requires i + 3 <= |line|
    ensures j == i + 3 + Extra(line[i + 3..], q)
  {
    j := i + 3;
    while j < |line| && j < i + 5 && line[j] == q
      invariant i + 3 <= j <= i + 5 && j <= |line|
      invariant forall k :: i + 3 <= k < j ==> line[k] == q
      decreases |line| - j
    {
      j := j + 1;
    }
    var tail := line[i + 3..];
    assert forall k :: i + 3 <= k < |line| ==> tail[k - i - 3] == line[k];
  }

  /** The index past a single-line basic string whose content starts at `at`; it may pass the end. */
  method BasicEnd(line: string, at: nat) returns (i: nat)
    requires at <= |line|
    ensures at < i && Suffix(line, i) == AfterBasic(line[at..])
  {
    i := at;
    while i < |line| && line[i] != '"'
      invariant at <= i && AfterBasic(Suffix(line, i)) == AfterBasic(line[at..])
      decreases |line| - i
    {
      assert line[i..][1..] == line[i + 1..];
      assert Suffix(line[i..], 2) == Suffix(line, i + 2);
      if line[i] == '\\' { i := i + 1; }
      i := i + 1;
    }
    if i < |line| { assert line[i..][1..] == line[i + 1..]; }
    i := i + 1;
  }

  method LiteralStringEnd(line: string, at: nat) returns (i: nat)
    requires at <= |line|
    ensures at < i && Suffix(line, i) == AfterLiteral(line[at..])
  {
    i := at;
    while i < |line| && line[i] != '\''
      invariant at <= i <= |line| && AfterLiteral(line[i..]) == AfterLiteral(line[at..])
    {
      assert line[i..][1..] == line[i + 1..];
      i := i + 1;
    }
    if i < |line| { assert line[i..][1..] == line[i + 1..]; }
    i := i + 1;
  }

  method ScanTOMLLine(line: string, before: ScanState) returns (state: ScanState)
    ensures state == Scan(line, before)
  {
    state := before;
    var i := 0;
    assert Suffix(line, 0) == line;
    while i < |line|
      invariant Scan(Suffix(line, i), state) == Scan(line, before)
      decreases |line| - i
    {
      ghost var s := line[i..];
      assert s[1..] == line[i + 1..];
      if state.MultiBasic? {
        if line[i] == '\\' { assert Suffix(s, 2) == Suffix(line, i + 2); i := i + 2; continue; }
        if StartsWith(line[i..], TRIPLE_BASIC) {
          assert s[3..] == line[i + 3..];
          var j := QuotesEnd(line, i, '"');
          assert s[j - i..] == line[j..];
          state, i := Normal, j;
          continue;
        }
        i := i + 1;
      } else if state.MultiLiteral? {
        if StartsWith(line[i..], TRIPLE_LITERAL) {
          assert s[3..] == line[i + 3..];
          var j := QuotesEnd(line, i, '\'');
          assert s[j - i..] == line[j..];
          state, i := Normal, j;
          continue;
        }
        i := i + 1;
      } else {
        if line[i] == '#' { return state; }
        if StartsWith(line[i..], TRIPLE_BASIC) { assert s[3..] == line[i + 3..]; state, i := MultiBasic, i + 3; }
        else if StartsWith(line[i..], TRIPLE_LITERAL) {
          assert s[3..] == line[i + 3..]; state, i := MultiLiteral, i + 3; }
        else if line[i] == '"' { i := BasicEnd(line, i + 1); }
        else if line[i] == '\'' { i := LiteralStringEnd(line, i + 1); }
        else { i := i + 1; }
      }
    }
  }
}

/** Adding and removing a zone table by line surgery, and what that keeps. */
module TomlEdit {
  import opened Common
  import opened TomlSyntax

  // ---------------------------------------------------------------- lines

  function Lines(s: string): (r: seq<string>)
    ensures r != []
  {
    if s == "" then [""]
    else if s[0] == '\n' then [""] + Lines(s[1..])
    else var r := Lines(s[1..]); [[s[0]] + r[0]] + r[1..]
  }

  function Join(lines: seq<string>): string {
    if lines == [] then "" else if |lines| == 1 then lines[0] else lines[0] + "\n" + Join(lines[1..])
  }

  lemma {:induction false} JoinLines(s: string)
    ensures Join(Lines(s)) == s
  {
    hide Lines, Join;
    if s == "" {
      OneLine(s);
      JoinHead("", []);
      assert [""] + [] == [""];
    } else {
      JoinLines(s[1..]);
      LinesHead(s);
      var r := Lines(s[1..]);
      assert r == [r[0]] + r[1..];
      JoinHead(r[0], r[1..]);
      JoinHead([s[0]] + r[0], r[1..]);
      JoinHead("", r);
      assert s == [s[0]] + s[1..];
    }
  }

  lemma JoinHead(line: string, rest: seq<string>)
    ensures Join([line] + rest) == if rest == [] then line else line + "\n" + Join(rest)
  {
    assert ([line] + rest)[1..] == rest;
  }

  lemma {:induction false} LinesAppend(a: string, b: string)
    ensures Lines(a + "\n" + b) == Lines(a) + Lines(b)
  {
    hide Lines;
    var s := a + "\n" + b;
    LinesHead(s);
    if a == "" {
      assert s[1..] == b;
      OneLine(a);
    } else {
      assert s[1..] == a[1..] + "\n" + b;
      LinesAppend(a[1..], b);
      LinesHead(a);
      var r := Lines(a[1..]);
      assert (r + Lines(b))[0] == r[0] && (r + Lines(b))[1..] == r[1..] + Lines(b);
    }
  }

  lemma LinesHead(s: string)
    requires s != ""
    ensures var r := Lines(s[1..]); Lines(s) == if s[0] == '\n' then [""] + r else [[s[0]] + r[0]] + r[1..]
  {
  }

  lemma {:induction false} OneLine(s: string)
    requires '\n' !in s
    ensures Lines(s) == [s]
  {
    if s != "" { OneLine(s[1..]); assert s == [s[0]] + s[1..]; }
  }

  // ---------------------------------------------------------------- positions

  /** For each line, whether it begins outside any multi-line string. */
  function Positions(lines: seq<string>, state: ScanState): (r: seq<bool>)
    ensures |r| == |lines|
  { if lines == [] then [] else [state.Normal?] + Positions(lines[1..], Scan(lines[0], state)) }

  function ScanLines(lines: seq<string>, state: ScanState): ScanState {
    if lines == [] then state else ScanLines(lines[1..], Scan(lines[0], state))
  }

  method TomlHeaderPositions(lines: seq<string>) returns (out: seq<bool>)
    ensures out == Positions(lines, Normal)
  {
    var state := Normal;
    out := [];
    assert lines[0..] == lines;
    for i := 0 to |lines|
      invariant out + Positions(lines[i..], state) == Positions(lines, Normal)
    {
      assert lines[i..][1..] == lines[i + 1..];
      out := out + [state == Normal];
      state := ScanTOMLLine(lines[i], state);
    }
  }

  lemma {:induction false} PositionsAppend(a: seq<string>, b: seq<string>, state: ScanState)
    ensures Positions(a + b, state) == Positions(a, state) + Positions(b, ScanLines(a, state))
    ensures ScanLines(a + b, state) == ScanLines(b, ScanLines(a, state))
    decreases |a|
  {
    if a == [] { assert a + b == b; }
    else {
      assert (a + b)[1..] == a[1..] + b;
      PositionsAppend(a[1..], b, Scan(a[0], state));
    }
  }

  /** A line of whitespace changes no state. */
  lemma {:induction false} BlankScans(s: string, state: ScanState)
    requires Blank(s)
    ensures Scan(s, state) == state
  {
    if s != "" {
      assert Whitespace(s[0]);
      BlankScans(s[1..], state);
    }
  }

  // ---------------------------------------------------------------- the edits

  function HeaderLine(domain: string): string { "[zones." + Quoted(domain) + "]" }

  function PathLine(path: string): string { "path = " + Quoted(path) }

  predicate EndsInNewline(text: string) { text != "" && text[|text| - 1] == '\n' }

  /** The candidate text of an addition. */
  method AddZone(text: string, domain: string, path: string) returns (candidate: string)
    ensures candidate == Added(text, domain, path)
  {
    hide Quoted;
    var key := TomlBasicString(domain);
    var value := TomlBasicString(path);
    candidate := text;
    if |candidate| > 0 && candidate[|candidate| - 1] != '\n' { candidate := candidate + "\n"; }
    candidate := candidate + ("\n[zones." + key + "]\npath = " + value + "\n");
    TableText(key, value);
  }

  lemma TableText(key: string, value: string)
    ensures "\n[zones." + key + "]\npath = " + value + "\n"
         == "\n" + ("[zones." + key + "]") + "\n" + ("path = " + value) + "\n"
  {
    assert "\n[zones." == "\n" + "[zones.";
    assert "]\npath = " == "]" + "\n" + "path = ";
  }

  function Added(text: string, domain: string, path: string): string {
    (if text != "" && !EndsInNewline(text) then text + "\n"
        else text) + ("\n" + HeaderLine(domain) + "\n" + PathLine(path) + "\n")
  }

  /** The first line from `i` on that opens the zone's table, or the number of lines. */
  function TableStart(lines: seq<string>, at: seq<bool>, domain: string, i: nat): (k: nat)
    requires |at| == |lines| && i <= |lines|
    ensures i <= k <= |lines|
    ensures forall j :: i <= j < k ==> !(at[j] && IsZoneTableHeader(lines[j], domain))
    ensures k < |lines| ==> at[k] && IsZoneTableHeader(lines[k], domain)
    decreases |lines| - i
  {
    if i == |lines| || (at[i] && IsZoneTableHeader(lines[i], domain)) then i else TableStart(lines, at, domain, i + 1)
  }

  /** The first line from `i` on that opens any table, or the number of lines. */
  function TableEnd(lines: seq<string>, at: seq<bool>, i: nat): (k: nat)
    requires |at| == |lines| && i <= |lines|
    ensures i <= k <= |lines|
    ensures forall j :: i <= j < k ==> !(at[j] && IsTableHeader(lines[j]))
    ensures k < |lines| ==> at[k] && IsTableHeader(lines[k])
    decreases |lines| - i
  {
    if i == |lines| || (at[i] && IsTableHeader(lines[i])) then i else TableEnd(lines, at, i + 1)
  }

  datatype Cut = Cut(start: nat, from: nat, end: nat)

  /** The lines a removal takes out: the table and one blank line before it. */
  function TableCut(lines: seq<string>, domain: string): (r: Option<Cut>)
    ensures r.Some? ==> r.value.from <= r.value.start < r.value.end <= |lines|
  {
    var at := Positions(lines, Normal);
    var start := TableStart(lines, at, domain, 0);
    if start == |lines| then None else
    var from := if start > 0 && Blank(lines[start - 1]) then start - 1 else start;
    Some(Cut(start, from, TableEnd(lines, at, start + 1)))
  }

  function Without(lines: seq<string>, c: Cut): seq<string>
    requires c.from <= c.end <= |lines|
  { lines[..c.from] + lines[c.end..] }

  function Removed(text: string, domain: string): Option<string> {
    var cut := TableCut(Lines(text), domain);
    if cut.None? then None else Some(Join(Without(Lines(text), cut.value)))
  }

  /** The candidate text of a removal; None is the missing table. */
  method RemoveZone(text: string, domain: string) returns (candidate: Option<string>)
    ensures candidate == Removed(text, domain)
  {
    hide Lines, Join, TableHeader, Positions;
    var lines := Lines(text);
    var headerable := TomlHeaderPositions(lines);
    var start := 0;
    while start < |lines|
      invariant start <= |lines| && TableStart(lines, headerable, domain, start) == TableStart(lines, headerable,
          domain, 0)
    {
      var h := ParseTableHeader(lines[start]);
      if headerable[start] && h == Some(Header(["zones", domain], false)) { break; }
      start := start + 1;
    }
    if start == |lines| { return None; }
    var end := start + 1;
    while end < |lines|
      invariant start < end <= |lines| && TableEnd(lines, headerable, end) == TableEnd(lines, headerable, start + 1)
    {
      var h := ParseTableHeader(lines[end]);
      if headerable[end] && h.Some? { break; }
      end := end + 1;
    }
    var from := start;
    if from > 0 && Blank(lines[from - 1]) { from := from - 1; }
    candidate := Some(Join(lines[..from] + lines[end..]));
  }

  // ---------------------------------------------------------------- the printed lines

  lemma {:induction false} EscapedParses(name: string, rest: string, acc: string)
    ensures BasicRest(EscapeAll(name) + "\"" + rest, acc) == Some(Segment(acc + name, rest))
    decreases |name|
  {
    hide Escape, BasicRest;
    if name == "" {
      ClosingQuote(rest, acc);
      assert acc + name == acc && EscapeAll(name) + "\"" + rest == "\"" + rest;
    } else {
      var tail := EscapeAll(name[1..]) + "\"" + rest;
      assert EscapeAll(name) + "\"" + rest == Escape(name[0]) + tail;
      EscapeParses(name[0], tail, acc);
      EscapedParses(name[1..], rest, acc + [name[0]]);
      assert acc + [name[0]] + name[1..] == acc + name;
    }
  }

  lemma ClosingQuote(rest: string, acc: string)
    ensures BasicRest("\"" + rest, acc) == Some(Segment(acc, rest))
  {
    assert ("\"" + rest)[1..] == rest;
  }

  lemma EscapeParses(c: char, tail: string, acc: string)
    ensures BasicRest(Escape(c) + tail, acc) == BasicRest(tail, acc + [c])
  {
    hide ParseTOMLEscape;
    var s := Escape(c) + tail;
    assert s[|Escape(c)|..] == tail;
    assert s[0] == Escape(c)[0];
    if c == '"' || c == '\\' || Control(c) { EscapeDecodes(c, tail); }
  }

  /** Every printed header parses back to exactly zones.<name>, as a standard table. */
  lemma HeaderParsesBack(domain: string)
    ensures IsZoneTableHeader(HeaderLine(domain), domain)
  {
    hide SegmentOf, HeaderRest, Quoted;
    var line := HeaderLine(domain);
    var s := "zones." + (Quoted(domain) + "]");
    assert line == "[" + s;
    assert line[0] == '[' && line[1] == 'z';
    assert line[..1] == "[" && line[..2][1] == 'z' && line[1..] == s;
    PathParses(domain);
  }

  lemma PathParses(domain: string)
    ensures HeaderRest("zones." + (Quoted(domain) + "]"), false, []) == Some(Header(["zones", domain], false))
  {
    hide SegmentOf;
    var quoted := Quoted(domain) + "]";
    var s := "zones." + quoted;
    BareThenDot(quoted);
    assert s[0] == 'z' && quoted[0] == '"';
    assert SkipBlanks(s) == s && SkipBlanks(quoted) == quoted;
    assert s[5..] == "." + quoted && SkipBlanks(s[5..]) == s[5..] && s[5..][1..] == quoted;
    QuotedParses(domain);
    assert SkipBlanks("]") == "]" && "]"[1..] == "";
    assert ["zones"] + [domain] == ["zones", domain];
    assert HeaderRest(quoted, false, ["zones"]) == Some(Header(["zones", domain], false));
    assert [] + ["zones"] == ["zones"];
    assert HeaderRest(s, false, []) == HeaderRest(quoted, false, ["zones"]);
  }

  lemma QuotedParses(domain: string)
    ensures SegmentOf(Quoted(domain) + "]") == Some(Segment(domain, "]"))
  {
    var quoted := Quoted(domain) + "]";
    assert quoted[0] == '"' && quoted[1..] == EscapeAll(domain) + "\"" + "]";
    EscapedParses(domain, "]", "");
    assert "" + domain == domain;
  }

  lemma BareThenDot(rest: string)
    ensures var s := "zones." + rest; SegmentOf(s) == Some(Segment("zones", s[5..]))
  {
    var s := "zones." + rest;
    assert s[5] == '.';
    assert BareEnd(s[5..]) == 0;
    assert s[4..][1..] == s[5..] && s[3..][1..] == s[4..] && s[2..][1..] == s[3..] && s[1..][1..] == s[2..];
    assert BareEnd(s[4..]) == 1 && BareEnd(s[3..]) == 2 && BareEnd(s[2..]) == 3 && BareEnd(s[1..]) == 4;
    assert BareEnd(s) == 5 && s[..5] == "zones";
  }

  /** Ordinary characters leave the scanner where it is. */
  lemma {:induction false} PlainScans(plain: string, rest: string)
    requires forall c <- plain :: c != '#' && c != '"' && c != '\''
    ensures Scan(plain + rest, Normal) == Scan(rest, Normal)
    decreases |plain|
  {
    var s := plain + rest;
    if plain == "" { assert s == rest; }
    else {
      assert s[0] == plain[0] && s[1..] == plain[1..] + rest;
      assert plain[0] in plain && forall c <- plain[1..] :: c in plain;
      PlainScans(plain[1..], rest);
    }
  }

  lemma {:induction false} EscapedSkips(value: string, rest: string)
    ensures AfterBasic(EscapeAll(value) + "\"" + rest) == rest
    decreases |value|
  {
    var s := EscapeAll(value) + "\"" + rest;
    if value == "" { assert s[1..] == rest; }
    else {
      var tail := EscapeAll(value[1..]) + "\"" + rest;
      assert s == Escape(value[0]) + tail;
      EscapeSkips(value[0], tail);
      EscapedSkips(value[1..], rest);
    }
  }

  lemma EscapeSkips(c: char, tail: string)
    ensures AfterBasic(Escape(c) + tail) == AfterBasic(tail)
  {
    var s := Escape(c) + tail;
    if |Escape(c)| == 1 { assert s[1..] == tail; }
    else if |Escape(c)| == 2 { assert Suffix(s, 2) == tail; }
    else {
      var hex := Escape(c)[2..];
      assert Suffix(s, 2) == hex + tail;
      PlainSkips(hex, tail);
    }
  }

  lemma {:induction false} PlainSkips(plain: string, tail: string)
    requires forall i :: 0 <= i < |plain| ==> plain[i] != '"' && plain[i] != '\\'
    ensures AfterBasic(plain + tail) == AfterBasic(tail)
    decreases |plain|
  {
    if plain == "" { assert plain + tail == tail; }
    else {
      assert (plain + tail)[1..] == plain[1..] + tail;
      PlainSkips(plain[1..], tail);
    }
  }

  lemma QuotedScans(value: string, rest: string)
    requires rest == "" || rest[0] != '"'
    ensures Scan(Quoted(value) + rest, Normal) == Scan(rest, Normal)
  {
    hide AfterBasic, EscapeAll, StartsWith;
    var s := Quoted(value) + rest;
    assert s[1..] == EscapeAll(value) + "\"" + rest;
    EscapedSkips(value, rest);
    NoTriple(value, rest);
  }

  /** A printed string never opens a multi-line one: its first character is escaped where it is a quote. */
  lemma NoTriple(value: string, rest: string)
    requires rest == "" || rest[0] != '"'
    ensures var s := Quoted(value) + rest;
      s[0] == '"' && !StartsWith(s, TRIPLE_BASIC) && !StartsWith(s, TRIPLE_LITERAL)
  {
    var s := Quoted(value) + rest;
    if |s| >= 3 {
      var three := s[..3];
      assert three[0] == '"' && three[1] == s[1] && three[2] == s[2];
      if value == "" { assert s[2] == rest[0]; } else { assert s[1] == Escape(value[0])[0]; }
    }
  }

  /** Neither printed line leaves the scanner inside a string, whatever the name and the path hold. */
  lemma PrintedLinesScan(domain: string, path: string)
    ensures Scan(HeaderLine(domain), Normal) == Normal
    ensures Scan(PathLine(path), Normal) == Normal
  {
    assert HeaderLine(domain) == "[zones." + (Quoted(domain) + "]");
    PlainScans("[zones.", Quoted(domain) + "]");
    QuotedScans(domain, "]");
    PlainScans("]", "");
    assert "]" + "" == "]";
    PlainScans("path = ", Quoted(path));
    QuotedScans(path, "");
    assert Quoted(path) + "" == Quoted(path);
  }

  lemma {:induction false} EscapedHasNoNewline(s: string)
    ensures '\n' !in EscapeAll(s)
  {
    if s != "" {
      EscapedHasNoNewline(s[1..]);
      assert '\n' !in Escape(s[0]);
    }
  }

  // ---------------------------------------------------------------- removal after addition

  function OriginalText(text: string): string { if EndsInNewline(text) then text[..|text| - 1] else text }

  lemma PrintedLinesAreLines(domain: string, path: string)
    ensures Lines(HeaderLine(domain)) == [HeaderLine(domain)] && Lines(PathLine(path)) == [PathLine(path)]
  {
    EscapedHasNoNewline(domain);
    EscapedHasNoNewline(path);
    OneLine(HeaderLine(domain));
    OneLine(PathLine(path));
  }

  /** The added text is the original's lines, a blank one, and the table. */
  lemma AddedLines(text: string, domain: string, path: string)
    ensures Lines(Added(text, domain, path))
      == (if text == "" then [] else Lines(OriginalText(text))) + ["", HeaderLine(domain), PathLine(path), ""]
  {
    hide Lines, HeaderLine, PathLine;
    var h, p := HeaderLine(domain), PathLine(path);
    PrintedLinesAreLines(domain, path);
    OneLine("");
    var tail := h + "\n" + (p + "\n" + "");
    LinesAppend(p, "");
    LinesAppend(h, p + "\n" + "");
    assert Lines(tail) == [h, p, ""];
    var base := if text != "" && !EndsInNewline(text) then text + "\n" else text;
    assert Added(text, domain, path) == base + "\n" + tail;
    LinesAppend(base, tail);
    if text != "" {
      assert base == OriginalText(text) + "\n" + "";
      LinesAppend(OriginalText(text), "");
    }
  }

  /** Dropping the last newline drops the last, empty line. */
  lemma OriginalLines(text: string)
    requires EndsInNewline(text)
    ensures Lines(text) == Lines(OriginalText(text)) + [""]
  {
    assert text == OriginalText(text) + "\n" + "";
    LinesAppend(OriginalText(text), "");
    OneLine("");
  }

  lemma NotHeaders(path: string)
    ensures !IsTableHeader(PathLine(path)) && !IsTableHeader("")
  {
    assert PathLine(path)[0] == 'p';
  }

  /** In lines that end outside a string and hold no table of the zone, the appended table is what is cut. */
  lemma AppendedTableIsCut(kept: seq<string>, domain: string, path: string)
    requires ScanLines(kept, Normal) == Normal && TableStart(kept, Positions(kept, Normal), domain, 0) == |kept|
    ensures var lines := kept + ["", HeaderLine(domain), PathLine(path), ""];
      TableCut(lines, domain) == Some(Cut(|kept| + 1, |kept|, |lines|))
  {
    hide TableHeader, Positions, ScanLines, HeaderLine, PathLine, TableStart, TableEnd;
    var table := ["", HeaderLine(domain), PathLine(path), ""];
    var lines := kept + table;
    var at := Positions(lines, Normal);
    PositionsAppend(kept, table, Normal);
    TablePositions(domain, path);
    HeaderParsesBack(domain);
    NotHeaders(path);
    assert !IsZoneTableHeader("", domain);
    var start := TableStart(lines, at, domain, 0);
    var n := |kept|;
    assert lines[n] == "" && lines[n + 1] == HeaderLine(domain) && lines[n + 2] == PathLine(path) && lines[n + 3] == "";
    assert at[n + 1];
    forall j | 0 <= j < n ensures lines[j] == kept[j] && at[j] == Positions(kept, Normal)[j] {}
    assert start == n + 1;
  }

  lemma TablePositions(domain: string, path: string)
    ensures Positions(["", HeaderLine(domain), PathLine(path), ""], Normal) == [true, true, true, true]
  {
    PrintedLinesScan(domain, path);
    var h, p := HeaderLine(domain), PathLine(path);
    assert ["", h, p, ""][1..] == [h, p, ""] && [h, p, ""][1..] == [p, ""] && [p, ""][1..] == [""] && [""][1..] == [];
    assert Positions([""], Normal) == [true];
    assert Positions([p, ""], Normal) == [true, true];
    assert Positions([h, p, ""], Normal) == [true, true, true];
  }

  /**
   * Removing a just-added table returns the original text, minus its last newline if it ended in one,
   * whenever the original ends outside a multi-line string and holds no table of that zone.
   */
  lemma RemoveAfterAdd(text: string, domain: string, path: string)
    requires ScanLines(Lines(text), Normal) == Normal
    requires TableCut(Lines(text), domain).None?
    ensures Removed(Added(text, domain, path), domain) == Some(OriginalText(text))
  {
    var kept := if text == "" then [] else Lines(OriginalText(text));
    var lines := kept + ["", HeaderLine(domain), PathLine(path), ""];
    AddedLines(text, domain, path);
    KeptHasNoTable(text, domain);
    AppendedTableIsCut(kept, domain, path);
    assert Without(lines, Cut(|kept| + 1, |kept|, |lines|)) == kept;
    JoinLines(OriginalText(text));
  }

  lemma KeptHasNoTable(text: string, domain: string)
    requires ScanLines(Lines(text), Normal) == Normal
    requires TableCut(Lines(text), domain).None?
    ensures var kept := if text == "" then [] else Lines(OriginalText(text));
      ScanLines(kept, Normal) == Normal && TableStart(kept, Positions(kept, Normal), domain, 0) == |kept|
  {
    if EndsInNewline(text) {
      OriginalLines(text);
      var kept := Lines(OriginalText(text));
      PositionsAppend(kept, [""], Normal);
      var start := TableStart(kept, Positions(kept, Normal), domain, 0);
      forall j | 0 <= j < |kept|
        ensures Lines(text)[j] == kept[j] && Positions(Lines(text), Normal)[j] == Positions(kept, Normal)[j] {}
    }
  }

  // ---------------------------------------------------------------- what any removal keeps

  lemma {:induction false} PositionIsState(lines: seq<string>, k: nat, state: ScanState)
    requires k < |lines|
    ensures Positions(lines, state)[k] <==> ScanLines(lines[..k], state) == Normal
  {
    if k > 0 {
      assert lines[..k][0] == lines[0] && lines[..k][1..] == lines[1..][..k - 1];
      PositionIsState(lines[1..], k - 1, Scan(lines[0], state));
    }
  }

  /** Scanning reaches the cut outside any string, also when a blank line before the table goes with it. */
  lemma CutBeginsNormal(lines: seq<string>, domain: string)
    requires TableCut(lines, domain).Some?
    ensures ScanLines(lines[..TableCut(lines, domain).value.from], Normal) == Normal
  {
    var c := TableCut(lines, domain).value;
    PositionIsState(lines, c.start, Normal);
    if c.from < c.start {
      assert lines[..c.start] == lines[..c.from] + [lines[c.from]];
      PositionsAppend(lines[..c.from], [lines[c.from]], Normal);
      BlankScans(lines[c.from], ScanLines(lines[..c.from], Normal));
      assert [lines[c.from]][1..] == [];
    }
  }

  lemma CutEndsNormal(lines: seq<string>, domain: string)
    requires TableCut(lines, domain).Some?
    ensures var end := TableCut(lines, domain).value.end; end < |lines| ==> ScanLines(lines[..end], Normal) == Normal
  {
    hide Positions, ScanLines;
    var end := TableCut(lines, domain).value.end;
    if end < |lines| { PositionIsState(lines, end, Normal); }
  }

  lemma SplitPositions(lines: seq<string>, k: nat)
    requires k <= |lines|
    ensures Positions(lines, Normal)[..k] == Positions(lines[..k], Normal)
    ensures Positions(lines, Normal)[k..] == Positions(lines[k..], ScanLines(lines[..k], Normal))
  {
    hide Positions, ScanLines;
    PositionsAppend(lines[..k], lines[k..], Normal);
    assert lines == lines[..k] + lines[k..];
  }

  /**
   * A removal changes no other line's standing: every kept line begins inside a multi-line string exactly
   * when it did before, so no text becomes a header and no header becomes text.
   */
  lemma RemovalKeepsPositions(lines: seq<string>, domain: string)
    requires TableCut(lines, domain).Some?
    ensures var c := TableCut(lines, domain).value;
      var at := Positions(lines, Normal);
      Positions(Without(lines, c), Normal) == at[..c.from] + at[c.end..]
  {
    var c := TableCut(lines, domain).value;
    CutBeginsNormal(lines, domain);
    CutEndsNormal(lines, domain);
    hide TableCut, ScanLines;
    SplitPositions(lines, c.from);
    SplitPositions(lines, c.end);
    PositionsAppend(lines[..c.from], lines[c.end..], Normal);
    assert c.end == |lines| ==> lines[c.end..] == [];
  }

  /** The cut holds exactly one table header, the zone's own, and apart from the table at most one blank line. */
  lemma CutIsOneTable(lines: seq<string>, domain: string, j: nat)
    requires TableCut(lines, domain).Some?
    requires TableCut(lines, domain).value.from <= j < TableCut(lines, domain).value.end
    ensures var c := TableCut(lines, domain).value;
      && (Positions(lines, Normal)[j] && IsTableHeader(lines[j]) <==> j == c.start)
      && (j < c.start ==> Blank(lines[j]) && j + 1 == c.start)
      && IsZoneTableHeader(lines[c.start], domain)
  {
    var c := TableCut(lines, domain).value;
    if j < c.start { BlankIsNoHeader(lines[j]); }
  }

  lemma {:induction false} BlankIsNoHeader(s: string)
    requires Blank(s)
    ensures !IsTableHeader(s)
  {
    SkippedBlank(s);
    var t := SkipBlanks(s);
    if t != "" { assert Whitespace(t[0]); }
  }

  lemma {:induction false} SkippedBlank(s: string)
    requires Blank(s)
    ensures Blank(SkipBlanks(s))
  {
    if s != "" && (s[0] == ' ' || s[0] == '\t') { SkippedBlank(s[1..]); }
  }
}
