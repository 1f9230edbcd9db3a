/**
  Log lines as text: what the JSON writer escapes, where the readers cut a file into
  lines, and what a logged text does that passes the first and not the second.
 */
module LogText {

  // ----------------------------------------------------------------- cutting

  /** The characters at which the host language's `splitlines` ends a line. */
  predicate EndsLine(c: char) {
    c in {'\n', '\r', '\U{0B}', '\U{0C}', '\U{1C}', '\U{1D}', '\U{1E}', '\U{85}', '\U{2028}', '\U{2029}'}
  }

  /** The position of the first line end, or the length. */
  function FirstEnd(s: string): (r: nat)
    ensures r <= |s| && (forall k :: 0 <= k < r ==> !EndsLine(s[k])) && (r < |s| ==> EndsLine(s[r]))
  {
    if s == "" || EndsLine(s[0]) then 0 else 1 + FirstEnd(s[1..])
  }

  /** `s.splitlines()`. */
  function SplitLines(s: string): seq<string>
    decreases |s|
  {
    var k := FirstEnd(s);
    if s == "" then []
    else if k == |s| then [s]
    else [s[..k]] + SplitLines(s[k + (if s[k] == '\r' && k + 1 < |s| && s[k + 1] == '\n' then 2 else 1)..])
  }

  function EndCount(s: string): nat {
    if s == "" then 0 else (if EndsLine(s[0]) then 1 else 0) + EndCount(s[1..])
  }

  lemma {:induction false} EndCountConcat(a: string, b: string)
    ensures EndCount(a + b) == EndCount(a) + EndCount(b)
  {
    if a == "" {
      assert a + b == b;
    } else {
      assert (a + b)[1..] == a[1..] + b;
      EndCountConcat(a[1..], b);
    }
  }

  lemma {:induction false} NoEnds(s: string)
    ensures EndCount(s) == 0 <==> forall k :: 0 <= k < |s| ==> !EndsLine(s[k])
  {
    if s != "" {
      NoEnds(s[1..]);
      assert forall k :: 1 <= k < |s| ==> s[k] == s[1..][k - 1];
    }
  }

  lemma FirstEndIs(s: string, m: nat)
    requires m <= |s| && (forall k :: 0 <= k < m ==> !EndsLine(s[k])) && (m < |s| ==> EndsLine(s[m]))
    ensures FirstEnd(s) == m
  {
    hide EndsLine;
  }

  lemma FirstEndOf(a: string, c: char, b: string)
    requires (forall k :: 0 <= k < |a| ==> !EndsLine(a[k])) && EndsLine(c)
    ensures FirstEnd(a + [c] + b) == |a|
  {
    hide EndsLine;
    var s := a + [c] + b;
    assert s[|a|] == c && forall k :: 0 <= k < |a| ==> s[k] == a[k];
    FirstEndIs(s, |a|);
  }

  /** A stored line is cut at its own line ends: into one more piece than it has of them. */
  lemma {:induction false} CutLine(line: string, rest: string)
    requires '\r' !in line
    ensures |SplitLines(line + "\n")| == 1 + EndCount(line)
    ensures SplitLines(line + "\n")[0] == line[..FirstEnd(line)]
    ensures SplitLines(line + "\n" + rest) == SplitLines(line + "\n") + SplitLines(rest)
    decreases |line|
  {
    var k := FirstEnd(line);
    hide EndsLine, FirstEnd;
    if k == |line| {
      WholeLine(line, rest);
      assert line[..k] == line;
    } else {
      var front, c, tail := line[..k], line[k], line[k + 1..];
      assert c in line && '\r' !in tail && line == front + [c] + tail;
      CutLine(tail, rest);
      CountCut(front, c, tail);
      CutStep(front, c, tail, rest);
    }
  }

  lemma CutStep(front: string, c: char, tail: string, rest: string)
    requires (forall k :: 0 <= k < |front| ==> !EndsLine(front[k])) && EndsLine(c) && c != '\r'
    requires SplitLines(tail + "\n" + rest) == SplitLines(tail + "\n") + SplitLines(rest)
    ensures var line := front + [c] + tail;
            && SplitLines(line + "\n") == [front] + SplitLines(tail + "\n")
            && SplitLines(line + "\n" + rest) == SplitLines(line + "\n") + SplitLines(rest)
  {
    hide SplitLines, EndsLine;
    Joined(front, [c], tail, rest);
    OneCut(front, c, tail + "\n");
    OneCut(front, c, tail + "\n" + rest);
    assert [front] + SplitLines(tail + "\n" + rest) == [front] + SplitLines(tail + "\n") + SplitLines(rest);
  }

  lemma Joined(a: string, b: string, c: string, d: string)
    ensures a + b + c + "\n" == a + b + (c + "\n") && a + b + c + "\n" + d == a + b + (c + "\n" + d)
  {
  }

  lemma CountCut(front: string, c: char, tail: string)
    requires (forall k :: 0 <= k < |front| ==> !EndsLine(front[k])) && EndsLine(c)
    ensures EndCount(front + [c] + tail) == 1 + EndCount(tail)
  {
    NoEnds(front);
    EndCountConcat(front + [c], tail);
    EndCountConcat(front, [c]);
    hide EndsLine;
    assert EndCount([c]) == 1 + EndCount("");
  }

  lemma OneCut(front: string, c: char, tail: string)
    requires (forall k :: 0 <= k < |front| ==> !EndsLine(front[k])) && EndsLine(c) && c != '\r'
    ensures SplitLines(front + [c] + tail) == [front] + SplitLines(tail)
  {
    FirstEndOf(front, c, tail);
    hide EndsLine, FirstEnd;
    var s := front + [c] + tail;
    assert s[..|front|] == front && s[|front|] == c && s[|front| + 1..] == tail;
  }

  lemma WholeLine(line: string, rest: string)
    requires FirstEnd(line) == |line|
    ensures SplitLines(line + "\n") == [line] && EndCount(line) == 0
    ensures SplitLines(line + "\n" + rest) == [line] + SplitLines(rest)
  {
    NoEnds(line);
    OneCut(line, '\n', "");
    OneCut(line, '\n', rest);
    assert line + "\n" + "" == line + "\n";
  }

  // ---------------------------------------------------------------- escaping

  /** The line ends that the JSON writer leaves as they are. */
  predicate Separator(c: char) {
    c == '\U{85}' || c == '\U{2028}' || c == '\U{2029}'
  }

  /** No line separator is in the text. */
  predicate Unbroken(text: string) {
    forall k :: 0 <= k < |text| ==> !Separator(text[k])
  }

  function Hex(n: int): char
    requires 0 <= n < 16
  {
    if n < 10 then '0' + n as char else 'a' + (n - 10) as char
  }

  /** A character inside a JSON string, when characters outside ASCII are kept. */
  function Escape(c: char): string {
    match c
    case '"' => "\\\""
    case '\\' => "\\\\"
    case '\n' => "\\n"
    case '\r' => "\\r"
    case '\t' => "\\t"
    case '\U{08}' => "\\b"
    case '\U{0C}' => "\\f"
    case _ => if c < ' ' then "\\u00" + [Hex(c as int / 16), Hex(c as int % 16)] else [c]
  }

  function EscapeAll(text: string): string {
    if text == "" then "" else Escape(text[0]) + EscapeAll(text[1..])
  }

  function Quoted(text: string): string {
    "\"" + EscapeAll(text) + "\""
  }

  function SeparatorCount(text: string): nat {
    if text == "" then 0 else (if Separator(text[0]) then 1 else 0) + SeparatorCount(text[1..])
  }

  lemma {:induction false} NoSeparators(text: string)
    ensures SeparatorCount(text) == 0 <==> Unbroken(text)
  {
    if text != "" {
      NoSeparators(text[1..]);
      assert forall k :: 1 <= k < |text| ==> text[k] == text[1..][k - 1];
    }
  }

  /** Of the line ends exactly the three separators survive escaping. */
  lemma EscapeEnds(c: char)
    ensures EndCount(Escape(c)) == if Separator(c) then 1 else 0
    ensures '\r' !in Escape(c)
  {
    var e := Escape(c);
    if Separator(c) {
      assert e == [c] && e[1..] == "";
      assert EndCount("") == 0;
    } else {
      NoEnds(e);
    }
  }

  lemma {:induction false} EscapedEnds(text: string)
    ensures EndCount(EscapeAll(text)) == SeparatorCount(text)
    ensures '\r' !in EscapeAll(text)
  {
    hide Escape, Separator, EndsLine;
    if text != "" {
      EscapeEnds(text[0]);
      EscapedEnds(text[1..]);
      EndCountConcat(Escape(text[0]), EscapeAll(text[1..]));
    }
  }

  // ------------------------------------------------------------ inside strings

  /** Where a reader of JSON text is: between strings, in one, or behind a backslash in one. */
  datatype Place = Outside | Inside | Behind

  function Step(p: Place, c: char): Place {
    match p
    case Outside => if c == '"' then Inside else Outside
    case Inside => if c == '"' then Outside else if c == '\\' then Behind else Inside
    case Behind => Inside
  }

  function Scan(p: Place, s: string): Place
    decreases |s|
  {
    if s == "" then p else Scan(Step(p, s[0]), s[1..])
  }

  lemma {:induction false} ScanConcat(p: Place, a: string, b: string)
    ensures Scan(p, a + b) == Scan(Scan(p, a), b)
    decreases |a|
  {
    if a == "" {
      assert a + b == b;
    } else {
      assert (a + b)[1..] == a[1..] + b;
      ScanConcat(Step(p, a[0]), a[1..], b);
    }
  }

  lemma ScanEscape(c: char)
    ensures Scan(Inside, Escape(c)) == Inside
  {
    var e := Escape(c);
    if c == '"' || c == '\\' || |e| == 2 {
      assert e == ['\\', e[1]];
      ScanTwo(Inside, '\\', e[1]);
    } else if |e| == 1 {
      ScanPlain(e);
    } else {
      var digits := [Hex(c as int / 16), Hex(c as int % 16)];
      ScanTwo(Inside, '\\', 'u');
      ScanPlain("00" + digits);
      ScanConcat(Inside, ['\\', 'u'], "00" + digits);
      assert e == ['\\', 'u'] + ("00" + digits);
    }
  }

  lemma ScanTwo(p: Place, c: char, d: char)
    ensures Scan(p, [c, d]) == Step(Step(p, c), d)
  {
    assert [c, d][1..] == [d] && [d][1..] == "";
    assert Scan(p, [c, d]) == Scan(Step(p, c), [d]) == Scan(Step(Step(p, c), d), "");
  }

  lemma {:induction false} ScanPlain(s: string)
    requires forall k :: 0 <= k < |s| ==> s[k] != '"' && s[k] != '\\'
    ensures Scan(Inside, s) == Inside
  {
    if s != "" {
      ScanPlain(s[1..]);
    }
  }

  lemma {:induction false} ScanEscaped(text: string)
    ensures Scan(Inside, EscapeAll(text)) == Inside
  {
    hide Escape;
    if text != "" {
      ScanEscape(text[0]);
      ScanEscaped(text[1..]);
      ScanConcat(Inside, Escape(text[0]), EscapeAll(text[1..]));
    }
  }

  lemma ScanQuoted(text: string)
    ensures Scan(Outside, Quoted(text)) == Outside
  {
    ScanEscaped(text);
    hide EscapeAll;
    var body := EscapeAll(text);
    ScanConcat(Outside, "\"", body + "\"");
    ScanConcat(Inside, body, "\"");
    assert Quoted(text) == "\"" + (body + "\"");
    assert "\""[1..] == "" && Scan(Outside, "\"") == Inside && Scan(Inside, "\"") == Outside;
  }

  lemma {:induction false} EscapeConcat(a: string, b: string)
    ensures EscapeAll(a + b) == EscapeAll(a) + EscapeAll(b)
  {
    if a == "" {
      assert a + b == b;
    } else {
      assert (a + b)[1..] == a[1..] + b;
      EscapeConcat(a[1..], b);
    }
  }

  // -------------------------------------------------------------- stored lines

  /** A stored line is made of fixed JSON text and of logged texts in quotes. */
  datatype Segment = Fixed(json: string) | Logged(text: string)

  function SegmentText(s: Segment): string {
    match s
    case Fixed(json) => json
    case Logged(text) => Quoted(text)
  }

  function Render(segments: seq<Segment>): string {
    if segments == [] then "" else SegmentText(segments[0]) + Render(segments[1..])
  }

  function TextsOf(segments: seq<Segment>): seq<string> {
    if segments == [] then []
    else if segments[0].Logged? then [segments[0].text] + TextsOf(segments[1..]) else TextsOf(segments[1..])
  }

  /** Fixed text has no line end, and its own strings are complete. */
  ghost predicate WellMade(segments: seq<Segment>) {
    forall i :: 0 <= i < |segments| && segments[i].Fixed? ==> FixedText(segments[i].json)
  }

  ghost predicate FixedText(json: string) {
    (forall k :: 0 <= k < |json| ==> !EndsLine(json[k])) && Scan(Outside, json) == Outside
  }

  function Breaks(texts: seq<string>): nat {
    if texts == [] then 0 else SeparatorCount(texts[0]) + Breaks(texts[1..])
  }

  ghost predicate AllUnbroken(texts: seq<string>) {
    forall t :: t in texts ==> Unbroken(t)
  }

  lemma {:induction false} NoBreaks(texts: seq<string>)
    ensures Breaks(texts) == 0 <==> AllUnbroken(texts)
  {
    hide Unbroken;
    if texts != [] {
      NoSeparators(texts[0]);
      NoBreaks(texts[1..]);
      assert forall t :: t in texts <==> t == texts[0] || t in texts[1..];
    }
  }

  lemma QuotedEnds(text: string)
    ensures EndCount(Quoted(text)) == SeparatorCount(text) && '\r' !in Quoted(text)
  {
    EscapedEnds(text);
    hide EscapeAll;
    EndCountConcat("\"" + EscapeAll(text), "\"");
    EndCountConcat("\"", EscapeAll(text));
    NoEnds("\"");
  }

  lemma {:induction false} RenderEnds(segments: seq<Segment>)
    requires WellMade(segments)
    ensures EndCount(Render(segments)) == Breaks(TextsOf(segments)) && '\r' !in Render(segments)
  {
    hide EndsLine, Quoted, Scan;
    if segments != [] {
      var first := segments[0];
      RenderEnds(segments[1..]);
      EndCountConcat(SegmentText(first), Render(segments[1..]));
      if first.Fixed? {
        NoEnds(first.json);
        ReturnEnds();
      } else {
        QuotedEnds(first.text);
        assert TextsOf(segments)[1..] == TextsOf(segments[1..]);
      }
    }
  }

  lemma ReturnEnds()
    ensures EndsLine('\r')
  {
  }

  /** What is in front of the first line end of a logged text ends inside a string. */
  lemma CutInside(text: string, rest: string)
    requires !Unbroken(text)
    ensures var s := Quoted(text) + rest; FirstEnd(s) < |s| && Scan(Outside, s[..FirstEnd(s)]) == Inside
  {
    var k := FirstSeparator(text);
    var front, c, tail := text[..k], text[k], text[k + 1..];
    OpenHead(front);
    assert Separator(c) && text == front + ([c] + tail);
    hide Unbroken, Separator, EscapeAll, EndsLine, Scan, FirstEnd;
    SeparatorAt(text, front, c, tail);
    Regroup(EscapeAll(front), c, EscapeAll(tail), rest);
    OpenAt("\"" + EscapeAll(front), c, EscapeAll(tail) + "\"" + rest);
  }

  lemma OpenAt(head: string, c: char, after: string)
    requires (forall k :: 0 <= k < |head| ==> !EndsLine(head[k])) && EndsLine(c) && Scan(Outside, head) == Inside
    ensures var s := head + [c] + after; FirstEnd(s) < |s| && Scan(Outside, s[..FirstEnd(s)]) == Inside
  {
    hide EndsLine, Scan, FirstEnd;
    FirstEndOf(head, c, after);
    assert (head + [c] + after)[..|head|] == head;
  }

  lemma Regroup(a: string, c: char, b: string, rest: string)
    ensures "\"" + (a + ([c] + b)) + "\"" + rest == ("\"" + a) + [c] + (b + "\"" + rest)
  {
  }

  /** Escaping leaves a separator where it is. */
  lemma SeparatorAt(text: string, front: string, c: char, tail: string)
    requires text == front + ([c] + tail) && Separator(c)
    ensures EscapeAll(text) == EscapeAll(front) + ([c] + EscapeAll(tail)) && EndsLine(c)
  {
    SeparatorStays(c);
    hide EscapeAll, Separator, EndsLine;
    EscapeConcat(front, [c] + tail);
    EscapeConcat([c], tail);
  }

  /** A quotation mark and unbroken text: no line end, and inside a string. */
  lemma OpenHead(front: string)
    requires Unbroken(front)
    ensures var head := "\"" + EscapeAll(front); (forall k :: 0 <= k < |head| ==> !EndsLine(head[k])) && Scan(Outside, head) == Inside
  {
    EscapedEnds(front);
    NoSeparators(front);
    NoEnds(EscapeAll(front));
    ScanEscaped(front);
    ScanConcat(Outside, "\"", EscapeAll(front));
    hide EscapeAll;
    assert "\""[1..] == "" && Scan(Outside, "\"") == Inside;
  }

  function FirstSeparator(text: string): (k: nat)
    requires !Unbroken(text)
    ensures k < |text| && Separator(text[k]) && Unbroken(text[..k])
  {
    if Separator(text[0]) then 0
    else
      assert forall k :: 1 <= k < |text| ==> text[k] == text[1..][k - 1];
      var k := 1 + FirstSeparator(text[1..]);
      assert forall i :: 1 <= i < k ==> text[..k][i] == text[1..][..k - 1][i - 1];
      k
  }

  lemma SeparatorStays(c: char)
    requires Separator(c)
    ensures EscapeAll([c]) == [c] && EndsLine(c)
  {
    assert [c][1..] == "" && EscapeAll("") == "";
  }

  lemma FirstEndBehind(a: string, b: string)
    requires forall k :: 0 <= k < |a| ==> !EndsLine(a[k])
    ensures FirstEnd(a + b) == |a| + FirstEnd(b)
    ensures (a + b)[..FirstEnd(a + b)] == a + b[..FirstEnd(b)]
  {
    hide EndsLine;
    var s, m := a + b, FirstEnd(b);
    forall k | 0 <= k < |a| + m ensures !EndsLine(s[k]) {
      assert s[k] == if k < |a| then a[k] else b[k - |a|];
    }
    assert m < |b| ==> s[|a| + m] == b[m];
    FirstEndIs(s, |a| + m);
    assert s[..|a| + m] == a + b[..m];
  }

  /** The first piece of a line that is cut ends inside a string, which no JSON text does. */
  lemma {:induction false} FirstPieceIsOpen(segments: seq<Segment>)
    requires WellMade(segments) && !AllUnbroken(TextsOf(segments))
    ensures var line := Render(segments); FirstEnd(line) < |line| && Scan(Outside, line[..FirstEnd(line)]) == Inside
  {
    var first, rest := segments[0], segments[1..];
    var head := SegmentText(first);
    if first.Logged? && !Unbroken(first.text) {
      CutInside(first.text, Render(rest));
    } else {
      hide Unbroken, EndsLine, Quoted;
      assert first.Logged? ==> TextsOf(segments)[1..] == TextsOf(rest);
      FirstPieceIsOpen(rest);
      HeadIsClosed(first);
      FirstEndBehind(head, Render(rest));
      ScanConcat(Outside, head, Render(rest)[..FirstEnd(Render(rest))]);
    }
  }

  lemma HeadIsClosed(s: Segment)
    requires if s.Fixed? then FixedText(s.json) else Unbroken(s.text)
    ensures (forall k :: 0 <= k < |SegmentText(s)| ==> !EndsLine(SegmentText(s)[k])) && Scan(Outside, SegmentText(s)) == Outside
  {
    if s.Logged? {
      QuotedEnds(s.text);
      NoSeparators(s.text);
      NoEnds(Quoted(s.text));
      ScanQuoted(s.text);
    }
    hide Quoted, Scan;
  }

  /**
    A stored line comes back whole exactly if none of its logged texts has a line
    separator. Otherwise it comes back in one more piece than it has separators, the
    first of which is not JSON. What follows the line in the file is cut on its own.
   */
  lemma StoredLine(segments: seq<Segment>, rest: string)
    requires WellMade(segments)
    ensures var line, pieces := Render(segments), SplitLines(Render(segments) + "\n");
            && SplitLines(line + "\n" + rest) == pieces + SplitLines(rest)
            && |pieces| == 1 + Breaks(TextsOf(segments))
            && (AllUnbroken(TextsOf(segments)) ==> pieces == [line])
            && (!AllUnbroken(TextsOf(segments)) ==> Scan(Outside, pieces[0]) == Inside)
  {
    var line := Render(segments);
    RenderEnds(segments);
    CutLine(line, rest);
    NoBreaks(TextsOf(segments));
    NoEnds(line);
    hide EndsLine, SplitLines;
    if AllUnbroken(TextsOf(segments)) {
      assert line[..FirstEnd(line)] == line;
    } else {
      FirstPieceIsOpen(segments);
    }
  }

  // ------------------------------------------------------------- reading back

  /** The value of a hexadecimal digit, or 16. */
  function HexValue(c: char): (n: nat)
    ensures n <= 16
  {
    if '0' <= c <= '9' then c as int - '0' as int
    else if 'a' <= c <= 'f' then c as int - 'a' as int + 10
    else if 'A' <= c <= 'F' then c as int - 'A' as int + 10
    else 16
  }

  datatype ReadResult<T> = Unread | Read(value: T, rest: string)

  /** The character that four hexadecimal digits name; half a pair names none. */
  function ReadCode(s: string): ReadResult<char> {
    if |s| < 4 || exists k :: 0 <= k < 4 && HexValue(s[k]) == 16 then Unread
    else
      var n := HexValue(s[0]) * 4096 + HexValue(s[1]) * 256 + HexValue(s[2]) * 16 + HexValue(s[3]);
      if 0xD800 <= n < 0xE000 then Unread else Read(n as char, s[4..])
  }

  /** The first character of what stands inside a JSON string. */
  function ReadCharacter(s: string): ReadResult<char> {
    if s == "" || s[0] == '"' || s[0] < ' ' then Unread
    else if s[0] != '\\' then Read(s[0], s[1..])
    else if |s| < 2 then Unread
    else
      match s[1]
      case '"' => Read('"', s[2..])
      case '\\' => Read('\\', s[2..])
      case '/' => Read('/', s[2..])
      case 'b' => Read('\U{08}', s[2..])
      case 'f' => Read('\U{0C}', s[2..])
      case 'n' => Read('\n', s[2..])
      case 'r' => Read('\r', s[2..])
      case 't' => Read('\t', s[2..])
      case 'u' => ReadCode(s[2..])
      case _ => Unread
  }

  /** The text of a JSON string up to its closing quote. */
  function ReadText(s: string): ReadResult<string>
    decreases |s|
  {
    if s == "" then Unread
    else if s[0] == '"' then Read("", s[1..])
    else
      var first := ReadCharacter(s);
      if first.Unread? || |s| <= |first.rest| then Unread
      else
        var more := ReadText(first.rest);
        if more.Unread? then Unread else Read([first.value] + more.value, more.rest)
  }

  lemma CharacterReadsBack(c: char, rest: string)
    ensures Escape(c) != "" && Escape(c)[0] != '"' && ReadCharacter(Escape(c) + rest) == Read(c, rest)
  {
    var s := Escape(c) + rest;
    assert s[|Escape(c)|..] == rest;
    if c < ' ' && Escape(c)[1] == 'u' {
      CodeReadsBack(c, rest);
      assert s[2..] == "00" + [Hex(c as int / 16), Hex(c as int % 16)] + rest;
    }
    hide Hex, ReadCode;
  }

  lemma CodeReadsBack(c: char, rest: string)
    requires c < ' '
    ensures ReadCode("00" + [Hex(c as int / 16), Hex(c as int % 16)] + rest) == Read(c, rest)
  {
    var s := "00" + [Hex(c as int / 16), Hex(c as int % 16)] + rest;
    HexReadsBack(c as int / 16);
    HexReadsBack(c as int % 16);
    assert s[4..] == rest;
    hide Hex;
  }

  lemma HexReadsBack(n: int)
    requires 0 <= n < 16
    ensures HexValue(Hex(n)) == n
  {
  }

  /** What is written between quotes is read back as the text that was logged, up to the closing quote. */
  lemma {:induction false} TextReadsBack(text: string, rest: string)
    ensures ReadText(EscapeAll(text) + "\"" + rest) == Read(text, rest)
  {
    hide Escape, ReadCharacter;
    if text == "" {
      assert "\"" + rest == EscapeAll("") + "\"" + rest && ("\"" + rest)[1..] == rest;
    } else {
      var tail := EscapeAll(text[1..]) + "\"" + rest;
      TextReadsBack(text[1..], rest);
      CharacterReadsBack(text[0], tail);
      assert EscapeAll(text) + "\"" + rest == Escape(text[0]) + tail;
      assert text == [text[0]] + text[1..];
    }
  }
}
