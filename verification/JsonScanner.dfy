/**
 extractJSONObject: finding the first JSON object in a model's reply.

 The scanner is specified by the text it must return, the shortest prefix from the first brace that is
 balanced outside strings, and is then proved to return exactly the object when the reply contains one,
 for every way of writing a JSON object that RFC 8259 allows.
 */
module JsonScanner {
  import opened Options
  import Text

  // ------------------------------------------------------------ the scan state

  datatype Mode = Outside | InString | Escaped

  datatype State = State(mode: Mode, depth: int)

  const START := State(Outside, 0)

  function Next(s: State, c: char): State {
    match s.mode
    case Escaped => s.(mode := InString)
    case InString => if c == '\\' then s.(mode := Escaped) else if c == '"' then s.(mode := Outside) else s
    case Outside =>
      if c == '"' then s.(mode := InString)
      else if c == '{' then s.(depth := s.depth + 1)
      else if c == '}' then s.(depth := s.depth - 1)
      else s
  }

  function Feed(s: State, text: string): State
    decreases |text|
  {
    if text == "" then s else Feed(Next(s, text[0]), text[1..])
  }

  /** As many braces are closed as were opened, counting only braces outside strings. */
  predicate Balanced(text: string) {
    Feed(START, text) == START
  }

  lemma {:induction false} FeedConcat(s: State, a: string, b: string)
    ensures Feed(s, a + b) == Feed(Feed(s, a), b)
    decreases |a|
  {
    if a == "" {
      assert a + b == b;
    } else {
      assert (a + b)[1..] == a[1..] + b;
      FeedConcat(Next(s, a[0]), a[1..], b);
    }
  }

  lemma FeedAppend(s: State, a: string, c: char)
    ensures Feed(s, a + [c]) == Next(Feed(s, a), c)
  {
    FeedConcat(s, a, [c]);
    assert [c][1..] == "";
  }

  // --------------------------------------------------------- the specification

  /** The position of the first opening brace, or the length of the text. */
  function FirstBrace(text: string): (i: nat)
    ensures i <= |text|
    ensures i < |text| ==> text[i] == '{'
    ensures forall j :: 0 <= j < i ==> text[j] != '{'
  {
    if text == "" || text[0] == '{' then 0 else 1 + FirstBrace(text[1..])
  }

  /** The length of the shortest balanced prefix that is longer than `from`. */
  function BalancedPrefix(text: string, from: nat): (r: Option<nat>)
    requires from <= |text|
    ensures r.Some? ==> from < r.value <= |text| && Balanced(text[..r.value])
    ensures r.Some? ==> forall k :: from < k < r.value ==> !Balanced(text[..k])
    ensures r.None? ==> forall k :: from < k <= |text| ==> !Balanced(text[..k])
    decreases |text| - from
  {
    if from == |text| then None
    else if Balanced(text[..from + 1]) then Some(from + 1)
    else BalancedPrefix(text, from + 1)
  }

  /** The shortest non-empty balanced prefix. */
  function CutObject(rest: string): Option<string> {
    match BalancedPrefix(rest, 0)
    case None => None
    case Some(n) => Some(rest[..n])
  }

  /** The shortest non-empty balanced prefix of the text from its first opening brace on. */
  function Extracted(content: string): Option<string> {
    var rest := content[FirstBrace(content)..];
    if rest == "" then None else CutObject(rest)
  }

  /** Nothing is extracted when no stretch that begins with a brace is balanced. */
  lemma NothingBalancedNothingExtracted(content: string)
    requires forall i, j :: 0 <= i < j <= |content| && content[i] == '{' ==> !Balanced(content[i..j])
    ensures Extracted(content).None?
  {
    var i := FirstBrace(content);
    var rest := content[i..];
    forall k | 0 < k <= |rest|
      ensures !Balanced(rest[..k])
    {
      assert rest[..k] == content[i..i + k];
    }
  }

  // ---------------------------------------------------------------- the scanner

  method ExtractJSONObject(content: string) returns (r: Option<string>)
    ensures r == Extracted(content)
  {
    hide Scanned, CutObject, FirstBrace, Text.TrimSpace;
    var s := Text.TrimSpace(content);
    TrimmingIsHarmless(content);
    var start := FirstBrace(s);
    if start == |s| {
      return None;
    }
    var inString, escapeNext, depth := false, false, 0;
    ghost var rest := s[start..];
    var i := start;
    ScanStarts(rest);
    while i < |s|
      invariant start <= i <= |s|
      invariant escapeNext ==> inString
      invariant Scanned(rest, i - start, At(inString, escapeNext, depth))
    {
      var ch := s[i];
      ScansOn(rest, i - start, At(inString, escapeNext, depth));
      if inString {
        if escapeNext {
          escapeNext := false;
        } else if ch == '\\' {
          escapeNext := true;
        } else if ch == '"' {
          inString := false;
        }
      } else if ch == '"' {
        inString := true;
      } else if ch == '{' {
        depth := depth + 1;
      } else if ch == '}' {
        depth := depth - 1;
        if depth == 0 {
          assert s[start..i + 1] == rest[..i - start + 1];
          return Some(s[start..i + 1]);
        }
      }
      i := i + 1;
    }
    FindsNothing(rest, At(inString, escapeNext, depth));
    return None;
  }

  /** The scan state that the three variables stand for. */
  function At(inString: bool, escapeNext: bool, depth: int): State {
    State(if escapeNext then Escaped else if inString then InString else Outside, depth)
  }

  /** The scan has reached position n without finding a balanced prefix. */
  predicate Scanned(rest: string, n: nat, s: State) {
    n <= |rest| && Feed(START, rest[..n]) == s && forall k :: 0 < k <= n ==> !Balanced(rest[..k])
  }

  lemma ScanStarts(rest: string)
    ensures Scanned(rest, 0, START)
  {
  }

  /** The next character ends the object, or the scan goes on. */
  lemma ScansOn(rest: string, n: nat, s: State)
    requires n < |rest| && rest[0] == '{' && Scanned(rest, n, s)
    ensures var next := Next(s, rest[n]);
            if rest[n] == '}' && next == START
            then CutObject(rest) == Some(rest[..n + 1])
            else Scanned(rest, n + 1, next)
  {
    assert rest[..n + 1] == rest[..n] + [rest[n]];
    FeedAppend(START, rest[..n], rest[n]);
    if rest[n] != '}' {
      NoBraceNoBalance(rest, n);
    }
    hide Feed;
  }

  lemma FindsNothing(rest: string, s: State)
    requires Scanned(rest, |rest|, s)
    ensures CutObject(rest) == None
  {
    hide Feed;
  }

  /** A text that starts with a brace becomes balanced only at a closing brace. */
  lemma NoBraceNoBalance(rest: string, n: nat)
    requires n < |rest| && rest[0] == '{' && rest[n] != '}'
    requires forall k :: 0 < k <= n ==> !Balanced(rest[..k])
    ensures !Balanced(rest[..n + 1])
  {
    assert rest[..n + 1] == rest[..n] + [rest[n]];
    FeedAppend(START, rest[..n], rest[n]);
    StaysUp(rest, n);
  }

  /** As long as no prefix has been balanced, a brace is open. */
  lemma {:induction false} StaysUp(rest: string, n: nat)
    requires n <= |rest| && 0 < |rest| && rest[0] == '{'
    requires forall k :: 0 < k <= n ==> !Balanced(rest[..k])
    ensures n == 0 || Feed(START, rest[..n]).depth > 0
  {
    if n == 1 {
      assert rest[..1] == "" + [rest[0]];
      FeedAppend(START, "", rest[0]);
    } else if n > 1 {
      StaysUp(rest, n - 1);
      assert rest[..n] == rest[..n - 1] + [rest[n - 1]];
      FeedAppend(START, rest[..n - 1], rest[n - 1]);
    }
  }

  // ------------------------------------------------------- trimming is harmless

  lemma {:induction false} LeftTrimIsHarmless(content: string)
    ensures Extracted(Text.TrimLeft(content)) == Extracted(content)
  {
    if content != "" && Text.IsSpace(content[0]) {
      LeftTrimIsHarmless(content[1..]);
      assert content[1..][FirstBrace(content[1..])..] == content[FirstBrace(content)..];
    }
  }

  /** A balanced prefix never ends in white space, so a last white space can go. */
  lemma CutIgnoresLastSpace(rest: string)
    requires |rest| > 1 && rest[0] == '{' && Text.IsSpace(rest[|rest| - 1])
    ensures CutObject(rest[..|rest| - 1]) == CutObject(rest)
  {
    var shorter := rest[..|rest| - 1];
    assert forall k :: 0 <= k <= |shorter| ==> shorter[..k] == rest[..k];
    if forall k :: 0 < k <= |shorter| ==> !Balanced(rest[..k]) {
      NoBraceNoBalance(rest, |rest| - 1);
      assert rest[..|rest|] == rest;
    }
  }

  lemma FirstBraceIs(text: string, i: nat)
    requires i <= |text| && (i < |text| ==> text[i] == '{') && forall j :: 0 <= j < i ==> text[j] != '{'
    ensures FirstBrace(text) == i
  {
  }

  lemma LastSpaceIsHarmless(content: string)
    requires content != "" && Text.IsSpace(content[|content| - 1])
    ensures Extracted(content[..|content| - 1]) == Extracted(content)
  {
    var shorter := content[..|content| - 1];
    var i := FirstBrace(content);
    hide BalancedPrefix;
    FirstBraceIs(shorter, if i < |content| then i else |shorter|);
    if i < |content| {
      hide FirstBrace;
      assert shorter[i..] == content[i..][..|content[i..]| - 1];
      CutIgnoresLastSpace(content[i..]);
    }
  }

  lemma {:induction false} RightTrimIsHarmless(content: string)
    ensures Extracted(Text.TrimRight(content)) == Extracted(content)
  {
    if content != "" && Text.IsSpace(content[|content| - 1]) {
      LastSpaceIsHarmless(content);
      RightTrimIsHarmless(content[..|content| - 1]);
    }
  }

  lemma TrimmingIsHarmless(content: string)
    ensures Extracted(Text.TrimSpace(content)) == Extracted(content)
  {
    LeftTrimIsHarmless(content);
    RightTrimIsHarmless(Text.TrimLeft(content));
  }

  // ------------------------------------------------------------- JSON texts

  /** A character of a JSON string: itself, a two-character escape, or a \u escape with its digits. */
  datatype StrChar = Plain(c: char) | Short(c: char) | Unicode(digits: string)

  /**
   JSON values as they are written, with the white space around each element and member. An atom is a
   number or one of true, false and null.
   */
  datatype Value =
    | Atom(text: string)
    | Str(chars: seq<StrChar>)
    | Array(pad: string, elements: Elements)
    | Object(pad: string, members: Members)

  datatype Elements =
    | NoElement
    | Element(before: string, value: Value, after: string, rest: Elements)

  datatype Members =
    | NoMember
    | Member(before: string, name: seq<StrChar>, beforeColon: string, afterColon: string, value: Value,
             after: string, rest: Members)

  predicate IsBlank(ws: string) {
    forall c :: c in ws ==> c in " \t\n\r"
  }

  predicate IsAtom(text: string) {
    text != "" && forall c :: c in text ==> 'a' <= c <= 'z' || '0' <= c <= '9' || c in "+-.E"
  }

  /** Quotes and backslashes must be escaped; the digits of a \u escape are hexadecimal. */
  predicate StrCharOk(c: StrChar) {
    match c
    case Plain(p) => p != '"' && p != '\\'
    case Short(e) => e in "\"\\/bfnrt"
    case Unicode(digits) =>
      |digits| == 4 && forall d :: d in digits ==> '0' <= d <= '9' || 'a' <= d <= 'f' || 'A' <= d <= 'F'
  }

  predicate WellFormed(v: Value) {
    match v
    case Atom(text) => IsAtom(text)
    case Str(chars) => forall i :: 0 <= i < |chars| ==> StrCharOk(chars[i])
    case Array(pad, elements) => IsBlank(pad) && ElementsOk(elements)
    case Object(pad, members) => IsBlank(pad) && MembersOk(members)
  }

  predicate ElementsOk(es: Elements) {
    match es
    case NoElement => true
    case Element(before, value, after, rest) =>
      IsBlank(before) && WellFormed(value) && IsBlank(after) && ElementsOk(rest)
  }

  predicate MembersOk(ms: Members) {
    match ms
    case NoMember => true
    case Member(before, name, beforeColon, afterColon, value, after, rest) =>
      && IsBlank(before) && (forall i :: 0 <= i < |name| ==> StrCharOk(name[i]))
      && IsBlank(beforeColon) && IsBlank(afterColon) && WellFormed(value) && IsBlank(after) && MembersOk(rest)
  }

  function RenderChar(c: StrChar): string {
    match c
    case Plain(p) => [p]
    case Short(e) => ['\\', e]
    case Unicode(digits) => ['\\', 'u'] + digits
  }

  function RenderChars(chars: seq<StrChar>): string {
    if chars == [] then "" else RenderChar(chars[0]) + RenderChars(chars[1..])
  }

  function RenderString(chars: seq<StrChar>): string {
    "\"" + RenderChars(chars) + "\""
  }

  function Render(v: Value): string {
    match v
    case Atom(text) => text
    case Str(chars) => RenderString(chars)
    case Array(pad, elements) => "[" + pad + RenderElements(elements) + "]"
    case Object(pad, members) => "{" + pad + RenderMembers(members) + "}"
  }

  function RenderElements(es: Elements): string {
    match es
    case NoElement => ""
    case Element(before, value, after, rest) =>
      before + Render(value) + after + (if rest.NoElement? then "" else "," + RenderElements(rest))
  }

  function RenderMembers(ms: Members): string {
    match ms
    case NoMember => ""
    case Member(before, name, beforeColon, afterColon, value, after, rest) =>
      before + RenderString(name) + beforeColon + ":" + afterColon + Render(value) + after
      + (if rest.NoMember? then "" else "," + RenderMembers(rest))
  }

  // ------------------------------------------- a JSON text leaves the scan alone

  /** Scanning the text never takes the depth below `d`. */
  predicate Above(s: State, text: string, d: int)
    decreases |text|
  {
    s.depth >= d && (text != "" ==> Above(Next(s, text[0]), text[1..], d))
  }

  /** Scanning the text from this state stays at or above its depth and comes back to the state. */
  predicate Neutral(s: State, text: string) {
    Above(s, text, s.depth) && Feed(s, text) == s
  }

  lemma {:induction false} AboveConcat(s: State, a: string, b: string, d: int)
    requires Above(s, a, d) && Above(Feed(s, a), b, d)
    ensures Above(s, a + b, d)
    decreases |a|
  {
    if a == "" {
      assert a + b == b;
    } else {
      assert (a + b)[1..] == a[1..] + b;
      AboveConcat(Next(s, a[0]), a[1..], b, d);
    }
  }

  lemma NeutralConcat(s: State, a: string, b: string)
    requires Neutral(s, a) && Neutral(s, b)
    ensures Neutral(s, a + b)
  {
    AboveConcat(s, a, b, s.depth);
    FeedConcat(s, a, b);
  }

  /** Text without quotes and braces. */
  lemma {:induction false} PlainIsNeutral(d: int, text: string)
    requires forall c :: c in text ==> c !in "\"{}"
    ensures Neutral(State(Outside, d), text)
  {
    if text != "" {
      assert text[0] in text && forall c :: c in text[1..] ==> c in text;
      PlainIsNeutral(d, text[1..]);
    }
  }

  lemma {:induction false} AboveLower(s: State, text: string, d: int, d': int)
    requires Above(s, text, d) && d' <= d
    ensures Above(s, text, d')
    decreases |text|
  {
    if text != "" {
      AboveLower(Next(s, text[0]), text[1..], d, d');
    }
  }

  lemma {:induction false} AbovePrefix(s: State, text: string, d: int, k: nat)
    requires Above(s, text, d) && k <= |text|
    ensures Feed(s, text[..k]).depth >= d
    decreases |text|
  {
    if k > 0 {
      assert text[..k][1..] == text[1..][..k - 1];
      AbovePrefix(Next(s, text[0]), text[1..], d, k - 1);
    }
  }

  /** A backslash protects the character after it. */
  lemma EscapeIsNeutral(d: int, e: char)
    ensures Neutral(State(InString, d), ['\\', e])
  {
    var s, text := State(InString, d), ['\\', e];
    assert text[0] == '\\' && text[1..] == [e] && [e][0] == e && [e][1..] == "";
    assert Next(Next(s, '\\'), e) == s;
    assert Feed(Next(s, '\\'), [e]) == s && Above(Next(s, '\\'), [e], d);
  }

  /** One character kept inside a string. */
  lemma CharIsNeutral(d: int, c: StrChar)
    requires StrCharOk(c)
    ensures Neutral(State(InString, d), RenderChar(c))
  {
    var s := State(InString, d);
    match c
    case Plain(p) =>
      assert [p][0] == p && [p][1..] == "" && Next(s, p) == s;
    case Short(e) => EscapeIsNeutral(d, e);
    case Unicode(digits) =>
      EscapeIsNeutral(d, 'u');
      forall x | x in digits
        ensures x != '"' && x != '\\'
      {
      }
      DigitsAreNeutral(d, digits);
      NeutralConcat(s, ['\\', 'u'], digits);
  }

  lemma {:induction false} DigitsAreNeutral(d: int, digits: string)
    requires forall c :: c in digits ==> c != '"' && c != '\\'
    ensures Neutral(State(InString, d), digits)
  {
    if digits != "" {
      assert digits[0] in digits && forall c :: c in digits[1..] ==> c in digits;
      DigitsAreNeutral(d, digits[1..]);
    }
  }

  lemma {:induction false} CharsAreNeutral(d: int, chars: seq<StrChar>)
    requires forall i :: 0 <= i < |chars| ==> StrCharOk(chars[i])
    ensures Neutral(State(InString, d), RenderChars(chars))
  {
    if chars != [] {
      CharIsNeutral(d, chars[0]);
      CharsAreNeutral(d, chars[1..]);
      NeutralConcat(State(InString, d), RenderChar(chars[0]), RenderChars(chars[1..]));
    }
  }

  /** A whole string, quotes included, whatever its characters are. */
  lemma StringIsNeutral(d: int, chars: seq<StrChar>)
    requires forall i :: 0 <= i < |chars| ==> StrCharOk(chars[i])
    ensures Neutral(State(Outside, d), RenderString(chars))
  {
    var s, inside := State(Outside, d), State(InString, d);
    var body := RenderChars(chars);
    CharsAreNeutral(d, chars);
    assert "\""[1..] == "" && Feed(s, "\"") == inside && Feed(inside, "\"") == s;
    AboveConcat(s, "\"", body, d);
    FeedConcat(s, "\"", body);
    AboveConcat(s, "\"" + body, "\"", d);
    FeedConcat(s, "\"" + body, "\"");
  }

  /** The braces of an object raise the depth by one around its body. */
  lemma BracesAreNeutral(d: int, body: string)
    requires Neutral(State(Outside, d + 1), body)
    ensures Neutral(State(Outside, d), "{" + body + "}")
    ensures Above(Feed(State(Outside, d), "{"), body, d + 1)
  {
    var s, inner := State(Outside, d), State(Outside, d + 1);
    assert "{"[1..] == "" && "}"[1..] == "" && Feed(s, "{") == inner && Feed(inner, "}") == s;
    AboveLower(inner, body, d + 1, d);
    AboveConcat(s, "{", body, d);
    FeedConcat(s, "{", body);
    AboveConcat(s, "{" + body, "}", d);
    FeedConcat(s, "{" + body, "}");
  }

  /** A JSON value, nested in any depth, is invisible to the scan. */
  lemma {:induction false} ValueIsNeutral(d: int, v: Value)
    requires WellFormed(v)
    ensures Neutral(State(Outside, d), Render(v))
    decreases v
  {
    var s := State(Outside, d);
    match v
    case Atom(text) => PlainIsNeutral(d, text);
    case Str(chars) => StringIsNeutral(d, chars);
    case Array(pad, elements) =>
      PlainIsNeutral(d, "[" + pad);
      ElementsAreNeutral(d, elements);
      NeutralConcat(s, "[" + pad, RenderElements(elements));
      PlainIsNeutral(d, "]");
      NeutralConcat(s, "[" + pad + RenderElements(elements), "]");
    case Object(pad, members) =>
      ObjectBody(d + 1, pad, members);
      BracesAreNeutral(d, pad + RenderMembers(members));
      assert "{" + pad + RenderMembers(members) + "}" == "{" + (pad + RenderMembers(members)) + "}";
  }

  lemma {:induction false} ObjectBody(d: int, pad: string, members: Members)
    requires IsBlank(pad) && MembersOk(members)
    ensures Neutral(State(Outside, d), pad + RenderMembers(members))
    decreases members, 1
  {
    PlainIsNeutral(d, pad);
    MembersAreNeutral(d, members);
    NeutralConcat(State(Outside, d), pad, RenderMembers(members));
  }

  lemma {:induction false} ElementsAreNeutral(d: int, es: Elements)
    requires ElementsOk(es)
    ensures Neutral(State(Outside, d), RenderElements(es))
    decreases es
  {
    var s := State(Outside, d);
    match es
    case NoElement =>
    case Element(before, value, after, rest) =>
      PlainIsNeutral(d, before);
      ValueIsNeutral(d, value);
      NeutralConcat(s, before, Render(value));
      PlainIsNeutral(d, after);
      NeutralConcat(s, before + Render(value), after);
      var tail := if rest.NoElement? then "" else "," + RenderElements(rest);
      if rest.Element? {
        PlainIsNeutral(d, ",");
        ElementsAreNeutral(d, rest);
        NeutralConcat(s, ",", RenderElements(rest));
      }
      NeutralConcat(s, before + Render(value) + after, tail);
  }

  lemma {:induction false} MembersAreNeutral(d: int, ms: Members)
    requires MembersOk(ms)
    ensures Neutral(State(Outside, d), RenderMembers(ms))
    decreases ms, 0
  {
    var s := State(Outside, d);
    match ms
    case NoMember =>
    case Member(before, name, beforeColon, afterColon, value, after, rest) =>
      PlainIsNeutral(d, before);
      StringIsNeutral(d, name);
      NeutralConcat(s, before, RenderString(name));
      PlainIsNeutral(d, beforeColon);
      NeutralConcat(s, before + RenderString(name), beforeColon);
      PlainIsNeutral(d, ":");
      NeutralConcat(s, before + RenderString(name) + beforeColon, ":");
      PlainIsNeutral(d, afterColon);
      NeutralConcat(s, before + RenderString(name) + beforeColon + ":", afterColon);
      ValueIsNeutral(d, value);
      NeutralConcat(s, before + RenderString(name) + beforeColon + ":" + afterColon, Render(value));
      PlainIsNeutral(d, after);
      var head := before + RenderString(name) + beforeColon + ":" + afterColon + Render(value);
      NeutralConcat(s, head, after);
      var tail := if rest.NoMember? then "" else "," + RenderMembers(rest);
      if rest.Member? {
        PlainIsNeutral(d, ",");
        MembersAreNeutral(d, rest);
        NeutralConcat(s, ",", RenderMembers(rest));
      }
      NeutralConcat(s, head + after, tail);
  }

  // ---------------------------------------------------------------- round trip

  /** A written object is balanced, and none of its proper prefixes is. */
  lemma ObjectIsShortest(v: Value)
    requires v.Object? && WellFormed(v)
    ensures var text := Render(v);
            && 2 <= |text| && text[0] == '{'
            && Balanced(text)
            && forall k :: 0 < k < |text| ==> !Balanced(text[..k])
  {
    var text := Render(v);
    var body := v.pad + RenderMembers(v.members);
    assert text == "{" + body + "}";
    ValueIsNeutral(0, v);
    ObjectBody(1, v.pad, v.members);
    BracesAreNeutral(0, body);
    forall k | 0 < k < |text|
      ensures !Balanced(text[..k])
    {
      assert text[..k] == "{" + body[..k - 1];
      FeedConcat(START, "{", body[..k - 1]);
      AbovePrefix(Feed(START, "{"), body, 1, k - 1);
    }
  }

  /**
   A reply that holds a JSON object after text without an opening brace yields exactly that object,
   whatever follows it.
   */
  lemma WrittenObjectIsExtracted(pre: string, v: Value, suf: string)
    requires '{' !in pre && v.Object? && WellFormed(v)
    ensures Extracted(pre + Render(v) + suf) == Some(Render(v))
  {
    var content, text := pre + Render(v) + suf, Render(v);
    ObjectIsShortest(v);
    assert content[|pre|] == '{';
    assert FirstBrace(content) == |pre| by {
      assert forall j :: 0 <= j < |pre| ==> content[j] == pre[j];
    }
    var rest := content[|pre|..];
    assert rest == text + suf;
    assert forall k :: 0 <= k <= |text| ==> rest[..k] == text[..k];
    assert text[..|text|] == text;
  }
}
