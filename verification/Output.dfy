/** internal/tool/output.go: truncation of tool output by lines and bytes, and decimal printing of int64. */
module Output {
  import opened Options

  // ---------------------------------------------------------------- truncation

  /** A limit that is not positive does not apply. */
  datatype Limits = Limits(maxLines: int, maxBytes: int)

  const NEWLINE: char := '\n'

  /** Text is a sequence of bytes. The pieces between newlines; never empty. */
  function Split(text: string): (lines: seq<string>)
    ensures lines != []
  {
    if text == "" then [""]
    else
      var rest := Split(text[1..]);
      if text[0] == NEWLINE then [""] + rest else [[text[0]] + rest[0]] + rest[1..]
  }

  function Join(lines: seq<string>): string {
    if lines == [] then ""
    else if |lines| == 1 then lines[0]
    else lines[0] + [NEWLINE] + Join(lines[1..])
  }

  function LineCount(text: string): (n: nat)
    ensures n >= 1
  {
    if text == "" then 1 else LineCount(text[1..]) + (if text[0] == NEWLINE then 1 else 0)
  }

  predicate FitsLines(text: string, limits: Limits) {
    limits.maxLines > 0 ==> LineCount(text) <= limits.maxLines
  }

  predicate FitsBytes(text: string, limits: Limits) {
    limits.maxBytes > 0 ==> |text| <= limits.maxBytes
  }

  /** `out` is the longest prefix of `text` that fits both limits. */
  ghost predicate LongestFit(out: string, text: string, limits: Limits) {
    && out <= text
    && FitsLines(out, limits) && FitsBytes(out, limits)
    && forall k :: |out| < k <= |text| ==> !(FitsLines(text[..k], limits) && FitsBytes(text[..k], limits))
  }

  /** `out` is the longest prefix of `text` within the line limit alone. */
  ghost predicate LongestLines(out: string, text: string, limits: Limits) {
    && out <= text && FitsLines(out, limits)
    && forall k :: |out| < k <= |text| ==> !FitsLines(text[..k], limits)
  }

  /** The text after the line cut. */
  function CutLines(text: string, limits: Limits): string {
    if limits.maxLines > 0 && |Split(text)| > limits.maxLines then Join(Split(text)[..limits.maxLines]) else text
  }

  method ApplyOutputLimits(text: string, limits: Limits)
    returns (out: string, truncatedLines: bool, truncatedBytes: bool)
    ensures LongestFit(out, text, limits)
    ensures LongestLines(CutLines(text, limits), text, limits)
    ensures truncatedLines <==> CutLines(text, limits) != text
    ensures truncatedBytes <==> out != CutLines(text, limits)
    ensures FitsLines(text, limits) && FitsBytes(text, limits) ==> out == text && !truncatedLines && !truncatedBytes
  {
    out, truncatedLines, truncatedBytes := text, false, false;
    CutIsLongest(text, limits);
    SplitCounts(text);
    if limits.maxLines > 0 {
      var lines := Split(out);
      if |lines| > limits.maxLines {
        lines := lines[..limits.maxLines];
        out := Join(lines);
        truncatedLines := true;
      }
    }
    assert out == CutLines(text, limits);
    ghost var cut := out;
    if limits.maxBytes > 0 && |out| > limits.maxBytes {
      out := out[..limits.maxBytes];
      truncatedBytes := true;
      PrefixFits(out, cut);
    }
    assert out <= text;
  }

  /** Cutting what has been cut changes nothing and sets no flag. */
  method ApplyTwice(text: string, limits: Limits)
    returns (once: string, twice: string, truncatedLines: bool, truncatedBytes: bool)
    ensures once == twice && LongestFit(once, text, limits)
    ensures !truncatedLines && !truncatedBytes
  {
    once, truncatedLines, truncatedBytes := ApplyOutputLimits(text, limits);
    twice, truncatedLines, truncatedBytes := ApplyOutputLimits(once, limits);
  }

  lemma {:induction false} SplitCounts(text: string)
    ensures |Split(text)| == LineCount(text)
  {
    if text != "" {
      SplitCounts(text[1..]);
    }
  }

  /** A prefix has at most as many lines. */
  lemma {:induction false} PrefixFits(pre: string, text: string)
    requires pre <= text
    ensures LineCount(pre) <= LineCount(text)
  {
    if pre != "" {
      PrefixFits(pre[1..], text[1..]);
    }
  }

  /** The first `n` lines, joined, are the longest prefix with `n` lines. */
  lemma {:induction false} FirstLines(text: string, n: nat)
    requires 0 < n < |Split(text)|
    ensures var cut := Join(Split(text)[..n]);
            && |cut| < |text| && cut == text[..|cut|] && text[|cut|] == NEWLINE
            && LineCount(cut) == n
  {
    if text[0] == NEWLINE {
      if n == 1 {
        assert Split(text)[..1] == [""];
      } else {
        FirstLines(text[1..], n - 1);
        JoinAfterNewline(text, n);
        CutGrows(text, Join(Split(text[1..])[..n - 1]));
      }
    } else {
      FirstLines(text[1..], n);
      JoinAfterOther(text, n);
      CutGrows(text, Join(Split(text[1..])[..n]));
    }
  }

  lemma JoinAfterNewline(text: string, n: nat)
    requires text != "" && text[0] == NEWLINE && 1 < n <= |Split(text)|
    ensures Join(Split(text)[..n]) == [text[0]] + Join(Split(text[1..])[..n - 1])
  {
    var lines, rest := Split(text), Split(text[1..]);
    assert lines[..n] == [""] + rest[..n - 1];
    assert lines[..n][1..] == rest[..n - 1];
  }

  lemma JoinAfterOther(text: string, n: nat)
    requires text != "" && text[0] != NEWLINE && 0 < n <= |Split(text)|
    ensures Join(Split(text)[..n]) == [text[0]] + Join(Split(text[1..])[..n])
  {
    var rest := Split(text[1..])[..n];
    assert Split(text)[..n] == [[text[0]] + rest[0]] + rest[1..];
    hide Split;
    JoinLonger(text[0], rest);
  }

  lemma {:induction false} JoinLonger(c: char, lines: seq<string>)
    requires lines != []
    ensures Join([[c] + lines[0]] + lines[1..]) == [c] + Join(lines)
  {
    var longer := [[c] + lines[0]] + lines[1..];
    assert longer[1..] == lines[1..];
    if |lines| > 1 {
      var rest := [NEWLINE] + Join(lines[1..]);
      assert ([c] + lines[0]) + rest == [c] + (lines[0] + rest);
    }
  }

  /** A cut of the rest of the text, and the first character before it, are a cut of the text. */
  lemma CutGrows(text: string, cut: string)
    requires text != "" && |cut| < |text| - 1 && cut == text[1..][..|cut|] && text[1..][|cut|] == NEWLINE
    ensures var more := [text[0]] + cut;
            && |more| < |text| && more == text[..|more|] && text[|more|] == NEWLINE
            && LineCount(more) == LineCount(cut) + if text[0] == NEWLINE then 1 else 0
  {
    assert ([text[0]] + cut)[1..] == cut;
  }

  /** One more newline, one more line. */
  lemma {:induction false} CountAppend(text: string, c: char)
    ensures LineCount(text + [c]) == LineCount(text) + (if c == NEWLINE then 1 else 0)
  {
    if text == "" {
      assert [c][1..] == "";
    } else {
      assert (text + [c])[1..] == text[1..] + [c];
      CountAppend(text[1..], c);
    }
  }

  lemma CutIsLongest(text: string, limits: Limits)
    ensures LongestLines(CutLines(text, limits), text, limits)
  {
    SplitCounts(text);
    if limits.maxLines > 0 && |Split(text)| > limits.maxLines {
      var cut := CutLines(text, limits);
      FirstLines(text, limits.maxLines);
      forall k | |cut| < k <= |text|
        ensures !FitsLines(text[..k], limits)
      {
        CountAppend(cut, NEWLINE);
        assert text[..k][..|cut| + 1] == cut + [NEWLINE];
        PrefixFits(cut + [NEWLINE], text[..k]);
      }
    }
  }

  // ---------------------------------------------------------- decimal printing

  const MIN_INT64: int := -0x8000_0000_0000_0000
  const MAX_INT64: int := 0x7FFF_FFFF_FFFF_FFFF

  /** Go's unary minus on int64 wraps around at the smallest value. */
  function Negate64(v: int): int
    requires MIN_INT64 <= v <= MAX_INT64
  {
    if v == MIN_INT64 then MIN_INT64 else -v
  }

  function DigitChar(d: int): (c: char)
    requires 0 <= d < 10
    ensures '0' <= c <= '9' && c as int == '0' as int + d
  {
    ('0' as int + d) as char
  }

  predicate AllDigits(s: string) {
    forall i :: 0 <= i < |s| ==> '0' <= s[i] <= '9'
  }

  predicate IsDigits(s: string) {
    s != "" && AllDigits(s)
  }

  function DigitOf(c: char): (d: nat)
    requires '0' <= c <= '9'
    ensures d < 10
  {
    c as int - '0' as int
  }

  /** Reads a string of digits. */
  function DigitsValue(s: string): nat
    requires AllDigits(s)
  {
    if s == "" then 0 else 10 * DigitsValue(s[..|s| - 1]) + DigitOf(s[|s| - 1])
  }

  /** Reads a decimal integer: digits with an optional minus sign. */
  function ParseDecimal(s: string): Option<int> {
    if IsDigits(s) then
      var n: int := DigitsValue(s);
      Some(n)
    else if s != "" && s[0] == '-' && IsDigits(s[1..]) then
      var n: int := DigitsValue(s[1..]);
      Some(-n)
    else None
  }

  /** No leading zero, and no minus sign before zero. */
  predicate Canonical(s: string) {
    s == "0" || (s != "" && s[0] != '0' && (s[0] == '-' ==> |s| > 1 && s[1] != '0'))
  }

  function Pow10(n: nat): (p: nat)
    ensures p >= 1
  {
    if n == 0 then 1 else 10 * Pow10(n - 1)
  }

  /** Adding a digit on the left adds its place value. */
  lemma {:induction false} PrependDigit(d: char, s: string)
    requires '0' <= d <= '9' && AllDigits(s)
    ensures AllDigits([d] + s)
    ensures DigitsValue([d] + s) == DigitOf(d) * Pow10(|s|) + DigitsValue(s)
  {
    if s == "" {
      assert [d] + s == [d] && [d][..0] == "";
    } else {
      var init, last := s[..|s| - 1], s[|s| - 1];
      PrependDigit(d, init);
      assert ([d] + s)[..|s|] == [d] + init && ([d] + s)[|s|] == last;
      TimesTen(DigitOf(d), Pow10(|init|), DigitsValue(init));
    }
  }

  lemma TimesTen(d: int, p: int, rest: int)
    ensures 10 * (d * p + rest) == d * (10 * p) + 10 * rest
  {
  }

  /**
   Prints every int64 but the smallest so that reading the text gives the value back; the smallest one is
   its own negation, so its digits are never produced and only the sign is printed.
   */
  method ToDecimal(value: int) returns (s: string)
    requires -0x8000_0000_0000_0000 <= value <= 0x7FFF_FFFF_FFFF_FFFF
    ensures ParseDecimal(s) == Some(value) <==> value != -0x8000_0000_0000_0000
    ensures value != -0x8000_0000_0000_0000 ==> Canonical(s)
    ensures value == -0x8000_0000_0000_0000 ==> s == "-"
  {
    if value == 0 {
      ZeroReadsBack();
      return "0";
    }
    var v := value;
    var neg := v < 0;
    if neg {
      v := Negate64(v);
    }
    var digits := new char[20];
    var i := digits.Length;
    ghost var magnitude := v;
    Pow10Nineteen();
    assert digits[i..] == [];
    if 0 < v {
      NothingPrinted(v);
    }
    hide Pow10, Printing, DigitsValue, ParseDecimal, Canonical, AllDigits;
    while v > 0
      invariant v == magnitude == MIN_INT64 || 0 <= v
      invariant 1 <= i <= 20
      invariant 0 <= v ==> Printing(v, i, digits[i..], magnitude)
      invariant v < 0 ==> i == 20
      invariant v == 0 ==> i < 20 && digits[i] != '0'
      decreases v
    {
      ghost var tail := digits[i..];
      PrintStep(v, i, tail, magnitude);
      i := i - 1;
      digits[i] := DigitChar(v % 10);
      assert digits[i..] == [digits[i]] + tail;
      v := v / 10;
    }
    ghost var printed := digits[i..];
    if v == 0 {
      AllPrinted(i, printed, magnitude);
    }
    if neg {
      i := i - 1;
      digits[i] := '-';
      assert digits[i..] == ['-'] + printed;
    }
    s := digits[i..];
    PrintedReadsBack(value, neg, printed, s);
  }

  lemma ZeroReadsBack()
    ensures ParseDecimal("0") == Some(0) && Canonical("0")
  {
    assert "0"[..0] == "";
  }

  /** What the buffer holds at the end, in terms of the value that was printed. */
  lemma PrintedReadsBack(value: int, neg: bool, printed: string, s: string)
    requires MIN_INT64 <= value <= MAX_INT64 && value != 0 && neg == (value < 0)
    requires AllDigits(printed) && s == (if neg then ['-'] + printed else printed)
    requires value == MIN_INT64 ==> printed == ""
    requires value != MIN_INT64 ==>
               printed != "" && printed[0] != '0' && DigitsValue(printed) == if neg then -value else value
    ensures ParseDecimal(s) == Some(value) <==> value != MIN_INT64
    ensures value != MIN_INT64 ==> Canonical(s)
    ensures value == MIN_INT64 ==> s == "-"
  {
    if neg {
      assert s[0] == '-' && s[1..] == printed;
      assert !IsDigits(s);
    }
  }

  /** What is left to print and what is printed add up to the magnitude, and the rest fits before it. */
  ghost predicate Printing(v: int, i: nat, tail: string, magnitude: int) {
    && 1 <= i <= 20 && |tail| == 20 - i && AllDigits(tail)
    && 0 <= v < Pow10(i - 1)
    && magnitude == v * Pow10(20 - i) + DigitsValue(tail)
  }

  lemma NothingPrinted(v: int)
    requires 0 < v <= MAX_INT64
    ensures Printing(v, 20, "", v)
  {
    Pow10Nineteen();
    assert Pow10(0) == 1;
  }

  lemma AllPrinted(i: nat, tail: string, magnitude: int)
    requires Printing(0, i, tail, magnitude)
    ensures AllDigits(tail) && DigitsValue(tail) == magnitude
  {
  }

  /** One more digit to the left: what is left to print shrinks, what is printed grows. */
  lemma PrintStep(v: int, i: nat, tail: string, magnitude: int)
    requires Printing(v, i, tail, magnitude) && 0 < v
    ensures i >= 2 && Printing(v / 10, i - 1, [DigitChar(v % 10)] + tail, magnitude)
    ensures v / 10 == 0 ==> DigitChar(v % 10) != '0'
  {
    assert Pow10(0) == 1;
    PrependDigit(DigitChar(v % 10), tail);
    Place(v, Pow10(20 - i));
  }

  lemma Place(v: int, p: int)
    requires v >= 0
    ensures v * p == (v / 10) * (10 * p) + (v % 10) * p
  {
    var q, r := v / 10, v % 10;
    assert v == q * 10 + r;
    assert (q * 10 + r) * p == q * (10 * p) + r * p;
  }

  lemma Pow10Nineteen()
    ensures Pow10(19) == 10_000_000_000_000_000_000
  {
    assert Pow10(4) == 10_000;
    assert Pow10(8) == 100_000_000;
    assert Pow10(12) == 1_000_000_000_000;
    assert Pow10(16) == 10_000_000_000_000_000;
  }
}
