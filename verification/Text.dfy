/** The parts of Go's `strings` package that the modelled code relies on. */
module Text {
  /** Go's unicode.IsSpace. */
  predicate IsSpace(c: char) {
    || c in "\t\n\r \U{0B}\U{0C}\U{85}\U{A0}\U{1680}\U{2028}\U{2029}\U{202F}\U{205F}\U{3000}"
    || '\U{2000}' <= c <= '\U{200A}'
  }

  function TrimLeft(s: string): string {
    if s != "" && IsSpace(s[0]) then TrimLeft(s[1..]) else s
  }

  function TrimRight(s: string): string {
    if s != "" && IsSpace(s[|s| - 1]) then TrimRight(s[..|s| - 1]) else s
  }

  function TrimSpace(s: string): string {
    TrimRight(TrimLeft(s))
  }

  predicate IsBlank(s: string) {
    forall i :: 0 <= i < |s| ==> IsSpace(s[i])
  }

  /** Neither end is white space. */
  predicate IsTrimmed(s: string) {
    s == "" || (!IsSpace(s[0]) && !IsSpace(s[|s| - 1]))
  }

  /** White space, by code point. */
  lemma SpaceCodes(c: char)
    ensures IsSpace(c)
            <==> || c as int in {9, 10, 11, 12, 13, 32, 0x85, 0xA0, 0x1680, 0x2028, 0x2029, 0x202F, 0x205F, 0x3000}
                 || 0x2000 <= c as int <= 0x200A
  {
  }

  lemma {:induction false} TrimLeftTakesBlanks(s: string) returns (pre: string)
    ensures IsBlank(pre) && s == pre + TrimLeft(s)
    ensures TrimLeft(s) != "" ==> !IsSpace(TrimLeft(s)[0])
  {
    if s != "" && IsSpace(s[0]) {
      var rest := TrimLeftTakesBlanks(s[1..]);
      pre := [s[0]] + rest;
    } else {
      pre := "";
    }
  }

  lemma TrimRightStep(init: string, last: char)
    ensures TrimRight(init + [last]) == if IsSpace(last) then TrimRight(init) else init + [last]
  {
    assert (init + [last])[..|init|] == init;
  }

  lemma {:induction false} TrimRightTakesBlanks(s: string) returns (suf: string)
    ensures IsBlank(suf) && s == TrimRight(s) + suf
    ensures TrimRight(s) != "" ==> !IsSpace(TrimRight(s)[|TrimRight(s)| - 1])
  {
    if s == "" {
      return "";
    }
    hide IsSpace, TrimRight;
    var init, last := s[..|s| - 1], s[|s| - 1];
    assert s == init + [last];
    TrimRightStep(init, last);
    if IsSpace(last) {
      var rest := TrimRightTakesBlanks(init);
      suf := rest + [last];
      assert TrimRight(init) + rest + [last] == TrimRight(init) + suf;
    } else {
      suf := "";
    }
  }

  /** Trimming takes white space off both ends, all of it, and nothing else. */
  lemma TrimTakesBlanks(s: string) returns (pre: string, suf: string)
    ensures IsBlank(pre) && IsBlank(suf) && s == pre + TrimSpace(s) + suf
    ensures IsTrimmed(TrimSpace(s))
  {
    hide IsSpace, TrimLeft, TrimRight, IsBlank;
    pre := TrimLeftTakesBlanks(s);
    suf := TrimRightTakesBlanks(TrimLeft(s));
    assert s == pre + (TrimSpace(s) + suf);
    if TrimSpace(s) != "" {
      assert TrimSpace(s)[0] == TrimLeft(s)[0];
    }
  }

  /** What is trimmed stays as it is. */
  lemma TrimmedStays(s: string)
    requires IsTrimmed(s)
    ensures TrimSpace(s) == s
  {
  }

  lemma {:induction false} BlankTrimsToNothing(s: string)
    requires IsBlank(s)
    ensures TrimSpace(s) == ""
  {
    if s != "" {
      BlankTrimsToNothing(s[1..]);
    }
  }

  lemma BlankIffNothing(s: string)
    ensures TrimSpace(s) == "" <==> IsBlank(s)
  {
    var pre, suf := TrimTakesBlanks(s);
    if IsBlank(s) {
      BlankTrimsToNothing(s);
    }
    if TrimSpace(s) == "" {
      assert s == pre + suf;
    }
  }

  /** A text without white space is unchanged by trimming. */
  lemma NoSpaceUntrimmed(s: string)
    requires forall c :: c in s ==> !IsSpace(c)
    ensures TrimSpace(s) == s
  {
    if s != "" {
      assert s[0] in s && s[|s| - 1] in s;
    }
  }
}
