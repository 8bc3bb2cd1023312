/** internal/control/control.go: the limits of one task and the retry policy. */
module Control {
  import opened Options

  datatype Policy = Policy(maxTurns: int, maxWallTime: int, maxTokens: int, maxRetries: int)

  datatype Limit = Turns | WallTime | Tokens

  function CheckTurnLimit(p: Policy, usedTurns: int): Option<Limit> {
    if p.maxTurns <= 0 || usedTurns >= p.maxTurns then Some(Turns) else None
  }

  function CheckWallTime(p: Policy, startedAt: int, now: int): Option<Limit> {
    if p.maxWallTime <= 0 || now - startedAt > p.maxWallTime then Some(WallTime) else None
  }

  function CheckTokenLimit(p: Policy, usedTokens: int): Option<Limit> {
    if p.maxTokens <= 0 || usedTokens > p.maxTokens then Some(Tokens) else None
  }

  predicate ShouldRetry(maxRetries: int, attempts: int) {
    attempts <= maxRetries
  }

  // ------------------------------------------------------------------- backoff

  function Pow2(n: nat): (r: int)
    ensures r >= 1
  {
    if n == 0 then 1 else 2 * Pow2(n - 1)
  }

  /** `1 << n` in 64-bit two's complement. */
  function ShiftedOne(n: nat): int {
    if n < 63 then Pow2(n) else if n == 63 then -Pow2(63) else 0
  }

  function RetryBackoffSeconds(attempt: int): int {
    if attempt <= 0 then 0
    else
      var seconds := ShiftedOne(attempt - 1);
      if seconds > 30 then 30 else seconds
  }

  /** The intended wait after the n-th attempt: doubling from one second, at most thirty. */
  function Wait(n: nat): (r: nat)
    requires n >= 1
  {
    if n <= 5 then Pow2(n - 1) else 30
  }

  /** One, two, four, eight and sixteen seconds, then always thirty. */
  lemma WaitTable(n: nat)
    requires n >= 1
    ensures Wait(1) == 1 && Wait(2) == 2 && Wait(3) == 4 && Wait(4) == 8 && Wait(5) == 16
    ensures n >= 6 ==> Wait(n) == 30
  {
    assert Pow2(1) == 2 && Pow2(2) == 4 && Pow2(3) == 8;
  }

  /** What the code waits before the first attempt, and where the shift leaves the 64-bit integer. */
  lemma BackoffBeyond(attempt: int)
    requires attempt <= 0 || attempt >= 64
    ensures RetryBackoffSeconds(attempt) == if attempt == 64 then -0x8000_0000_0000_0000 else 0
  {
    if attempt == 64 {
      assert Pow2(63) == 0x8000_0000_0000_0000 by { PowersOfTwo(); }
    }
  }

  lemma PowersOfTwo()
    ensures Pow2(63) == 0x8000_0000_0000_0000
  {
    assert Pow2(8) == 256;
    assert Pow2(16) == 0x1_0000;
    assert Pow2(24) == 0x100_0000;
    assert Pow2(32) == 0x1_0000_0000;
    assert Pow2(40) == 0x100_0000_0000;
    assert Pow2(48) == 0x1_0000_0000_0000;
    assert Pow2(56) == 0x100_0000_0000_0000;
  }

  lemma {:induction false} Pow2Grows(m: nat, n: nat)
    requires m <= n
    ensures Pow2(m) <= Pow2(n)
  {
    if m < n {
      Pow2Grows(m, n - 1);
    }
  }

  /**
   The code waits as long as intended up to the 63rd attempt and never afterwards: the shift then leaves
   the 64-bit integer and the wait is negative or zero.
   */
  lemma BackoffIsTheWait(attempt: nat)
    requires attempt >= 1
    ensures RetryBackoffSeconds(attempt) == Wait(attempt) <==> attempt <= 63
    ensures attempt >= 64 ==> RetryBackoffSeconds(attempt) <= 0
  {
    assert Pow2(1) == 2 && Pow2(2) == 4 && Pow2(3) == 8 && Pow2(4) == 16 && Pow2(5) == 32;
    if attempt <= 5 {
      Pow2Grows(attempt - 1, 4);
    } else if attempt <= 63 {
      Pow2Grows(5, attempt - 1);
    }
  }

  // ---------------------------------------------------------------- NoProgress

  /** The last k fingerprints exist and are all the same. */
  predicate Repeats(fps: seq<string>, k: int) {
    && 1 < k <= |fps|
    && forall i :: |fps| - k <= i < |fps| ==> fps[i] == fps[|fps| - 1]
  }

  method NoProgress(lastFingerprints: seq<string>, k: int) returns (r: bool)
    ensures r <==> Repeats(lastFingerprints, k)
  {
    var n := |lastFingerprints|;
    if k <= 1 || n < k {
      return false;
    }
    var ref := lastFingerprints[n - 1];
    for i := n - k to n - 1
      invariant forall j :: n - k <= j < i ==> lastFingerprints[j] == ref
    {
      if lastFingerprints[i] != ref {
        return false;
      }
    }
    return true;
  }
}
