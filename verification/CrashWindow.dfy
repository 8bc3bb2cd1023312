/**
 The supervisor's crash-loop window: the times of recent short runs, filtered in place over the slice
 that is being read, and what the filtered list is over a whole sequence of worker exits.
 */
module CrashWindow {
  /** The times that lie within the window at `now`, in order. */
  function Kept(times: seq<int>, now: int, window: int): seq<int> {
    if times == [] then []
    else
      var last := |times| - 1;
      Kept(times[..last], now, window) + (if now - times[last] <= window then [times[last]] else [])
  }

  lemma KeptNext(times: seq<int>, i: nat, now: int, window: int)
    requires i < |times|
    ensures Kept(times[..i + 1], now, window)
            == Kept(times[..i], now, window) + (if now - times[i] <= window then [times[i]] else [])
  {
    assert times[..i + 1][..i] == times[..i];
  }

  /** A Go slice: the first `len` elements of a buffer. */
  class CrashTimes {
    var buf: array<int>
    var len: nat

    constructor ()
      ensures Valid() && fresh(buf) && Times() == []
    {
      buf := new int[0];
      len := 0;
    }

    ghost predicate Valid()
      reads this
    {
      len <= buf.Length
    }

    ghost function Times(): seq<int>
      reads this, buf
      requires Valid()
    {
      buf[..len]
    }

    /** append: in place while the buffer has room, else into a larger copy. */
    method Append(t: int)
      requires Valid()
      modifies this, buf
      ensures Valid() && Times() == old(Times()) + [t]
      ensures buf == old(buf) || fresh(buf)
    {
      if len == buf.Length {
        var larger := new int[2 * buf.Length + 1];
        for i := 0 to len
          modifies larger
          invariant forall k :: 0 <= k < i ==> larger[k] == old(buf[k])
        {
          larger[i] := buf[i];
        }
        buf := larger;
      }
      buf[len] := t;
      len := len + 1;
    }

    /**
     filtered := times[:0], then append each time in the window to filtered: the writes go to the slice
     under iteration, but never to an element that is still to be read.
     */
    method FilterInPlace(now: int, window: int)
      requires Valid()
      modifies this`len, buf
      ensures Valid() && Times() == Kept(old(Times()), now, window)
    {
      ghost var times := Times();
      var kept := 0;
      var i := 0;
      while i < len
        invariant 0 <= kept <= i <= len == |times|
        invariant buf[..kept] == Kept(times[..i], now, window)
        invariant buf[i..len] == times[i..]
      {
        var t := buf[i];
        KeptNext(times, i, now, window);
        hide Kept;
        ghost var before := buf[..kept];
        if now - t <= window {
          buf[kept] := t;
          kept := kept + 1;
          assert buf[..kept] == before + [t];
        }
        i := i + 1;
      }
      assert times[..i] == times;
      len := kept;
    }

    /** What the main loop does with the list after a worker exit; true when a crash loop is detected. */
    method RecordExit(e: Exit, c: Config) returns (crashLoop: bool)
      requires Valid()
      modifies this, buf
      ensures Valid() && (buf == old(buf) || fresh(buf))
      ensures (Times(), crashLoop) == AfterExit(old(Times()), e, c)
    {
      crashLoop := false;
      if e.stable {
        len := 0;
      } else {
        Append(e.at);
        FilterInPlace(e.at, c.window);
        if len >= c.threshold {
          crashLoop := true;
          len := 0;
        }
      }
    }
  }

  /** A worker exit: when, and whether the run before it was long enough to count as stable. */
  datatype Exit = Exit(at: int, stable: bool)

  datatype Config = Config(threshold: int, window: int)

  function AfterExit(times: seq<int>, e: Exit, c: Config): (seq<int>, bool) {
    if e.stable then ([], false)
    else
      var kept := Kept(times + [e.at], e.at, c.window);
      if |kept| >= c.threshold then ([], true) else (kept, false)
  }

  /** The list after a sequence of exits, starting from the empty list. */
  function Replay(exits: seq<Exit>, c: Config): seq<int> {
    if exits == [] then []
    else AfterExit(Replay(exits[..|exits| - 1], c), exits[|exits| - 1], c).0
  }

  /** All short runs since the last reset, where a reset is a stable run or a detected crash loop. */
  function ShortRunsSinceReset(exits: seq<Exit>, c: Config): seq<int> {
    if exits == [] then []
    else
      var e := exits[|exits| - 1];
      var before := ShortRunsSinceReset(exits[..|exits| - 1], c);
      if e.stable || |Kept(before + [e.at], e.at, c.window)| >= c.threshold then [] else before + [e.at]
  }

  ghost predicate Ordered(exits: seq<Exit>) {
    forall i, j :: 0 <= i < j < |exits| ==> exits[i].at <= exits[j].at
  }

  /** What an earlier filter dropped, a later one would have dropped as well. */
  lemma {:induction false} KeptTwice(times: seq<int>, earlier: int, later: int, window: int)
    requires earlier <= later
    ensures Kept(Kept(times, earlier, window), later, window) == Kept(times, later, window)
  {
    if times != [] {
      var last := |times| - 1;
      var init := Kept(times[..last], earlier, window);
      KeptTwice(times[..last], earlier, later, window);
      if earlier - times[last] <= window {
        assert (init + [times[last]])[..|init|] == init;
      } else {
        assert init + [] == init;
      }
    }
  }

  lemma KeptAppend(times: seq<int>, t: int, now: int, window: int)
    ensures Kept(times + [t], now, window) == Kept(times, now, window) + (if now - t <= window then [t] else [])
  {
    assert (times + [t])[..|times|] == times;
  }

  /**
   Filtering at every exit loses nothing: after any sequence of exits in time order the list is exactly
   the short runs since the last reset that lie in the window.
   */
  lemma {:induction false} ListIsTheWindow(exits: seq<Exit>, c: Config)
    requires Ordered(exits)
    ensures exits != [] ==>
              Replay(exits, c) == Kept(ShortRunsSinceReset(exits, c), exits[|exits| - 1].at, c.window)
  {
    if exits != [] {
      var init, e := exits[..|exits| - 1], exits[|exits| - 1];
      assert init + [e] == exits;
      assert Ordered(init);
      ListIsTheWindow(init, c);
      OneMoreExit(init, e, c);
    }
  }

  lemma OneMoreExit(init: seq<Exit>, e: Exit, c: Config)
    requires Ordered(init + [e])
    requires init != [] ==>
               Replay(init, c) == Kept(ShortRunsSinceReset(init, c), init[|init| - 1].at, c.window)
    ensures Replay(init + [e], c) == Kept(ShortRunsSinceReset(init + [e], c), e.at, c.window)
  {
    assert Kept([], e.at, c.window) == [];
    hide Ordered, Replay, ShortRunsSinceReset, Kept;
    SameWindow(init, e, c);
    LastExit(init, e, c);
  }

  lemma LastExit(init: seq<Exit>, e: Exit, c: Config)
    ensures Replay(init + [e], c) == AfterExit(Replay(init, c), e, c).0
    ensures var before := ShortRunsSinceReset(init, c);
            ShortRunsSinceReset(init + [e], c)
            == if e.stable || |Kept(before + [e.at], e.at, c.window)| >= c.threshold then [] else before + [e.at]
  {
    hide Kept, AfterExit;
    var exits := init + [e];
    assert exits[..|exits| - 1] == init && exits[|exits| - 1] == e;
  }

  /** Filtered or not, the list shows the same window at the next exit. */
  lemma SameWindow(init: seq<Exit>, e: Exit, c: Config)
    requires Ordered(init + [e])
    requires init != [] ==>
               Replay(init, c) == Kept(ShortRunsSinceReset(init, c), init[|init| - 1].at, c.window)
    ensures Kept(Replay(init, c) + [e.at], e.at, c.window)
            == Kept(ShortRunsSinceReset(init, c) + [e.at], e.at, c.window)
  {
    KeptAppend(Replay(init, c), e.at, e.at, c.window);
    KeptAppend(ShortRunsSinceReset(init, c), e.at, e.at, c.window);
    if init != [] {
      assert (init + [e])[|init| - 1] == init[|init| - 1] && (init + [e])[|init|] == e;
      KeptTwice(ShortRunsSinceReset(init, c), init[|init| - 1].at, e.at, c.window);
    }
  }

  /** A crash loop is detected at an exit iff at least `threshold` short runs since the last reset lie in the window. */
  lemma DetectedIffThresholdInWindow(init: seq<Exit>, e: Exit, c: Config)
    requires Ordered(init + [e]) && !e.stable
    ensures AfterExit(Replay(init, c), e, c).1
            <==> |Kept(ShortRunsSinceReset(init, c) + [e.at], e.at, c.window)| >= c.threshold
  {
    assert forall i :: 0 <= i < |init| ==> (init + [e])[i] == init[i];
    ListIsTheWindow(init, c);
    SameWindow(init, e, c);
  }
}
