/** Bounded hit histories: the deque-of-bool idiom every tracker uses. */
module SlidingWindow {
  import opened Types
  import opened RealArithmetic

  /** The last n elements, or all of them if there are fewer. */
  function LastN<T>(s: seq<T>, n: nat): seq<T> {
    if |s| <= n then s else s[|s| - n..]
  }

  function Count(s: seq<bool>): nat {
    if s == [] then 0 else Count(s[..|s| - 1]) + if s[|s| - 1] then 1 else 0
  }

  /** One observation enters a window of the configured width. */
  function Push(history: seq<bool>, hit: bool, window: int): seq<bool> {
    LastN(history + [hit], Max(1, window))
  }

  /** Appends, then drops from the front while the window is exceeded. */
  method PushBounded(history: seq<bool>, hit: bool, window: int) returns (result: seq<bool>)
    ensures result == Push(history, hit, window)
  {
    result := history + [hit];
    while |result| > Max(1, window)
      invariant result == LastN(history + [hit], |result|)
      invariant |result| >= if |history| + 1 < Max(1, window) then |history| + 1 else Max(1, window)
    {
      result := result[1..];
    }
  }

  method CountHits(history: seq<bool>) returns (hits: nat)
    ensures hits == Count(history)
  {
    hits := 0;
    for i := 0 to |history|
      invariant hits == Count(history[..i])
    {
      assert history[..i + 1][..i] == history[..i];
      if history[i] { hits := hits + 1; }
    }
    assert history[..|history|] == history;
  }

  /** Pushing into the last-n view of a stream gives the last-n view of the longer stream. */
  lemma PushLastN(stream: seq<bool>, hit: bool, window: int)
    ensures Push(LastN(stream, Max(1, window)), hit, window) == LastN(stream + [hit], Max(1, window))
  {
  }

  lemma {:induction false} CountBounds(s: seq<bool>)
    ensures Count(s) <= |s|
    ensures Count(s) > 0 ==> exists i :: 0 <= i < |s| && s[i]
    ensures Count(s) < |s| ==> exists i :: 0 <= i < |s| && !s[i]
  {
    if s != [] {
      CountBounds(s[..|s| - 1]);
    }
  }

  /** Length of the run of misses the stream ends with. */
  function TrailingMisses(s: seq<bool>): nat {
    if s == [] || s[|s| - 1] then 0 else 1 + TrailingMisses(s[..|s| - 1])
  }

  lemma {:induction false} TrailingMissesMeaning(s: seq<bool>)
    ensures TrailingMisses(s) <= |s|
    ensures forall i :: |s| - TrailingMisses(s) <= i < |s| ==> !s[i]
    ensures TrailingMisses(s) < |s| ==> s[|s| - TrailingMisses(s) - 1]
  {
    if s != [] && !s[|s| - 1] {
      TrailingMissesMeaning(s[..|s| - 1]);
    }
  }

  // ----- Exponential smoothing -----

  function Smooth(previous: real, observed: real, alpha: real): real {
    var a := Clamp(alpha, 0.0, 1.0);
    (1.0 - a) * previous + a * observed
  }

  /** The smoothed value never leaves an interval that holds both of its inputs. */
  lemma SmoothInHull(previous: real, observed: real, alpha: real, low: real, high: real)
    requires low <= previous <= high && low <= observed <= high
    ensures low <= Smooth(previous, observed, alpha) <= high
  {
    var a := Clamp(alpha, 0.0, 1.0);
    ConvexPair(1.0 - a, a, previous, observed, low, high);
  }
}
