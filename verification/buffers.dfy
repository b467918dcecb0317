/** The bounded plot buffers of the GUI recorders and the `[-n:]` display window. */
module Buffers {
  import opened Options

  /** `s[-n:]` when `len(s) > n`, otherwise all of `s`. */
  function Recent<T>(s: seq<T>, n: nat): (r: seq<T>)
    ensures |r| == Min(|s|, n)
    ensures r == s[|s| - |r|..]
  {
    if |s| > n then s[|s| - n..] else s
  }

  /** `buf.append(x)` followed by `if len(buf) > cap: buf.pop(0)`. */
  function PushCapped<T>(buf: seq<T>, x: T, cap: nat): seq<T>
  {
    var b := buf + [x];
    if |b| > cap then b[1..] else b
  }

  /**
   * Appending and popping once keeps the buffer equal to the last `cap`
   * arrivals, in arrival order, as long as the cap is at least one.
   */
  lemma PushCappedRecent<T>(s: seq<T>, x: T, cap: nat)
    requires cap > 0
    ensures PushCapped(Recent(s, cap), x, cap) == Recent(s + [x], cap)
  {
    var t := s + [x];
    if |s| > cap {
      assert (s[|s| - cap..] + [x])[1..] == t[|t| - cap..];
    }
  }
}
