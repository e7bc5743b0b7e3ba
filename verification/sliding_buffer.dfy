/**
 * The rolling audio window of the streaming endpoint: the buffer keeps the
 * most recent 80,000 samples (five seconds at 16 kHz).
 */
module SlidingBuffer {

  const Capacity: nat := 80000

  /** The last `n` elements of `s`, or all of `s` when it is shorter. */
  function LastN<T>(s: seq<T>, n: nat): (r: seq<T>)
    ensures |r| == if |s| <= n then |s| else n
    ensures r == s[|s| - |r|..]
  {
    if |s| <= n then s else s[|s| - n..]
  }

  /**
   * Extending a window that holds the last `n` samples of a history and
   * trimming it back to `n` gives the last `n` samples of the extended
   * history: the window never loses a recent sample nor keeps a stale one.
   */
  lemma WindowOfExtension<T>(history: seq<T>, chunk: seq<T>, n: nat)
    ensures LastN(LastN(history, n) + chunk, n) == LastN(history + chunk, n)
  {
    var w := LastN(history, n);
    var all := history + chunk;
    var grown := w + chunk;
    assert grown == all[|all| - |grown|..] by {
      assert w == history[|history| - |w|..];
    }
    if |grown| > n {
      assert grown[|grown| - n..] == all[|all| - n..];
    } else if |history| <= n {
      assert grown == all;
    } else {
      assert chunk == [] && all == history;
    }
  }
}
