/** The angle-smoothing window of the squat counter: the last few knee
    angles, oldest first. */
module Smoothing {

  /** Number of frames kept for smoothing (`history_size`). */
  const HistorySize: nat := 5

  /** The last n elements of s (all of s when it is shorter). */
  ghost function LastN(s: seq<real>, n: nat): seq<real> {
    if |s| <= n then s else s[|s| - n..]
  }

  /** One window update: append the new angle, then drop the oldest entry
      when the window has grown past HistorySize. */
  function Push(h: seq<real>, v: real): (r: seq<real>)
    ensures |r| > 0 && r[|r| - 1] == v
    ensures |h| <= HistorySize ==> |r| <= HistorySize
    ensures |h| < HistorySize ==> r == h + [v]
    ensures |h| >= HistorySize ==> r == h[1..] + [v]
  {
    var appended := h + [v];
    if |appended| > HistorySize then appended[1..] else appended
  }

  /** When the window holds the last HistorySize angles received, it still
      does after one more angle arrives: the window is exactly the most
      recent HistorySize angles, in arrival order. */
  lemma PushKeepsLatest(received: seq<real>, v: real)
    ensures Push(LastN(received, HistorySize), v) == LastN(received + [v], HistorySize)
  {
    var h := LastN(received, HistorySize);
    var all := received + [v];
    if |received| >= HistorySize {
      assert h == received[|received| - HistorySize..];
      assert h[1..] + [v] == all[|all| - HistorySize..];
    }
  }
}
