/** The bounded per-channel chat history: appending with FIFO eviction. */
module History {

  /** How many messages a channel keeps. */
  const MAX_HISTORY: nat := 100

  /** Push `m` onto `h`, then shift off the oldest entry if the result holds
      more than MAX_HISTORY messages. */
  function AppendBounded<T>(h: seq<T>, m: T): (r: seq<T>)
    ensures |r| > 0 && r[|r| - 1] == m
    ensures |h| < MAX_HISTORY ==> r[..|r| - 1] == h
    ensures |h| >= MAX_HISTORY ==> r[..|r| - 1] == h[1..]
    ensures |h| <= |r| <= |h| + 1
    ensures |h| <= MAX_HISTORY ==> |r| <= MAX_HISTORY
  {
    // push, then shift once if the pushed history is over capacity
    if |h| + 1 > MAX_HISTORY then h[1..] + [m] else h + [m]
  }

  /** The newest MAX_HISTORY entries of `s` (all of `s` if it is shorter):
      what a FIFO log of that capacity should hold. */
  function Newest<T>(s: seq<T>): seq<T>
  {
    if |s| <= MAX_HISTORY then s else s[|s| - MAX_HISTORY..]
  }

  /** The history after the messages `ms` arrive, in order, at a channel holding `h`. */
  function Feed<T>(h: seq<T>, ms: seq<T>): (r: seq<T>)
    ensures |h| <= MAX_HISTORY ==> |r| <= MAX_HISTORY
    ensures ms != [] ==> |r| > 0 && r[|r| - 1] == ms[|ms| - 1]
    decreases |ms|
  {
    if ms == [] then h else Feed(AppendBounded(h, ms[0]), ms[1..])
  }

  /** Keeping a long enough suffix of `x` does not change the newest entries
      of anything appended to it. */
  lemma NewestOfSuffix<T>(x: seq<T>, t: seq<T>, rest: seq<T>)
    requires |t| <= |x| && t == x[|x| - |t|..]
    requires |t| == |x| || |t| >= MAX_HISTORY
    ensures Newest(t + rest) == Newest(x + rest)
  {
  }

  /** Appending messages one by one with eviction keeps exactly the newest
      MAX_HISTORY messages of the whole stream, in arrival order. */
  lemma {:induction false} FeedKeepsNewest<T>(h: seq<T>, ms: seq<T>)
    requires |h| <= MAX_HISTORY
    ensures Feed(h, ms) == Newest(h + ms)
    decreases |ms|
  {
    if ms == [] {
      assert h + ms == h;
    } else {
      var x := h + [ms[0]];
      var h' := AppendBounded(h, ms[0]);
      FeedKeepsNewest(h', ms[1..]);
      if |h| < MAX_HISTORY {
        assert h' == x;
      } else {
        assert h' == x[1..];
      }
      NewestOfSuffix(x, h', ms[1..]);
      assert x + ms[1..] == h + ms;
    }
  }

  /** FIFO eviction: after MAX_HISTORY + 1 messages reach an empty channel, the
      first has been evicted, the rest are kept in order and the last is newest. */
  lemma FifoEviction<T>(ms: seq<T>)
    requires |ms| == MAX_HISTORY + 1
    ensures Feed([], ms) == ms[1..]
    ensures Feed([], ms)[MAX_HISTORY - 1] == ms[MAX_HISTORY]
    ensures ms[0] !in ms[1..] ==> ms[0] !in Feed([], ms)
  {
    FeedKeepsNewest([], ms);
    assert [] + ms == ms;
  }
}
