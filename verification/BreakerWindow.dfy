/**
 The sliding window of `aiomisc/circuit_breaker.py`: time is cut into buckets, and a deque of at
 most ten buckets stands for the unbounded history of buckets since the last clear.
 Times are reals; rounding of floats is not modelled.
 */
module BreakerWindow {

  const BUCKET_COUNT: nat := 10

  /** A retained bucket: its key and the number of the Counter that belongs to it. */
  datatype Slot = Slot(key: int, counter: nat)

  /** The multiple of `response_time` a moment falls into, on the stretched time axis. */
  function Grid(t: real, responseTime: real): int
    requires 0.0 < responseTime
  {
    (t * 10.0 / responseTime).Floor
  }

  function GridKey(k: int, responseTime: real): int {
    (k as real * responseTime).Floor
  }

  /** `bucket()`: `int(ts - ts % response_time)` for `ts = time * BUCKET_COUNT`. */
  function Bucket(t: real, responseTime: real): int
    requires 0.0 < responseTime
  {
    GridKey(Grid(t, responseTime), responseTime)
  }

  predicate IsCurrent(slots: seq<Slot>, key: int) {
    slots != [] && slots[|slots| - 1].key == key
  }

  /** `counter()`: the newest slot if it has this key, else a new slot, the oldest of ten dropped. */
  function Touched(deque: seq<Slot>, key: int, made: nat): (r: seq<Slot>)
    ensures r != [] && r[|r| - 1].key == key
    ensures |deque| <= BUCKET_COUNT ==> |r| <= BUCKET_COUNT
  {
    if IsCurrent(deque, key) then deque
    else Newest(deque + [Slot(key, made)])
  }

  /** The same without a limit: every bucket since the last clear. */
  function Recorded(history: seq<Slot>, key: int, made: nat): (r: seq<Slot>)
    ensures r != [] && r[|r| - 1].key == key
  {
    if IsCurrent(history, key) then history else history + [Slot(key, made)]
  }

  /** What a deque of `maxlen` ten keeps. */
  function Newest(slots: seq<Slot>): (r: seq<Slot>) {
    if |slots| <= BUCKET_COUNT then slots else slots[|slots| - BUCKET_COUNT..]
  }

  predicate Increasing(slots: seq<Slot>) {
    forall i, j :: 0 <= i < j < |slots| ==> slots[i].key < slots[j].key
  }

  /** Every bucket has a Counter of its own. */
  predicate Numbered(slots: seq<Slot>) {
    forall i, j :: 0 <= i < j < |slots| ==> slots[i].counter < slots[j].counter
  }

  /** All slots whose key is not before the given time, oldest first. */
  function InWindow(slots: seq<Slot>, notBefore: real): (r: seq<Slot>) {
    if slots == [] then []
    else
      var rest := InWindow(slots[..|slots| - 1], notBefore);
      var last := slots[|slots| - 1];
      if (last.key as real) < notBefore then rest else rest + [last]
  }

  function NotBefore(t: real, responseTime: real): real
    requires 0.0 < responseTime
  {
    Bucket(t, responseTime) as real - responseTime * 10.0
  }

  // ------------------------------------------------------------------- buckets

  lemma DivMonotone(a: real, b: real, d: real)
    requires a <= b && 0.0 < d
    ensures a / d <= b / d
  {
    assert a / d * d == a && b / d * d == b;
  }

  lemma DivSelf(d: real)
    requires d != 0.0
    ensures d / d == 1.0
  {
  }

  lemma MulMonotone(a: real, b: real, d: real)
    requires a <= b && 0.0 <= d
    ensures a * d <= b * d
  {
  }

  lemma GridKeyMonotone(j: int, k: int, responseTime: real)
    requires j <= k && 0.0 < responseTime
    ensures GridKey(j, responseTime) <= GridKey(k, responseTime)
  {
    MulMonotone(j as real, k as real, responseTime);
  }

  /** With a clock that does not go back, bucket keys do not go back. */
  lemma BucketMonotone(t: real, u: real, responseTime: real)
    requires t <= u && 0.0 < responseTime
    ensures Bucket(t, responseTime) <= Bucket(u, responseTime)
  {
    DivMonotone(t * 10.0, u * 10.0, responseTime);
    GridKeyMonotone(Grid(t, responseTime), Grid(u, responseTime), responseTime);
  }

  function Multiple(k: int, responseTime: real): real {
    k as real * responseTime
  }

  /** A product with a factor rounded down is less than one `d` below. */
  lemma RoundedProduct(q: real, f: real, d: real, x: real, m: real)
    requires 0.0 < d && f <= q < f + 1.0 && x == q * d && m == f * d
    ensures m <= x && x < m + d
  {
    var above, below := f + 1.0 - q, q - f;
    assert 0.0 < above * d && above * d == (f + 1.0) * d - q * d;
    assert (f + 1.0) * d == f * d + d;
    assert 0.0 <= below * d && below * d == q * d - f * d;
  }

  lemma RoundedDown(m: real, k: int)
    requires k == m.Floor
    ensures k as real <= m && m < k as real + 1.0
  {
  }

  /** The key is a multiple of `response_time` rounded down, not after ten times the moment and less than
      one `response_time`, and the rounding, before it. */
  lemma BucketInterval(t: real, responseTime: real)
    requires 0.0 < responseTime
    ensures Bucket(t, responseTime) as real <= 10.0 * t < Bucket(t, responseTime) as real + responseTime + 1.0
    ensures exists k :: Bucket(t, responseTime) == Multiple(k, responseTime).Floor
  {
    var q, k := t * 10.0 / responseTime, Grid(t, responseTime);
    assert q * responseTime == t * 10.0;
    var m := Multiple(k, responseTime);
    RoundedProduct(q, k as real, responseTime, t * 10.0, m);
    RoundedDown(m, Bucket(t, responseTime));
  }

  /** In terms of time: a bucket entered at `u` is in the window of `t` if less than nine tenths of a
      `response_time` has passed, and is not if more than eleven tenths have, up to the rounding. */
  lemma WindowInTime(u: real, t: real, responseTime: real)
    requires 0.0 < responseTime
    ensures 10.0 * (t - u) <= 9.0 * responseTime - 1.0 ==>
              NotBefore(t, responseTime) <= Bucket(u, responseTime) as real
    ensures 11.0 * responseTime + 1.0 <= 10.0 * (t - u) ==>
              (Bucket(u, responseTime) as real) < NotBefore(t, responseTime)
  {
    BucketInterval(t, responseTime);
    BucketInterval(u, responseTime);
    hide Bucket;
  }

  /** Keys that come from moments in time. */
  ghost predicate AllBuckets(slots: seq<Slot>, responseTime: real) {
    forall i :: 0 <= i < |slots| ==> IsBucket(slots[i].key, responseTime)
  }

  ghost predicate IsBucket(key: int, responseTime: real) {
    exists k :: GridKey(k, responseTime) == key
  }

  /** Between two slots of an increasing history lie at least as many multiples as slots. */
  lemma {:induction false} GridGap(slots: seq<Slot>, i: nat, j: nat, ki: int, kj: int, responseTime: real)
    requires 0.0 < responseTime && Increasing(slots) && AllBuckets(slots, responseTime)
    requires i < j < |slots|
    requires GridKey(ki, responseTime) == slots[i].key && GridKey(kj, responseTime) == slots[j].key
    ensures j - i <= kj - ki
    decreases j
  {
    if i == j - 1 {
      GridKeyReflects(ki, kj, responseTime);
    } else {
      assert IsBucket(slots[j - 1].key, responseTime);
      var km :| GridKey(km, responseTime) == slots[j - 1].key;
      GridKeyReflects(km, kj, responseTime);
      GridGap(slots, i, j - 1, ki, km, responseTime);
    }
  }

  lemma GridKeyReflects(j: int, k: int, responseTime: real)
    requires 0.0 < responseTime && GridKey(j, responseTime) < GridKey(k, responseTime)
    ensures j < k
  {
    if k <= j {
      GridKeyMonotone(k, j, responseTime);
    }
  }

  lemma ElevenMultiplesSpan(ki: int, kj: int, responseTime: real)
    requires 1.0 <= responseTime && 11 <= kj - ki
    ensures responseTime * 10.0 < (GridKey(kj, responseTime) - GridKey(ki, responseTime)) as real
  {
    var x, y := ki as real * responseTime, kj as real * responseTime;
    MulDistributes(kj as real, ki as real, responseTime);
    MulMonotone(11.0, kj as real - ki as real, responseTime);
    assert 11.0 * responseTime <= y - x;
  }

  lemma MulDistributes(a: real, b: real, c: real)
    ensures (a - b) * c == a * c - b * c
  {
  }

  /** Twelve increasing buckets never fit into one window, whatever the response time. */
  lemma TwelveSpanMoreThanAWindow(slots: seq<Slot>, i: nat, responseTime: real)
    requires 0.0 < responseTime && Increasing(slots) && AllBuckets(slots, responseTime)
    requires i + 11 < |slots|
    ensures responseTime * 10.0 < (slots[i + 11].key - slots[i].key) as real
  {
    assert IsBucket(slots[i].key, responseTime) && IsBucket(slots[i + 11].key, responseTime);
    var ki :| GridKey(ki, responseTime) == slots[i].key;
    var kj :| GridKey(kj, responseTime) == slots[i + 11].key;
    GridGap(slots, i, i + 11, ki, kj, responseTime);
    if responseTime < 1.0 {
      KeysAreApart(slots, i, i + 11);
    } else {
      ElevenMultiplesSpan(ki, kj, responseTime);
    }
  }

  lemma {:induction false} KeysAreApart(slots: seq<Slot>, i: nat, j: nat)
    requires Increasing(slots) && i <= j < |slots|
    ensures j - i <= slots[j].key - slots[i].key
    decreases j
  {
    if i < j {
      KeysAreApart(slots, i, j - 1);
    }
  }

  // --------------------------------------------------------------- the window

  /** The slots before `k` are too old, the others are not. */
  ghost predicate SplitsAt(slots: seq<Slot>, notBefore: real, k: nat) {
    && k <= |slots|
    && (forall i :: 0 <= i < k ==> (slots[i].key as real) < notBefore)
    && (forall i :: k <= i < |slots| ==> notBefore <= slots[i].key as real)
  }

  lemma {:induction false} WindowAt(slots: seq<Slot>, notBefore: real, k: nat)
    requires SplitsAt(slots, notBefore, k)
    ensures InWindow(slots, notBefore) == slots[k..]
  {
    if slots != [] {
      var n := |slots| - 1;
      var rest := slots[..n];
      if k == |slots| {
        WindowAt(rest, notBefore, n);
      } else {
        WindowAt(rest, notBefore, k);
        assert rest[k..] + [slots[n]] == slots[k..];
      }
    }
  }

  /** In an increasing sequence the window is a suffix. */
  lemma {:induction false} WindowIsSuffix(slots: seq<Slot>, notBefore: real) returns (k: nat)
    requires Increasing(slots)
    ensures SplitsAt(slots, notBefore, k) && InWindow(slots, notBefore) == slots[k..]
  {
    k := |slots|;
    while 0 < k && notBefore <= slots[k - 1].key as real
      invariant k <= |slots| && forall i :: k <= i < |slots| ==> notBefore <= slots[i].key as real
    {
      k := k - 1;
    }
    WindowAt(slots, notBefore, k);
  }

  /** The bounded deque shows the newest ten in-window buckets of the unbounded history. */
  lemma WindowOfNewest(history: seq<Slot>, notBefore: real)
    requires Increasing(history)
    ensures InWindow(Newest(history), notBefore) == Newest(InWindow(history, notBefore))
  {
    hide InWindow, Increasing;
    var k := WindowIsSuffix(history, notBefore);
    if BUCKET_COUNT < |history| {
      var cut := |history| - BUCKET_COUNT;
      if k < cut {
        SplitOfSuffix(history, notBefore, k, cut, 0);
        WindowAt(history[cut..], notBefore, 0);
        assert history[k..][cut - k..] == history[cut..];
      } else {
        SplitOfSuffix(history, notBefore, k, cut, k - cut);
        WindowAt(history[cut..], notBefore, k - cut);
        assert history[cut..][k - cut..] == history[k..];
      }
    }
  }

  lemma SplitOfSuffix(slots: seq<Slot>, notBefore: real, k: nat, cut: nat, j: nat)
    requires SplitsAt(slots, notBefore, k) && cut <= |slots|
    requires j == if k < cut then 0 else k - cut
    ensures SplitsAt(slots[cut..], notBefore, j)
  {
    assert forall i :: 0 <= i < |slots| - cut ==> slots[cut..][i] == slots[cut + i];
  }

  /** At most eleven buckets of the whole history are in the window: the deque drops at most one. */
  lemma WindowHoldsAtMostEleven(history: seq<Slot>, t: real, responseTime: real)
    requires 0.0 < responseTime && Increasing(history) && AllBuckets(history, responseTime)
    requires forall i :: 0 <= i < |history| ==> history[i].key <= Bucket(t, responseTime)
    ensures |InWindow(history, NotBefore(t, responseTime))| <= 11
  {
    var k := WindowIsSuffix(history, NotBefore(t, responseTime));
    if k + 11 < |history| {
      TwelveSpanMoreThanAWindow(history, k, responseTime);
    }
  }
}
