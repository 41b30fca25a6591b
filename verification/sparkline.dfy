/** Event bucketing of src/lib/sparkline.ts: event times are binned into fixed-width buckets
    whose indices are clamped into range, for the activity sparkline. */
module Sparkline {
  import opened Outcomes

  /** The result of bucketing: bin start times, per-bin counts and the bin width in ms. */
  datatype Buckets = Buckets(bins: seq<int>, counts: seq<int>, binMs: real)

  /** `Math.min(...xs)` on a non-empty list. */
  function Least(xs: seq<int>): (m: int)
    requires |xs| > 0
    ensures m in xs
    ensures forall i :: 0 <= i < |xs| ==> m <= xs[i]
  {
    if |xs| == 1 then xs[0]
    else
      var m := Least(xs[1..]);
      assert forall i :: 1 <= i < |xs| ==> xs[i] == xs[1..][i - 1];
      if xs[0] <= m then xs[0] else m
  }

  /** `Math.max(...xs)` on a non-empty list. */
  function Greatest(xs: seq<int>): (m: int)
    requires |xs| > 0
    ensures m in xs
    ensures forall i :: 0 <= i < |xs| ==> xs[i] <= m
  {
    if |xs| == 1 then xs[0]
    else
      var m := Greatest(xs[1..]);
      assert forall i :: 1 <= i < |xs| ==> xs[i] == xs[1..][i - 1];
      if xs[0] >= m then xs[0] else m
  }

  /** Bin width in whole ms: `max(1000, floor(binSec * 1000))`. */
  function BinWidth(binSec: real): (w: int)
    ensures w >= 1000
    ensures binSec * 1000.0 < 1000.0 ==> w == 1000
    ensures binSec * 1000.0 >= 1000.0 ==> w as real <= binSec * 1000.0 < w as real + 1.0
  {
    var f := (binSec * 1000.0).Floor;
    if f < 1000 then 1000 else f
  }

  /** Number of buckets: `max(1, ceil((e - s) / w))`, so that the buckets cover [s, e]. */
  function BucketCount(s: int, e: int, w: int): (n: int)
    requires w > 0
    ensures n >= 1
    ensures e - s <= n * w
    ensures n == 1 || (n - 1) * w < e - s
  {
    var q := -((s - e) / w);
    CeilDiv(e - s, w);
    if q < 1 then 1 else q
  }

  /** `-((-a) / w)` is the ceiling of `a / w` for a positive `w`. */
  lemma CeilDiv(a: int, w: int)
    requires w > 0
    ensures (-((-a) / w) - 1) * w < a <= -((-a) / w) * w
  {
    var q := (-a) / w;
    var r := (-a) % w;
    assert -a == q * w + r && 0 <= r < w;
    assert a == -q * w - r;
    assert (-q - 1) * w == -q * w - w;
  }

  /** Index of the bucket that holds `t`: `min(n - 1, max(0, floor((t - s) / w)))`. */
  function BinIndex(t: int, s: int, w: int, n: int): (k: int)
    requires w > 0 && n >= 1
    ensures 0 <= k < n
    ensures t < s ==> k == 0
    ensures s + (n - 1) * w <= t ==> k == n - 1
    ensures s <= t < s + n * w ==> s + k * w <= t < s + (k + 1) * w
  {
    var q := (t - s) / w;
    FloorDiv(t - s, w);
    if q < 0 then 0 else if q > n - 1 then n - 1 else q
  }

  /** Euclidean division by a positive `w` is the floor. */
  lemma FloorDiv(a: int, w: int)
    requires w > 0
    ensures (a / w) * w <= a < (a / w + 1) * w
    ensures a < 0 <==> a / w < 0
  {
    var q, r := a / w, a % w;
    assert a == q * w + r && 0 <= r < w;
    assert (q + 1) * w == q * w + w;
    if q < 0 {
      assert q * w <= -w;
    }
    if q >= 0 {
      assert q * w >= 0;
    }
  }

  /** How many of the times in `ts` fall into bucket `k`. */
  function Hits(ts: seq<int>, s: int, w: int, n: int, k: int): nat
    requires w > 0 && n >= 1
  {
    if |ts| == 0 then 0
    else Hits(ts[..|ts| - 1], s, w, n, k) + (if BinIndex(ts[|ts| - 1], s, w, n) == k then 1 else 0)
  }

  /** Sum of the counts. */
  function CountTotal(cs: seq<int>): int
  {
    if |cs| == 0 then 0 else cs[0] + CountTotal(cs[1..])
  }

  /** Incrementing one count increments the total. */
  lemma {:induction false} CountTotalBump(cs: seq<int>, k: int)
    requires 0 <= k < |cs|
    ensures CountTotal(cs[k := cs[k] + 1]) == CountTotal(cs) + 1
  {
    if k > 0 {
      assert cs[k := cs[k] + 1][1..] == cs[1..][k - 1 := cs[1..][k - 1] + 1];
      CountTotalBump(cs[1..], k - 1);
    }
  }

  lemma {:induction false} CountTotalZeros(n: nat)
    ensures CountTotal(seq(n, _ => 0)) == 0
  {
    if n > 0 {
      assert seq(n, _ => 0)[1..] == seq(n - 1, _ => 0);
      CountTotalZeros(n - 1);
    }
  }

  /** The first bucket's start: `startMs`, or the earliest time when it is not given. */
  function FirstBinStart(timesMs: seq<int>, startMs: Option<int>): int
    requires |timesMs| > 0
  {
    match startMs
    case Some(v) => v
    case None => Least(timesMs)
  }

  /** The end of the covered span: `endMs`, or the latest time when it is not given. */
  function SpanEnd(timesMs: seq<int>, endMs: Option<int>): int
    requires |timesMs| > 0
  {
    match endMs
    case Some(v) => v
    case None => Greatest(timesMs)
  }

  /** `bucketCounts`. */
  method BucketCounts(timesMs: seq<int>, binSec: real, startMs: Option<int>, endMs: Option<int>)
    returns (r: Buckets)
    ensures |timesMs| == 0 ==> r == Buckets([], [], binSec * 1000.0)
    ensures |timesMs| > 0 ==>
      var w := BinWidth(binSec);
      var s := FirstBinStart(timesMs, startMs);
      var n := BucketCount(s, SpanEnd(timesMs, endMs), w);
      && r.binMs == w as real
      && |r.bins| == n && |r.counts| == n
      && (forall i :: 0 <= i < n ==> r.bins[i] == s + i * w)
      && (forall i :: 0 <= i < n ==> r.counts[i] == Hits(timesMs, s, w, n, i))
    ensures CountTotal(r.counts) == |timesMs|
  {
    if |timesMs| == 0 {
      return Buckets([], [], binSec * 1000.0);
    }
    var w := BinWidth(binSec);
    var s := FirstBinStart(timesMs, startMs);
    var e := SpanEnd(timesMs, endMs);
    var n := BucketCount(s, e, w);
    var counts: seq<int> := seq(n, _ => 0);
    CountTotalZeros(n);
    var j := 0;
    while j < |timesMs|
      invariant 0 <= j <= |timesMs|
      invariant |counts| == n
      invariant forall k :: 0 <= k < n ==> counts[k] == Hits(timesMs[..j], s, w, n, k)
      invariant CountTotal(counts) == j
    {
      var idx := BinIndex(timesMs[j], s, w, n);
      CountTotalBump(counts, idx);
      assert timesMs[..j + 1][..j] == timesMs[..j];
      counts := counts[idx := counts[idx] + 1];
      j := j + 1;
    }
    assert timesMs[..j] == timesMs;
    var bins := seq(n, i requires 0 <= i < n => s + i * w);
    r := Buckets(bins, counts, w as real);
  }
}
