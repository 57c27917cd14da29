/**
  A volume dataset (class VolumeData): a header giving the resolution and the
  voxel aspect ratio, followed by a raw payload of samples of `byteCount` bytes
  each, stored with the most significant byte first. Loading scans the samples
  for their minimum and maximum, reverses the bytes of every sample in place
  (so the buffer holds the least significant byte first, as the GPU upload
  expects), normalises the extremes by 256^byteCount and builds a histogram.
*/
module Volume {
  import opened CNum
  import opened DataStream

  // ---------------------------------------------------------------------------
  // Samples and their values
  // ---------------------------------------------------------------------------

  function Pow256(n: nat): (r: nat)
    ensures r >= 1
  {
    if n == 0 then 1 else 256 * Pow256(n - 1)
  }

  /** The value of `s` read with the first byte most significant. */
  function ValueBE(s: seq<bv8>): nat
  {
    if |s| == 0 then 0 else ValueBE(s[..|s| - 1]) * 256 + s[|s| - 1] as nat
  }

  /** The value of `s` read with the last byte most significant. */
  function ValueLE(s: seq<bv8>): nat
  {
    if |s| == 0 then 0 else s[0] as nat + 256 * ValueLE(s[1..])
  }

  function Reverse<T>(s: seq<T>): seq<T>
  {
    seq(|s|, k requires 0 <= k < |s| => s[|s| - 1 - k])
  }

  /** An `n`-byte value is below 256^n. */
  lemma {:induction false} ValueBEBound(s: seq<bv8>)
    ensures ValueBE(s) < Pow256(|s|)
  {
    if |s| > 0 {
      var pre := s[..|s| - 1];
      ValueBEBound(pre);
      assert ValueBE(pre) + 1 <= Pow256(|pre|);
      assert (ValueBE(pre) + 1) * 256 <= Pow256(|pre|) * 256;
      assert ValueBE(s) == ValueBE(pre) * 256 + s[|s| - 1] as nat;
    }
  }

  /** Reading reversed bytes little-endian gives the big-endian value. */
  lemma {:induction false} ValueLEReverse(s: seq<bv8>)
    ensures ValueLE(Reverse(s)) == ValueBE(s)
  {
    if |s| > 0 {
      var pre := s[..|s| - 1];
      assert Reverse(s)[0] == s[|s| - 1];
      assert Reverse(s)[1..] == Reverse(pre);
      ValueLEReverse(pre);
    }
  }

  /**
    The payload with the bytes of every `bc`-byte sample reversed (a trailing
    partial sample, which a well-formed file does not have, is kept as it is).
  */
  function SwapBytes(p: seq<bv8>, bc: nat): (r: seq<bv8>)
    ensures |r| == |p|
    decreases |p|
  {
    if bc == 0 || |p| < bc then p else Reverse(p[..bc]) + SwapBytes(p[bc..], bc)
  }

  /** The samples of `p`, each read with its first byte most significant. */
  function SamplesBE(p: seq<bv8>, bc: nat): seq<nat>
    decreases |p|
  {
    if bc == 0 || |p| < bc then [] else [ValueBE(p[..bc])] + SamplesBE(p[bc..], bc)
  }

  /** The samples of `p`, each read with its last byte most significant. */
  function SamplesLE(p: seq<bv8>, bc: nat): seq<nat>
    decreases |p|
  {
    if bc == 0 || |p| < bc then [] else [ValueLE(p[..bc])] + SamplesLE(p[bc..], bc)
  }

  /** Reversing each sample twice restores the payload. */
  lemma {:induction false} SwapBytesInvolution(p: seq<bv8>, bc: nat)
    ensures SwapBytes(SwapBytes(p, bc), bc) == p
    decreases |p|
  {
    if bc != 0 && |p| >= bc {
      var head, rest := Reverse(p[..bc]), SwapBytes(p[bc..], bc);
      var once := head + rest;
      assert SwapBytes(p, bc) == once;
      assert once[..bc] == head;
      assert once[bc..] == rest;
      assert SwapBytes(once, bc) == Reverse(head) + SwapBytes(rest, bc);
      assert Reverse(head) == p[..bc];
      SwapBytesInvolution(p[bc..], bc);
      assert p == p[..bc] + p[bc..];
    }
  }

  /**
    The value read little-endian from the swapped buffer is the value read
    big-endian from the file, sample by sample.
  */
  lemma {:induction false} SamplesLESwap(p: seq<bv8>, bc: nat)
    ensures SamplesLE(SwapBytes(p, bc), bc) == SamplesBE(p, bc)
    decreases |p|
  {
    if bc != 0 && |p| >= bc {
      var head, rest := Reverse(p[..bc]), SwapBytes(p[bc..], bc);
      assert (head + rest)[..bc] == head;
      assert (head + rest)[bc..] == rest;
      ValueLEReverse(p[..bc]);
      SamplesLESwap(p[bc..], bc);
    }
  }

  /** A prefix of whole samples followed by one more sample. */
  lemma {:induction false} ChunkSplit(a: seq<bv8>, c: seq<bv8>, bc: nat, k: nat)
    requires bc >= 1 && |a| == k * bc && |c| == bc
    ensures k > 0 ==> |a| >= bc && |a[bc..]| == (k - 1) * bc
    ensures k > 0 ==> (a + c)[..bc] == a[..bc] && (a + c)[bc..] == a[bc..] + c
  {
    if k > 0 {
      MulLe(1, k, bc);
      assert (k - 1) * bc == k * bc - bc;
    }
  }

  lemma {:induction false} SwapBytesAppend(a: seq<bv8>, c: seq<bv8>, bc: nat, k: nat)
    requires bc >= 1 && |a| == k * bc && |c| == bc
    ensures SwapBytes(a + c, bc) == SwapBytes(a, bc) + Reverse(c)
    decreases k
  {
    ChunkSplit(a, c, bc, k);
    if k == 0 {
      assert a + c == c;
      assert c[bc..] == [];
    } else {
      SwapBytesAppend(a[bc..], c, bc, k - 1);
    }
  }

  lemma {:induction false} SamplesBEAppend(a: seq<bv8>, c: seq<bv8>, bc: nat, k: nat)
    requires bc >= 1 && |a| == k * bc && |c| == bc
    ensures SamplesBE(a + c, bc) == SamplesBE(a, bc) + [ValueBE(c)]
    decreases k
  {
    ChunkSplit(a, c, bc, k);
    if k == 0 {
      assert a + c == c;
      assert c[..bc] == c;
      assert c[bc..] == [];
    } else {
      SamplesBEAppend(a[bc..], c, bc, k - 1);
    }
  }

  lemma {:induction false} SamplesLEAppend(a: seq<bv8>, c: seq<bv8>, bc: nat, k: nat)
    requires bc >= 1 && |a| == k * bc && |c| == bc
    ensures SamplesLE(a + c, bc) == SamplesLE(a, bc) + [ValueLE(c)]
    decreases k
  {
    ChunkSplit(a, c, bc, k);
    if k == 0 {
      assert a + c == c;
      assert c[..bc] == c;
      assert c[bc..] == [];
    } else {
      SamplesLEAppend(a[bc..], c, bc, k - 1);
    }
  }

  /** Every sample of `bc` bytes is below 256^bc. */
  lemma {:induction false} SamplesBEBound(p: seq<bv8>, bc: nat)
    ensures forall j :: 0 <= j < |SamplesBE(p, bc)| ==> SamplesBE(p, bc)[j] < Pow256(bc)
    decreases |p|
  {
    if bc != 0 && |p| >= bc {
      ValueBEBound(p[..bc]);
      SamplesBEBound(p[bc..], bc);
    }
  }

  /** Where the next sample starts, a whole sample still fits. */
  lemma ChunkFits(i: nat, n: nat, bc: nat, k: nat)
    requires bc >= 1 && i == k * bc && n % bc == 0 && i < n
    ensures i + bc <= n
  {
    var m := n / bc;
    assert n == m * bc;
    if k + 1 > m {
      MulLe(m, k, bc);
      assert false;
    }
    MulLe(k + 1, m, bc);
  }

  // ---------------------------------------------------------------------------
  // Minimum and maximum
  // ---------------------------------------------------------------------------

  /** The running minimum a scan starting at `init` reaches. */
  function FoldMin(xs: seq<nat>, init: nat): nat
  {
    if |xs| == 0 then init
    else
      var m := FoldMin(xs[..|xs| - 1], init);
      if xs[|xs| - 1] < m then xs[|xs| - 1] else m
  }

  /** The running maximum a scan starting at `init` reaches. */
  function FoldMax(xs: seq<nat>, init: nat): nat
  {
    if |xs| == 0 then init
    else
      var m := FoldMax(xs[..|xs| - 1], init);
      if xs[|xs| - 1] > m then xs[|xs| - 1] else m
  }

  /**
    A running minimum is at most its start and every value and is one of them;
    a running maximum likewise from above.
  */
  lemma {:induction false} FoldBounds(xs: seq<nat>, init: nat)
    ensures FoldMin(xs, init) <= init && FoldMax(xs, init) >= init
    ensures forall j :: 0 <= j < |xs| ==> FoldMin(xs, init) <= xs[j] <= FoldMax(xs, init)
    ensures FoldMin(xs, init) == init || FoldMin(xs, init) in xs
    ensures FoldMax(xs, init) == init || FoldMax(xs, init) in xs
  {
    if |xs| > 0 {
      var pre := xs[..|xs| - 1];
      FoldBounds(pre, init);
      assert forall j :: 0 <= j < |pre| ==> pre[j] == xs[j];
      assert xs == pre + [xs[|xs| - 1]];
    }
  }

  lemma FoldStep(xs: seq<nat>, v: nat, init: nat)
    ensures FoldMin(xs + [v], init) == if v < FoldMin(xs, init) then v else FoldMin(xs, init)
    ensures FoldMax(xs + [v], init) == if v > FoldMax(xs, init) then v else FoldMax(xs, init)
  {
    assert (xs + [v])[..|xs|] == xs;
  }

  /** The smallest sample of the payload, normalised by 256^bc. */
  function NormalizedMin(p: seq<bv8>, bc: nat): real
  {
    FoldMin(SamplesBE(p, bc), Pow256(bc)) as real / Pow256(bc) as real
  }

  /** The largest sample of the payload, normalised by 256^bc. */
  function NormalizedMax(p: seq<bv8>, bc: nat): real
  {
    FoldMax(SamplesBE(p, bc), 0) as real / Pow256(bc) as real
  }

  /** Over values below `d`, a scan's minimum and maximum are values of the scan. */
  lemma FoldExtremes(xs: seq<nat>, d: nat)
    requires |xs| > 0
    requires forall j :: 0 <= j < |xs| ==> xs[j] < d
    ensures FoldMin(xs, d) in xs && FoldMax(xs, 0) in xs
    ensures FoldMin(xs, d) <= FoldMax(xs, 0) < d
  {
    var lo, hi := FoldMin(xs, d), FoldMax(xs, 0);
    FoldBounds(xs, d);
    FoldBounds(xs, 0);
    assert lo <= xs[0] <= hi;
    if hi == 0 {
      assert xs[0] == 0;
    }
  }

  /**
    With at least one sample, the normalised extremes satisfy
    0 <= min <= max < 1, and they are attained by samples.
  */
  lemma NormalizedRange(p: seq<bv8>, bc: nat)
    requires |SamplesBE(p, bc)| > 0
    ensures FoldMin(SamplesBE(p, bc), Pow256(bc)) in SamplesBE(p, bc)
    ensures FoldMax(SamplesBE(p, bc), 0) in SamplesBE(p, bc)
    ensures 0.0 <= NormalizedMin(p, bc) <= NormalizedMax(p, bc) < 1.0
  {
    var xs, d := SamplesBE(p, bc), Pow256(bc);
    SamplesBEBound(p, bc);
    FoldExtremes(xs, d);
    var lo, hi := FoldMin(xs, d), FoldMax(xs, 0);
    FractionRange(lo, hi, d);
  }

  lemma FractionRange(lo: nat, hi: nat, d: nat)
    requires lo <= hi < d
    ensures 0.0 <= lo as real / d as real <= hi as real / d as real < 1.0
  {
    var rl, rh, rd := lo as real, hi as real, d as real;
    DivLe(0.0, rl, rd);
    DivLe(rl, rh, rd);
    DivLe(rh, rd, rd);
    assert rd / rd == 1.0;
  }

  // ---------------------------------------------------------------------------
  // The file and what loading derives from it
  // ---------------------------------------------------------------------------

  /** A volume file: the parsed header lines and the raw payload after them. */
  datatype VolumeFile = VolumeFile(
    resX: int, resY: int, resZ: int,
    aspectX: real, aspectY: real, aspectZ: real,
    payload: seq<bv8>)

  datatype VolumeDataProps = VolumeDataProps(
    width: int, height: int, depth: int,
    aspectX: real, aspectY: real, aspectZ: real,
    minValue: real, maxValue: real)

  /** Bytes per sample: the payload size divided by the voxel count. */
  function ByteCountOf(f: VolumeFile): (bc: int)
    requires f.resX >= 1 && f.resY >= 1 && f.resZ >= 1
    ensures bc >= 0
    ensures bc * (f.resX * f.resY * f.resZ) <= |f.payload|
  {
    var n := f.resX * f.resY * f.resZ;
    assert f.resX * f.resY >= 1 by { MulLe(1, f.resX, f.resY); }
    assert n >= 1 by { MulLe(1, f.resX * f.resY, f.resZ); }
    CDiv(|f.payload|, n)
  }

  /**
    A file the loader handles without dividing by zero, looping forever or
    reading past the payload: a positive resolution and a payload that is
    empty or made of whole samples of at least one byte. The aspect ratios
    are positive as well, so that the extents are positive reals.
  */
  ghost predicate WellFormed(f: VolumeFile)
  {
    f.resX >= 1 && f.resY >= 1 && f.resZ >= 1 &&
    f.aspectX > 0.0 && f.aspectY > 0.0 && f.aspectZ > 0.0 &&
    (|f.payload| == 0 || (ByteCountOf(f) >= 1 && |f.payload| % ByteCountOf(f) == 0))
  }

  function PropsOf(f: VolumeFile): VolumeDataProps
    requires f.resX >= 1 && f.resY >= 1 && f.resZ >= 1
  {
    var bc := ByteCountOf(f);
    VolumeDataProps(f.resX, f.resY, f.resZ, f.aspectX, f.aspectY, f.aspectZ,
                    NormalizedMin(f.payload, bc), NormalizedMax(f.payload, bc))
  }

  /**
    The scale that fits the dataset's real extents into the unit cube: every
    extent divided by the largest one, so each factor is at most 1, the largest
    extent gets exactly 1, and the proportions between extents are kept.
  */
  function NormalizeScale(w: real, h: real, d: real): (r: (real, real, real))
    requires w > 0.0 && h > 0.0 && d > 0.0
    ensures 0.0 < r.0 <= 1.0 && 0.0 < r.1 <= 1.0 && 0.0 < r.2 <= 1.0
    ensures r.0 == 1.0 || r.1 == 1.0 || r.2 == 1.0
    ensures r.0 * h == r.1 * w && r.1 * d == r.2 * h
  {
    var m := if w > h then (if w > d then w else d) else (if h > d then h else d);
    ScaleFactor(w, m);
    ScaleFactor(h, m);
    ScaleFactor(d, m);
    CrossRatio(w, h, m);
    CrossRatio(h, d, m);
    (w / m, h / m, d / m)
  }

  lemma ScaleFactor(x: real, m: real)
    requires 0.0 < x <= m
    ensures 0.0 < x / m <= 1.0
    ensures x == m ==> x / m == 1.0
  {
    DivLe(x, m, m);
  }

  lemma CrossRatio(a: real, b: real, m: real)
    requires m > 0.0
    ensures a / m * b == b / m * a
  {
    var ia := a / m;
    var ib := b / m;
    assert ia * m == a && ib * m == b;
    assert ia * b == ia * (ib * m);
    assert ib * a == ib * (ia * m);
  }

  function ExtentsOf(props: VolumeDataProps): (real, real, real)
  {
    (props.width as real * props.aspectX,
     props.height as real * props.aspectY,
     props.depth as real * props.aspectZ)
  }

  /** A well-formed file has positive real extents. */
  lemma ExtentsPositive(f: VolumeFile)
    requires WellFormed(f)
    ensures var e := ExtentsOf(PropsOf(f)); e.0 > 0.0 && e.1 > 0.0 && e.2 > 0.0
  {
    var props := PropsOf(f);
    PositiveProduct(props.width as real, props.aspectX);
    PositiveProduct(props.height as real, props.aspectY);
    PositiveProduct(props.depth as real, props.aspectZ);
  }

  lemma PositiveProduct(a: real, b: real)
    requires a >= 1.0 && b > 0.0
    ensures a * b > 0.0
  {
    assert a * b >= 1.0 * b by {
      assert a * b - 1.0 * b == (a - 1.0) * b;
    }
  }

  // ---------------------------------------------------------------------------
  // Histogram
  // ---------------------------------------------------------------------------

  /**
    The bucket of sample `v` exactly as the histogram loop computes it: the
    normalised value's position in [lo, hi], scaled by the bucket count and
    truncated toward zero. Undefined (a division by zero) when lo == hi.
  */
  function BucketIndexAsWritten(v: nat, domain: nat, lo: real, hi: real, buckets: nat): (r: int)
    requires domain >= 1 && lo != hi
    ensures lo < hi && lo <= v as real / domain as real <= hi ==> 0 <= r <= buckets
  {
    var x := v as real / domain as real;
    if lo < hi && lo <= x <= hi then
      AsWrittenBounds(x, lo, hi, buckets);
      Trunc((x - lo) / (hi - lo) * buckets as real)
    else
      Trunc((x - lo) / (hi - lo) * buckets as real)
  }

  /** A value in [lo, hi] scaled to `buckets` and truncated lies in [0, buckets]. */
  lemma AsWrittenBounds(x: real, lo: real, hi: real, buckets: nat)
    requires lo < hi && lo <= x <= hi
    ensures 0 <= Trunc((x - lo) / (hi - lo) * buckets as real) <= buckets
  {
    if x == hi {
      SelfDiv(hi - lo);
      assert (x - lo) / (hi - lo) * buckets as real == buckets as real;
    } else if buckets >= 1 {
      ScaledIndexInRange(x - lo, hi - lo, buckets);
    }
  }

  /**
    The bucket of sample `v`, corrected: the index above clamped into
    [0, buckets), and bucket 0 when the range is empty.
  */
  function BucketIndex(v: nat, domain: nat, lo: real, hi: real, buckets: nat): (b: nat)
    requires domain >= 1 && buckets >= 1
    ensures b < buckets
  {
    if hi <= lo then 0
    else
      var raw := BucketIndexAsWritten(v, domain, lo, hi, buckets);
      if raw < 0 then 0 else if raw >= buckets then buckets - 1 else raw
  }

  /**
    The largest sample lands one bucket past the end: its normalised value is
    `hi`, so the scaled position is exactly `buckets`.
  */
  lemma MaxSampleIndexIsBuckets(v: nat, domain: nat, lo: real, hi: real, buckets: nat)
    requires domain >= 1 && lo < hi && buckets >= 1
    requires v as real / domain as real == hi
    ensures BucketIndexAsWritten(v, domain, lo, hi, buckets) == buckets
  {
    assert (hi - lo) / (hi - lo) == 1.0;
  }

  /** A position in [0, w) scaled to `buckets` and truncated is a bucket. */
  lemma ScaledIndexInRange(a: real, w: real, buckets: nat)
    requires 0.0 <= a < w && buckets >= 1
    ensures 0 <= Trunc(a / w * buckets as real) < buckets
  {
    var t := a / w;
    DivLe(0.0, a, w);
    DivLe(a, w, w);
    SelfDiv(w);
    ScaleBelow(t, buckets as real);
  }

  /** Below the largest value the corrected index is the one the source computes. */
  lemma BucketIndexAgrees(v: nat, domain: nat, lo: real, hi: real, buckets: nat)
    requires domain >= 1 && buckets >= 1 && lo < hi
    requires lo <= v as real / domain as real < hi
    ensures 0 <= BucketIndexAsWritten(v, domain, lo, hi, buckets) < buckets
    ensures BucketIndex(v, domain, lo, hi, buckets) == BucketIndexAsWritten(v, domain, lo, hi, buckets)
  {
    var x := v as real / domain as real;
    ScaledIndexInRange(x - lo, hi - lo, buckets);
  }

  /**
    For a payload whose samples are not all equal, loading and then building
    the histogram with the source's index puts the largest sample in bucket
    `buckets`, one past the histogram's last slot.
  */
  lemma PayloadMaxOverflows(p: seq<bv8>, bc: nat, buckets: nat)
    requires bc >= 1 && buckets >= 1
    requires |SamplesBE(p, bc)| > 0
    requires NormalizedMin(p, bc) < NormalizedMax(p, bc)
    ensures exists j :: (0 <= j < |SamplesLE(SwapBytes(p, bc), bc)| &&
      BucketIndexAsWritten(SamplesLE(SwapBytes(p, bc), bc)[j], Pow256(bc),
        NormalizedMin(p, bc), NormalizedMax(p, bc), buckets) == buckets)
  {
    var xs := SamplesBE(p, bc);
    SamplesLESwap(p, bc);
    NormalizedRange(p, bc);
    var hiV := FoldMax(xs, 0);
    var j :| 0 <= j < |xs| && xs[j] == hiV;
    MaxSampleIndexIsBuckets(xs[j], Pow256(bc), NormalizedMin(p, bc), NormalizedMax(p, bc), buckets);
  }

  /**
    A payload whose samples are all equal has lo == hi, so the source's bucket
    index divides zero by zero.
  */
  lemma ConstantPayloadHasEmptyRange(p: seq<bv8>, bc: nat)
    requires |SamplesBE(p, bc)| > 0
    requires forall j :: 0 <= j < |SamplesBE(p, bc)| ==> SamplesBE(p, bc)[j] == SamplesBE(p, bc)[0]
    ensures NormalizedMin(p, bc) == NormalizedMax(p, bc)
  {
    NormalizedRange(p, bc);
  }

  /** Bucket counts, one per bucket, after counting the samples `xs` in order. */
  function Histogram(xs: seq<nat>, domain: nat, lo: real, hi: real, buckets: nat): (h: seq<int>)
    requires domain >= 1 && buckets >= 1
    ensures |h| == buckets
  {
    if |xs| == 0 then seq(buckets, _ => 0)
    else
      var h := Histogram(xs[..|xs| - 1], domain, lo, hi, buckets);
      var b := BucketIndex(xs[|xs| - 1], domain, lo, hi, buckets);
      h[b := h[b] + 1]
  }

  function Sum(s: seq<int>): int
  {
    if |s| == 0 then 0 else s[0] + Sum(s[1..])
  }

  lemma {:induction false} SumZeros(n: nat)
    ensures Sum(seq(n, _ => 0)) == 0
  {
    if n > 0 {
      assert seq(n, _ => 0)[1..] == seq(n - 1, _ => 0);
      SumZeros(n - 1);
    }
  }

  lemma {:induction false} SumIncrement(s: seq<int>, b: nat)
    requires b < |s|
    ensures Sum(s[b := s[b] + 1]) == Sum(s) + 1
  {
    if b > 0 {
      assert s[b := s[b] + 1][1..] == s[1..][b - 1 := s[b] + 1];
      SumIncrement(s[1..], b - 1);
    }
  }

  /** Every sample is counted in exactly one bucket. */
  lemma {:induction false} HistogramCountsAll(xs: seq<nat>, domain: nat, lo: real, hi: real, buckets: nat)
    requires domain >= 1 && buckets >= 1
    ensures Sum(Histogram(xs, domain, lo, hi, buckets)) == |xs|
  {
    if |xs| == 0 {
      SumZeros(buckets);
    } else {
      HistogramCountsAll(xs[..|xs| - 1], domain, lo, hi, buckets);
      var h := Histogram(xs[..|xs| - 1], domain, lo, hi, buckets);
      SumIncrement(h, BucketIndex(xs[|xs| - 1], domain, lo, hi, buckets));
    }
  }

  // ---------------------------------------------------------------------------
  // Texture upload
  // ---------------------------------------------------------------------------

  /** GL_INVALID_VALUE, returned instead of a texture name on failure. */
  const GL_INVALID_VALUE := 0x0501

  datatype TexelType = UnsignedByte | UnsignedShort | UnsignedInt

  function TexelBytes(t: TexelType): nat
  {
    match t
    case UnsignedByte => 1
    case UnsignedShort => 2
    case UnsignedInt => 4
  }

  /** The texel type for `bc` bytes per sample: single bytes unless `bc` is 2 or 4. */
  function TexelOf(bc: int): (t: TexelType)
    ensures TexelBytes(t) == (if bc in {1, 2, 4} then bc else 1)
  {
    if bc == 2 then UnsignedShort else if bc == 4 then UnsignedInt else UnsignedByte
  }

  /** One glTexImage3D call: the texture name, its size, texel type and bytes. */
  datatype TexUpload = TexUpload(name: int, width: int, height: int, depth: int,
                                 texel: TexelType, bytes: seq<bv8>)

  /**
    The load scan over the payload in `a`: finds the smallest and largest
    sample (first byte most significant, starting from 256^bc and 0) and
    reverses the bytes of every sample in place.
  */
  method ScanAndSwap(a: array<bv8>, bc: nat) returns (minV: nat, maxV: nat)
    requires a.Length == 0 || (bc >= 1 && a.Length % bc == 0)
    modifies a
    ensures a[..] == SwapBytes(old(a[..]), bc)
    ensures minV == FoldMin(SamplesBE(old(a[..]), bc), Pow256(bc))
    ensures maxV == FoldMax(SamplesBE(old(a[..]), bc), 0)
  {
    ghost var p := a[..];
    var domain := Pow256(bc);
    maxV, minV := 0, domain;
    var i := 0;
    ghost var k := 0;
    while i < a.Length
      invariant 0 <= i <= a.Length && (a.Length > 0 ==> i == k * bc)
      invariant a[..i] == SwapBytes(p[..i], bc)
      invariant a[i..] == p[i..]
      invariant minV == FoldMin(SamplesBE(p[..i], bc), domain)
      invariant maxV == FoldMax(SamplesBE(p[..i], bc), 0)
      decreases a.Length - i
    {
      minV, maxV := ScanStep(a, bc, i, minV, maxV, p, k);
      i := i + bc;
      k := k + 1;
    }
    assert p[..i] == p;
    assert a[..] == a[..i];
  }

  /**
    One turn of the load scan: the sample at `i` is read, folded into the
    running extremes and reversed in place.
  */
  method ScanStep(a: array<bv8>, bc: nat, i: nat, minV: nat, maxV: nat, ghost p: seq<bv8>, ghost k: nat)
    returns (minV': nat, maxV': nat)
    requires bc >= 1 && a.Length % bc == 0 && i == k * bc && i < a.Length == |p|
    requires a[..i] == SwapBytes(p[..i], bc) && a[i..] == p[i..]
    requires minV == FoldMin(SamplesBE(p[..i], bc), Pow256(bc)) && maxV == FoldMax(SamplesBE(p[..i], bc), 0)
    modifies a
    ensures i + bc <= a.Length && i + bc == (k + 1) * bc
    ensures a[..i + bc] == SwapBytes(p[..i + bc], bc) && a[i + bc..] == p[i + bc..]
    ensures minV' == FoldMin(SamplesBE(p[..i + bc], bc), Pow256(bc))
    ensures maxV' == FoldMax(SamplesBE(p[..i + bc], bc), 0)
  {
    ChunkFits(i, a.Length, bc, k);
    ghost var before := a[..];
    assert before[i..i + bc] == p[i..i + bc];
    var v := ReadSampleBE(a, i, bc);
    minV', maxV' := minV, maxV;
    if v > maxV' {
      maxV' := v;
    }
    if v < minV' {
      minV' := v;
    }
    ReverseSample(a, i, bc);
    LoadStep(p, before, a[..], i, bc, k);
    FoldStep(SamplesBE(p[..i], bc), v, Pow256(bc));
    FoldStep(SamplesBE(p[..i], bc), v, 0);
  }

  /**
    A fresh histogram of the samples in `a` (last byte most significant) over
    `buckets` buckets, each sample normalised by 256^bc and placed by its
    position in [lo, hi].
  */
  method CountSamples(a: array<bv8>, bc: nat, lo: real, hi: real, buckets: nat) returns (h: array<int>)
    requires a.Length == 0 || (bc >= 1 && a.Length % bc == 0)
    requires buckets >= 1
    ensures fresh(h)
    ensures h[..] == Histogram(SamplesLE(a[..], bc), Pow256(bc), lo, hi, buckets)
  {
    var domain := Pow256(bc);
    h := ZeroCounts(buckets);
    assert h[..] == Histogram([], domain, lo, hi, buckets);

    var i := 0;
    ghost var k := 0;
    while i < a.Length
      invariant 0 <= i <= a.Length && (a.Length > 0 ==> i == k * bc)
      invariant h[..] == Histogram(SamplesLE(a[..i], bc), domain, lo, hi, buckets)
      decreases a.Length - i
    {
      CountStep(a, h, bc, i, k, lo, hi, buckets);
      i := i + bc;
      k := k + 1;
    }
    assert a[..i] == a[..];
  }

  /** One step of CountSamples: counts the sample at `i` into its bucket. */
  method CountStep(a: array<bv8>, h: array<int>, bc: nat, i: nat, ghost k: nat, lo: real, hi: real, buckets: nat)
    requires a as object != h
    requires bc >= 1 && a.Length % bc == 0 && buckets >= 1
    requires i < a.Length && i == k * bc
    requires h[..] == Histogram(SamplesLE(a[..i], bc), Pow256(bc), lo, hi, buckets)
    modifies h
    ensures i + bc <= a.Length && i + bc == (k + 1) * bc
    ensures h[..] == Histogram(SamplesLE(a[..i + bc], bc), Pow256(bc), lo, hi, buckets)
  {
    var domain := Pow256(bc);
    ChunkFits(i, a.Length, bc, k);
    var v := ReadSampleLE(a, i, bc);
    var bucket := BucketIndex(v, domain, lo, hi, buckets);
    HistogramStep(a[..], i, bc, k, domain, lo, hi, buckets);
    ghost var before := h[..];
    ghost var prefix := a[..i + bc];
    assert a[..][i..i + bc] == a[i..i + bc] && a[..][..i + bc] == prefix;
    ghost var want := Histogram(SamplesLE(prefix, bc), domain, lo, hi, buckets);
    assert want == before[bucket := before[bucket] + 1];
    Bump(h, bucket);
    assert a[..i + bc] == prefix;
  }

  /** A fresh table of `buckets` counts, all zero. */
  method ZeroCounts(buckets: nat) returns (h: array<int>)
    ensures fresh(h) && h[..] == seq(buckets, _ => 0)
  {
    h := new int[buckets];
    var z := 0;
    while z < buckets
      invariant 0 <= z <= buckets
      invariant h[..z] == seq(z, _ => 0)
    {
      h[z] := 0;
      z := z + 1;
    }
  }

  /** Counts one more sample in bucket `b`. */
  method Bump(h: array<int>, b: int)
    requires 0 <= b < h.Length
    modifies h
    ensures h[..] == old(h[..])[b := old(h[b]) + 1]
  {
    h[b] := h[b] + 1;
  }

  /** One step of the load scan: the sample at `i` read and reversed. */
  lemma LoadStep(p: seq<bv8>, before: seq<bv8>, after: seq<bv8>, i: nat, bc: nat, k: nat)
    requires bc >= 1 && i == k * bc && i + bc <= |p| == |before| == |after|
    requires before[..i] == SwapBytes(p[..i], bc) && before[i..] == p[i..]
    requires after[..i] == before[..i] && after[i + bc..] == before[i + bc..]
    requires after[i..i + bc] == Reverse(before[i..i + bc])
    ensures i + bc == (k + 1) * bc
    ensures after[..i + bc] == SwapBytes(p[..i + bc], bc) && after[i + bc..] == p[i + bc..]
    ensures SamplesBE(p[..i + bc], bc) == SamplesBE(p[..i], bc) + [ValueBE(p[i..i + bc])]
  {
    assert (k + 1) * bc == k * bc + bc;
    var head, c := p[..i], p[i..i + bc];
    SwapBytesAppend(head, c, bc, k);
    SamplesBEAppend(head, c, bc, k);
    assert head + c == p[..i + bc];
    assert before[i..i + bc] == c by {
      assert before[i..i + bc] == before[i..][..bc];
      assert c == p[i..][..bc];
    }
    assert after[..i + bc] == SwapBytes(head, bc) + Reverse(c) by {
      assert after[..i + bc] == after[..i] + after[i..i + bc];
    }
    assert after[i + bc..] == p[i + bc..] by {
      assert before[i + bc..] == before[i..][bc..];
      assert p[i + bc..] == p[i..][bc..];
    }
  }

  /** One step of the histogram count: the sample at `i` lands in its bucket. */
  lemma HistogramStep(a: seq<bv8>, i: nat, bc: nat, k: nat, domain: nat, lo: real, hi: real, buckets: nat)
    requires bc >= 1 && i == k * bc && i + bc <= |a| && domain >= 1 && buckets >= 1
    ensures i + bc == (k + 1) * bc
    ensures Histogram(SamplesLE(a[..i + bc], bc), domain, lo, hi, buckets) ==
      var h := Histogram(SamplesLE(a[..i], bc), domain, lo, hi, buckets);
      var b := BucketIndex(ValueLE(a[i..i + bc]), domain, lo, hi, buckets);
      h[b := h[b] + 1]
  {
    assert (k + 1) * bc == k * bc + bc;
    var head, c := a[..i], a[i..i + bc];
    SamplesLEAppend(head, c, bc, k);
    assert head + c == a[..i + bc];
    var xs := SamplesLE(a[..i + bc], bc);
    assert xs == SamplesLE(head, bc) + [ValueLE(c)];
    assert xs[..|xs| - 1] == SamplesLE(head, bc) && xs[|xs| - 1] == ValueLE(c);
  }

  /** The sample at `a[i..i+bc]`, first byte most significant. */
  method ReadSampleBE(a: array<bv8>, i: int, bc: int) returns (v: nat)
    requires 0 <= i && 0 <= bc && i + bc <= a.Length
    ensures v == ValueBE(a[i..i + bc])
  {
    v := 0;
    var b := 0;
    while b < bc
      invariant 0 <= b <= bc
      invariant v == ValueBE(a[i..i + b])
    {
      assert a[i..i + b + 1][..b] == a[i..i + b];
      v := v * 256 + a[i + b] as nat;
      b := b + 1;
    }
  }

  /** The sample at `a[i..i+bc]`, last byte most significant. */
  method ReadSampleLE(a: array<bv8>, i: int, bc: int) returns (v: nat)
    requires 0 <= i && 0 <= bc && i + bc <= a.Length
    ensures v == ValueLE(a[i..i + bc])
  {
    v := 0;
    var b := bc - 1;
    while b >= 0
      invariant -1 <= b < bc
      invariant v == ValueLE(a[i + b + 1..i + bc])
    {
      assert a[i + b..i + bc][1..] == a[i + b + 1..i + bc];
      v := v * 256 + a[i + b] as nat;
      b := b - 1;
    }
  }

  /** Reverses the bytes of the sample at `a[i..i+bc]` in place, swapping from both ends. */
  method ReverseSample(a: array<bv8>, i: int, bc: int)
    requires 0 <= i && 0 <= bc && i + bc <= a.Length
    modifies a
    ensures a[..i] == old(a[..i]) && a[i + bc..] == old(a[i + bc..])
    ensures a[i..i + bc] == Reverse(old(a[i..i + bc]))
  {
    var n := 0;
    while n < (bc + 1) / 2
      invariant 0 <= n <= (bc + 1) / 2
      invariant a[..i] == old(a[..i]) && a[i + bc..] == old(a[i + bc..])
      invariant forall j :: i <= j < i + bc ==>
        a[j] == if j < i + n || j >= i + bc - n then old(a[2 * i + bc - 1 - j]) else old(a[j])
    {
      var l, r := i + n, i + bc - 1 - n;
      var tmp := a[l];
      a[l] := a[r];
      a[r] := tmp;
      n := n + 1;
    }
  }

  // ---------------------------------------------------------------------------
  // The dataset object
  // ---------------------------------------------------------------------------

  class VolumeData {
    var ready: bool
    var properties: VolumeDataProps
    var normalizeScale: (real, real, real)
    var data: array<bv8>
    var byteCount: int
    var histogram: array?<int>
    var lastBuckets: int
    var filePath: string
    /** How often dataChanged() was emitted. */
    ghost var dataChangedSignals: nat
    /** The texture uploads made so far, oldest first. */
    ghost var uploads: seq<TexUpload>

    ghost predicate Valid()
      reads this
    {
      byteCount >= 0 &&
      (data.Length == 0 || (byteCount >= 1 && data.Length % byteCount == 0)) &&
      (histogram != null ==> lastBuckets >= 1 && histogram.Length == lastBuckets)
    }

    /** A new dataset is not ready and has no histogram. */
    constructor ()
      ensures Valid()
      ensures !ready && histogram == null && lastBuckets == -1
      ensures data.Length == 0 && filePath == ""
      ensures dataChangedSignals == 0 && uploads == []
    {
      ready := false;
      properties := VolumeDataProps(0, 0, 0, 0.0, 0.0, 0.0, 0.0, 0.0);
      normalizeScale := (1.0, 1.0, 1.0);
      data := new bv8[0];
      byteCount := 0;
      histogram := null;
      lastBuckets := -1;
      filePath := "";
      dataChangedSignals := 0;
      uploads := [];
    }

    /**
      Loads a volume file. `file` is what the file system holds at `path`; a
      missing or unreadable file leaves the dataset as it was.
    */
    method LoadFrom(path: string, file: FileEntry<VolumeFile>)
      requires Valid()
      requires file.Readable? ==> WellFormed(file.contents)
      modifies this
      ensures Valid()
      ensures !file.Readable? ==> unchanged(this)
      ensures file.Readable? ==>
        var f := file.contents;
        var bc := ByteCountOf(f);
        && ready && filePath == path && byteCount == bc
        && data[..] == SwapBytes(f.payload, bc)
        && properties == PropsOf(f)
        && normalizeScale == NormalizeScale(ExtentsOf(properties).0, ExtentsOf(properties).1, ExtentsOf(properties).2)
        && histogram != null && lastBuckets == 256
        && histogram[..] == Histogram(SamplesBE(f.payload, bc), Pow256(bc),
                                      properties.minValue, properties.maxValue, 256)
        && dataChangedSignals == old(dataChangedSignals) + 1
        && uploads == old(uploads)
    {
      if !file.Readable? {
        return;
      }
      var f := file.contents;
      LoadPayload(path, f);
      ghost var swapped := data[..];
      SamplesLESwap(f.payload, byteCount);

      histogram := null;
      var h := CreateHistogram(256);
      assert data[..] == swapped;

      ExtentsPositive(f);
      UpdateScale();
      dataChangedSignals := dataChangedSignals + 1;
    }

    /** Fits the dataset's real extents into the unit cube. */
    method UpdateScale()
      requires var e := ExtentsOf(properties); e.0 > 0.0 && e.1 > 0.0 && e.2 > 0.0
      modifies this`normalizeScale
      ensures normalizeScale == NormalizeScale(ExtentsOf(properties).0, ExtentsOf(properties).1, ExtentsOf(properties).2)
    {
      var e := ExtentsOf(properties);
      normalizeScale := NormalizeScale(e.0, e.1, e.2);
    }

    /**
      The first half of loading: takes the file's header and payload, swaps
      every sample from big- to little-endian in place while finding the
      extreme samples, and marks the dataset ready.
    */
    method LoadPayload(path: string, f: VolumeFile)
      requires WellFormed(f)
      modifies this`filePath, this`data, this`byteCount, this`properties, this`ready
      ensures ready && filePath == path && byteCount == ByteCountOf(f)
      ensures byteCount >= 0 && (data.Length == 0 || (byteCount >= 1 && data.Length % byteCount == 0))
      ensures fresh(data) && data[..] == SwapBytes(f.payload, byteCount)
      ensures properties == PropsOf(f)
    {
      filePath := path;
      var p := f.payload;
      var bc := ByteCountOf(f);
      data := new bv8[|p|](j requires 0 <= j < |p| => p[j]);
      byteCount := bc;
      properties := VolumeDataProps(f.resX, f.resY, f.resZ, f.aspectX, f.aspectY, f.aspectZ, 0.0, 0.0);

      assert data[..] == p;
      var domain := Pow256(bc);
      var minV, maxV := ScanAndSwap(data, bc);

      properties := properties.(minValue := minV as real / domain as real,
                                maxValue := maxV as real / domain as real);
      assert properties == PropsOf(f);
      ready := true;
    }

    /**
      The histogram of the current samples over `buckets` buckets. When a
      histogram with the same bucket count exists it is returned as it is;
      otherwise a fresh one is counted and remembered.
    */
    method CreateHistogram(buckets: int) returns (h: array<int>)
      requires Valid() && buckets >= 1
      modifies this`histogram, this`lastBuckets
      ensures Valid()
      ensures old(histogram) != null && old(lastBuckets) == buckets ==>
        h == old(histogram) && histogram == old(histogram) && lastBuckets == old(lastBuckets)
      ensures !(old(histogram) != null && old(lastBuckets) == buckets) ==>
        fresh(h) && histogram == h && lastBuckets == buckets &&
        h[..] == Histogram(SamplesLE(data[..], byteCount), Pow256(byteCount),
                           properties.minValue, properties.maxValue, buckets)
    {
      if histogram != null && lastBuckets == buckets {
        return histogram;
      }
      h := CountSamples(data, byteCount, properties.minValue, properties.maxValue, buckets);
      histogram := h;
      lastBuckets := buckets;
    }

    /**
      Uploads the samples as a 3D texture named `genName` (the name the driver
      hands out) and returns that name, or GL_INVALID_VALUE when no dataset is
      loaded. The texel type follows the bytes per sample; a count other than
      1, 2 or 4 falls back to single bytes and sets the byte count to 1.
    */
    method CreateTexture(genName: int) returns (name: int)
      requires Valid()
      modifies this`byteCount, this`uploads
      ensures Valid()
      ensures !old(ready) ==> name == GL_INVALID_VALUE && unchanged(this)
      ensures old(ready) ==>
        name == genName &&
        byteCount == (if old(byteCount) in {1, 2, 4} then old(byteCount) else 1) &&
        |uploads| == |old(uploads)| + 1 && uploads[..|old(uploads)|] == old(uploads) &&
        var u := uploads[|uploads| - 1];
        u.name == genName && TexelBytes(u.texel) == byteCount && u.bytes == data[..] &&
        u.width == properties.width && u.height == properties.height && u.depth == properties.depth
      ensures old(ready) ==>
        uploads == old(uploads) + [TexUpload(genName, properties.width, properties.height, properties.depth,
                                             TexelOf(old(byteCount)), data[..])]
    {
      if !ready {
        return GL_INVALID_VALUE;
      }
      var texel;
      if byteCount == 1 {
        texel := UnsignedByte;
      } else if byteCount == 2 {
        texel := UnsignedShort;
      } else if byteCount == 4 {
        texel := UnsignedInt;
      } else {
        texel := UnsignedByte;
        byteCount := 1;
      }
      uploads := uploads + [TexUpload(genName, properties.width, properties.height, properties.depth, texel, data[..])];
      name := genName;
    }
  }
}
