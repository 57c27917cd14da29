/**
  The transfer-function editor (class TransFuncCanvas): a 256 x 256 widget on
  which a mouse stroke from the previous pointer position to the current one
  paints a straight ramp into the table entries between the two columns,
  overwriting only the channels the user has marked as affected.
*/
module TfCanvas {
  import opened Colors
  import opened CNum
  import opened TransFunc
  import Volume

  const WIDTH := 256
  const HEIGHT := 256

  /** The table entry under pixel column `x`: `x * size / WIDTH`, truncated as in C++. */
  function Column(x: int, size: int): int
  {
    CDiv(x * size, WIDTH)
  }

  /** The value a pointer at pixel row `y` stands for: 1 at the top, 0 at the bottom. */
  function Level(y: int): (v: real)
    ensures 0 <= y <= HEIGHT ==> 0.0 <= v <= 1.0
    ensures v == 1.0 <==> y == 0
  {
    1.0 - y as real / HEIGHT as real
  }

  /** The entries a stroke covers and the values at its two ends. */
  datatype Span = Span(start: int, end: int, vL: real, vR: real)

  /**
    The span of a stroke from the pointer at (px, py) to the pointer at (x, y):
    its left end is whichever column lies further left, and each end carries
    the level of the pointer in that column. When both pointers fall into one
    column, the previous pointer's level wins.
  */
  function SpanOf(px: int, py: int, x: int, y: int, size: int): (s: Span)
    ensures s.start <= s.end
    ensures Column(px, size) != Column(x, size) ==>
      (s.start == Column(px, size) && s.vL == Level(py) && s.end == Column(x, size) && s.vR == Level(y)) ||
      (s.start == Column(x, size) && s.vL == Level(y) && s.end == Column(px, size) && s.vR == Level(py))
    ensures Column(px, size) == Column(x, size) ==> s.start == s.end == Column(x, size) && s.vL == Level(py)
  {
    var start, end := Column(px, size), Column(x, size);
    if end < start then Span(end, start, Level(y), Level(py))
    else Span(start, end, Level(py), Level(y))
  }

  /** A stroke between two pointers in different columns does not depend on its direction. */
  lemma SpanSymmetric(px: int, py: int, x: int, y: int, size: int)
    requires Column(px, size) != Column(x, size)
    ensures SpanOf(px, py, x, y, size) == SpanOf(x, y, px, py, size)
  {
  }

  /**
    The value painted at entry `i` of span `s`: `vL` weighted by the distance
    to the right and `vR` by the distance from the start, over a width of
    `end - start + 1` entries.
  */
  function Interp(s: Span, i: int): real
    requires s.start <= i <= s.end
  {
    var w := (s.end - s.start + 1) as real;
    var f := (i - s.start) as real;
    s.vL * (1.0 - f / w) + s.vR * f / w
  }

  function Min(a: real, b: real): real { if a <= b then a else b }

  function Max(a: real, b: real): real { if a <= b then b else a }

  /** The first entry of a span gets exactly the level of its left end. */
  lemma InterpAtStart(s: Span)
    requires s.start <= s.end
    ensures Interp(s, s.start) == s.vL
  {
    var w := (s.end - s.start + 1) as real;
    assert 0.0 / w == 0.0;
  }

  /** Every painted value lies between the levels of the two ends. */
  lemma InterpBetween(s: Span, i: int)
    requires s.start <= i <= s.end
    ensures Min(s.vL, s.vR) <= Interp(s, i) <= Max(s.vL, s.vR)
  {
    var w := (s.end - s.start + 1) as real;
    var f := (i - s.start) as real;
    var t := f / w;
    FractionInUnit(f, w);
    LerpForm(s.vL, s.vR, f, w);
    assert Interp(s, i) == s.vL + (s.vR - s.vL) * t;
    LerpBetween(s.vL, s.vR, t);
  }

  /** The last entry of a span falls short of `vR` by one step of the ramp. */
  lemma InterpAtEnd(s: Span)
    requires s.start <= s.end
    ensures Interp(s, s.end) == s.vR + (s.vL - s.vR) / (s.end - s.start + 1) as real
  {
    var w := (s.end - s.start + 1) as real;
    assert (s.end - s.start) as real == w - 1.0;
    LerpEnd(s.vL, s.vR, w);
  }

  /** A position in [0, w) over the width `w` is a fraction in [0, 1]. */
  lemma FractionInUnit(f: real, w: real)
    requires 0.0 <= f < w
    ensures 0.0 <= f / w <= 1.0
  {
    DivLe(0.0, f, w);
    DivLe(f, w, w);
    SelfDiv(w);
  }

  /** The ramp's formula as a start value plus a fraction of the rise. */
  lemma LerpForm(a: real, b: real, f: real, w: real)
    requires w > 0.0
    ensures a * (1.0 - f / w) + b * f / w == a + (b - a) * (f / w)
  {
    var t := f / w;
    assert b * f / w == b * t;
  }

  /** A fraction in [0, 1] of the way from `a` to `b` lies between them. */
  lemma LerpBetween(a: real, b: real, t: real)
    requires 0.0 <= t <= 1.0
    ensures Min(a, b) <= a + (b - a) * t <= Max(a, b)
  {
    if a <= b {
      assert Min(a, b) == a && Max(a, b) == b;
    } else {
      assert Min(a, b) == b && Max(a, b) == a;
    }
  }

  /** The last entry of a ramp `w` entries wide. */
  lemma LerpEnd(a: real, b: real, w: real)
    requires w > 0.0
    ensures a * (1.0 - (w - 1.0) / w) + b * (w - 1.0) / w == b + (a - b) / w
  {
    assert (w - 1.0) / w == 1.0 - 1.0 / w;
    assert b * (w - 1.0) / w == b - b / w;
    assert a * (1.0 - (w - 1.0) / w) == a / w;
  }

  /** A rising stroke paints a non-decreasing ramp. */
  lemma InterpMonotone(s: Span, i: int, j: int)
    requires s.start <= i <= j <= s.end && s.vL <= s.vR
    ensures Interp(s, i) <= Interp(s, j)
  {
    var w := (s.end - s.start + 1) as real;
    var fi, fj := (i - s.start) as real, (j - s.start) as real;
    DivLe(fi, fj, w);
    assert Interp(s, i) == s.vL + (s.vR - s.vL) * (fi / w);
    assert Interp(s, j) == s.vL + (s.vR - s.vL) * (fj / w);
  }

  /** The painted value, clamped to [0, 1] as the editor does before storing it. */
  function PaintValue(s: Span, i: int): real
    requires s.start <= i <= s.end
  {
    ClampReal(Interp(s, i), 0.0, 1.0)
  }

  /** A grey colour whose four channels all hold `v`. */
  function Grey(v: Channel): Color { Color(v, v, v, v) }

  /** Entry `c` after the stroke passed over it at index `i`. */
  function PaintedAt(c: Color, s: Span, i: int, m: Mask): Color
    requires s.start <= i <= s.end
  {
    Overwrite(c, Grey(FromF(PaintValue(s, i))), m)
  }

  /** The table after a stroke: entries of the span repainted, the rest as they were. */
  function Stroke(cs: seq<Color>, s: Span, m: Mask): seq<Color>
  {
    seq(|cs|, j requires 0 <= j < |cs| => if s.start <= j <= s.end then PaintedAt(cs[j], s, j, m) else cs[j])
  }

  /**
    What a stroke does to each entry: outside the span nothing changes; inside,
    every affected channel holds the rounded ramp value, which lies between
    the two end levels, and every other channel keeps its value.
  */
  lemma StrokeEntries(cs: seq<Color>, s: Span, m: Mask, j: int, k: int)
    requires 0 <= j < |cs| && 0 <= k < 4
    ensures |Stroke(cs, s, m)| == |cs|
    ensures !(s.start <= j <= s.end) ==> Stroke(cs, s, m)[j] == cs[j]
    ensures s.start <= j <= s.end && !Selects(m, k) ==> ChannelOf(Stroke(cs, s, m)[j], k) == ChannelOf(cs[j], k)
    ensures s.start <= j <= s.end && Selects(m, k) ==>
      ChannelOf(Stroke(cs, s, m)[j], k) == FromF(PaintValue(s, j)) &&
      ClampReal(Min(s.vL, s.vR), 0.0, 1.0) <= PaintValue(s, j) <= ClampReal(Max(s.vL, s.vR), 0.0, 1.0)
  {
    if s.start <= j <= s.end {
      InterpBetween(s, j);
      var r := Stroke(cs, s, m)[j];
      assert r == Overwrite(cs[j], Grey(FromF(PaintValue(s, j))), m);
    }
  }

  /** Repeating a stroke changes nothing more: the painted values do not depend on the table. */
  lemma StrokeIdempotent(cs: seq<Color>, s: Span, m: Mask)
    ensures Stroke(Stroke(cs, s, m), s, m) == Stroke(cs, s, m)
  {
    var once := Stroke(cs, s, m);
    var twice := Stroke(once, s, m);
    forall j | 0 <= j < |cs|
      ensures twice[j] == once[j]
    {
      if s.start <= j <= s.end {
        var g := Grey(FromF(PaintValue(s, j)));
        assert once[j] == Overwrite(cs[j], g, m);
        assert twice[j] == Overwrite(once[j], g, m);
      }
    }
  }

  /** The table part-way through a stroke: entries from `lo` up to `i` painted, the rest as they were. */
  function PaintedUpTo(cs: seq<Color>, target: seq<Color>, lo: int, i: int): (r: seq<Color>)
    requires |target| == |cs|
    ensures |r| == |cs|
  {
    seq(|cs|, j requires 0 <= j < |cs| => if lo <= j < i then target[j] else cs[j])
  }

  /**
    The signals a stroke over entries `lo..hi` emits, entry by entry from the
    left: one edit per entry inside the table, with ChangedAlpha when the
    entry's opacity differs between `before` and `after`.
  */
  function StrokeSignals(before: seq<Color>, after: seq<Color>, lo: int, hi: int): seq<TfSignal>
    requires |before| == |after|
    decreases hi - lo
  {
    if hi < lo then []
    else
      StrokeSignals(before, after, lo, hi - 1) +
      (if 0 <= hi < |before| then EditSignals(before[hi].alpha != after[hi].alpha) else [])
  }

  /** One more entry inside the table adds its edit signals at the end. */
  lemma SignalsStep(before: seq<Color>, after: seq<Color>, lo: int, i: int)
    requires |before| == |after| && lo <= i && 0 <= i < |before|
    ensures StrokeSignals(before, after, lo, i) ==
      StrokeSignals(before, after, lo, i - 1) + EditSignals(before[i].alpha != after[i].alpha)
  {
  }

  /**
    A stroke reports an opacity change exactly when some entry it covers
    inside the table changed its opacity.
  */
  lemma {:induction false} StrokeSignalsAlpha(before: seq<Color>, after: seq<Color>, lo: int, hi: int)
    requires |before| == |after|
    ensures ChangedAlpha in StrokeSignals(before, after, lo, hi) <==>
      exists j :: lo <= j <= hi && 0 <= j < |before| && before[j].alpha != after[j].alpha
    decreases hi - lo
  {
    if hi >= lo {
      StrokeSignalsAlpha(before, after, lo, hi - 1);
      var tail := if 0 <= hi < |before| then EditSignals(before[hi].alpha != after[hi].alpha) else [];
      assert StrokeSignals(before, after, lo, hi) == StrokeSignals(before, after, lo, hi - 1) + tail;
      if exists j :: lo <= j <= hi && 0 <= j < |before| && before[j].alpha != after[j].alpha {
        var j :| lo <= j <= hi && 0 <= j < |before| && before[j].alpha != after[j].alpha;
        if j < hi {
          assert ChangedAlpha in StrokeSignals(before, after, lo, hi - 1);
        } else {
          assert ChangedAlpha in tail;
        }
      }
    }
  }

  class TransFuncCanvas {
    var red: bool
    var green: bool
    var blue: bool
    var alpha: bool
    /** The pointer position of the previous mouse event. */
    var prevX: int
    var prevY: int
    var tf: TransferFunction?
    var volume: Volume.VolumeData?

    /** The channels a stroke overwrites. */
    function Affected(): Mask
      reads this
    {
      Mask(red, green, blue, alpha)
    }

    /** No channel affected, no table attached, the pointer at the origin. */
    constructor ()
      ensures Affected() == Mask(false, false, false, false)
      ensures tf == null && volume == null && prevX == 0 && prevY == 0
    {
      red, green, blue, alpha := false, false, false, false;
      prevX, prevY := 0, 0;
      tf, volume := null, null;
    }

    method SetAffected(r: bool, g: bool, b: bool, a: bool)
      modifies this`red, this`green, this`blue, this`alpha
      ensures Affected() == Mask(r, g, b, a)
    {
      red, green, blue, alpha := r, g, b, a;
    }

    /** Attaches the table to edit and the volume whose histogram backs the drawing. */
    method PaintTf(t: TransferFunction?, v: Volume.VolumeData?)
      modifies this`tf, this`volume
      ensures tf == t && volume == v
    {
      tf, volume := t, v;
    }

    /**
      Paints the stroke from the previous pointer to (x, y) into the table and
      remembers (x, y) as the previous pointer. The table must be attached.
    */
    method ChangeTf(x: int, y: int)
      requires tf != null && tf.Valid()
      modifies this`prevX, this`prevY, tf.colors, tf`signals
      ensures tf.Valid()
      ensures var s := SpanOf(old(prevX), old(prevY), x, y, tf.size);
        tf.colors[..] == Stroke(old(tf.colors[..]), s, Affected()) &&
        tf.signals == old(tf.signals) + StrokeSignals(old(tf.colors[..]), tf.colors[..], s.start, s.end)
      ensures prevX == x && prevY == y
    {
      var s := SpanOf(prevX, prevY, x, y, tf.size);
      ghost var cs := tf.colors[..];
      ghost var target := Stroke(cs, s, Affected());
      ghost var signals0 := tf.signals;
      var i := s.start;
      while i <= s.end
        invariant s.start <= i <= s.end + 1
        invariant tf.Valid() && |target| == |cs| == tf.size
        invariant tf.colors[..] == PaintedUpTo(cs, target, s.start, i)
        invariant tf.signals == signals0 + StrokeSignals(cs, target, s.start, i - 1)
      {
        PaintStep(s, i, cs, target, signals0);
        i := i + 1;
      }
      assert PaintedUpTo(cs, target, s.start, i) == target;
      prevX, prevY := x, y;
    }

    /**
      One turn of the stroke loop: entry `i` of the span is skipped when it
      lies outside the table and repainted otherwise.
    */
    method PaintStep(s: Span, i: int, ghost cs: seq<Color>, ghost target: seq<Color>, ghost signals0: seq<TfSignal>)
      requires tf != null && tf.Valid() && |cs| == tf.size && s.start <= i <= s.end
      requires target == Stroke(cs, s, Affected())
      requires tf.colors[..] == PaintedUpTo(cs, target, s.start, i)
      requires tf.signals == signals0 + StrokeSignals(cs, target, s.start, i - 1)
      modifies tf.colors, tf`signals
      ensures tf.Valid()
      ensures tf.colors[..] == PaintedUpTo(cs, target, s.start, i + 1)
      ensures tf.signals == signals0 + StrokeSignals(cs, target, s.start, i)
    {
      if i < 0 || i >= tf.size {
        assert PaintedUpTo(cs, target, s.start, i + 1) == PaintedUpTo(cs, target, s.start, i);
        return;
      }
      ghost var sig := tf.signals;
      PaintEntry(s, i);
      ghost var e := EditSignals(cs[i].alpha != target[i].alpha);
      assert tf.signals == sig + e;
      SignalsStep(cs, target, s.start, i);
      assert signals0 + StrokeSignals(cs, target, s.start, i) == signals0 + StrokeSignals(cs, target, s.start, i - 1) + e;
      assert PaintedUpTo(cs, target, s.start, i + 1) == PaintedUpTo(cs, target, s.start, i)[i := target[i]];
    }

    /** Repaints the selected channels of entry `i`, which lies in the span and in the table. */
    method PaintEntry(s: Span, i: int)
      requires tf != null && tf.Valid() && s.start <= i <= s.end && 0 <= i < tf.size
      modifies tf.colors, tf`signals
      ensures tf.Valid()
      ensures var c := PaintedAt(old(tf.colors[i]), s, i, Affected());
        tf.colors[..] == old(tf.colors[..])[i := c] &&
        tf.signals == old(tf.signals) + EditSignals(old(tf.colors[i]).alpha != c.alpha)
    {
      var v := PaintValue(s, i);
      var c := tf.Get(i);
      if red {
        c := c.(red := FromF(v));
      }
      if green {
        c := c.(green := FromF(v));
      }
      if blue {
        c := c.(blue := FromF(v));
      }
      if alpha {
        c := c.(alpha := FromF(v));
      }
      tf.Set(i, c);
    }
  }
}
