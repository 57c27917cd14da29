/**
  The transfer function (class TransferFunction): a table of `size` RGBA
  colours indexed by intensity. Edits notify listeners with
  transFuncChanged() and, when an opacity may have changed, with
  transFuncChangedAlpha(); both are recorded in the ghost log `signals`.
*/
module TransFunc {
  import opened Colors
  import opened CNum
  import opened DataStream

  datatype TfSignal = Changed | ChangedAlpha

  /** The signals an edit emits: always Changed, then ChangedAlpha iff `alpha`. */
  function EditSignals(alpha: bool): (r: seq<TfSignal>)
    ensures |r| >= 1 && r[0] == Changed
    ensures ChangedAlpha in r <==> alpha
  {
    if alpha then [Changed, ChangedAlpha] else [Changed]
  }

  /** The table slot of intensity `t` in [0, 1]: `t * (size - 1)` truncated. */
  function IntensityIndex(t: real, size: int): (id: int)
    requires 0.0 <= t <= 1.0
    ensures size >= 1 ==> 0 <= id < size
  {
    if size >= 1 then
      TruncFraction(t, size - 1);
      Trunc(t * (size - 1) as real)
    else Trunc(t * (size - 1) as real)
  }

  // ---------------------------------------------------------------------------
  // Preset ramps
  // ---------------------------------------------------------------------------

  /** The ramp value of entry `i` of `size`: i * 255 / size, which stays below 255. */
  function Ramp(i: int, size: int): (v: Channel)
    requires 0 <= i < size
    ensures v < 255
  {
    RampBound(i, size);
    i * 255 / size
  }

  lemma RampBound(i: int, size: int)
    requires 0 <= i < size
    ensures 0 <= i * 255 / size < 255
  {
    MulLe(i + 1, size, 255);
    var q := i * 255 / size;
    if q >= 255 {
      MulLe(255, q, size);
      assert false;
    }
  }

  /**
    The preset colour of entry `i`: kind 1 is a grey ramp with constant
    opacity 20, kind 2 a hue ramp (`hsv(h)` stands for the fully saturated,
    fully bright colour of hue h) with a ramped opacity, and every other kind
    a grey ramp whose opacity follows the grey value.
  */
  function DefaultColor(kind: int, i: int, size: int, hsv: int -> Color): Color
    requires 0 <= i < size
  {
    var v := Ramp(i, size);
    if kind == 1 then Color(v, v, v, 20)
    else if kind == 2 then Color(hsv(v).red, hsv(v).green, hsv(v).blue, v)
    else Color(v, v, v, v)
  }

  /** The table after preset `kind` is written over the channels `m` selects. */
  function DefaultColors(cs: seq<Color>, kind: int, hsv: int -> Color, m: Mask): (r: seq<Color>)
    ensures |r| == |cs|
  {
    seq(|cs|, i requires 0 <= i < |cs| => Overwrite(cs[i], DefaultColor(kind, i, |cs|, hsv), m))
  }

  /** The default ramp starts fully transparent, never decreases and never reaches opaque. */
  lemma DefaultRamp(i: int, j: int, size: int, hsv: int -> Color)
    requires 0 <= i <= j < size
    ensures DefaultColor(0, 0, size, hsv).alpha == 0
    ensures DefaultColor(0, i, size, hsv).alpha <= DefaultColor(0, j, size, hsv).alpha < 255
    ensures DefaultColor(2, i, size, hsv).alpha <= DefaultColor(2, j, size, hsv).alpha < 255
  {
    DivMonotone(i * 255, j * 255, size);
  }

  // ---------------------------------------------------------------------------
  // Smoothing
  // ---------------------------------------------------------------------------

  /** The weights w(i, 0) + ... + w(i, n-1). */
  function WeightSum(i: int, n: nat, weight: (int, int) -> real): real
  {
    if n == 0 then 0.0 else WeightSum(i, n - 1, weight) + weight(i, n - 1)
  }

  /** Channel `k` of the first `n` entries as reals, weighted by w(i, j). */
  function WeightedSum(cs: seq<Color>, k: int, i: int, n: nat, weight: (int, int) -> real): real
    requires 0 <= k < 4 && n <= |cs|
  {
    if n == 0 then 0.0
    else WeightedSum(cs, k, i, n - 1, weight) + ChannelF(ChannelOf(cs[n - 1], k)) * weight(i, n - 1)
  }

  /** With positive weights, a weighted sum of values in [0, 1] lies between 0 and the weights' sum. */
  lemma {:induction false} WeightedSumBounds(cs: seq<Color>, k: int, i: int, n: nat, weight: (int, int) -> real)
    requires 0 <= k < 4 && n <= |cs|
    requires forall a, b :: weight(a, b) > 0.0
    ensures 0.0 <= WeightedSum(cs, k, i, n, weight) <= WeightSum(i, n, weight)
  {
    if n > 0 {
      WeightedSumBounds(cs, k, i, n - 1, weight);
      AddWeighted(WeightedSum(cs, k, i, n - 1, weight), WeightSum(i, n - 1, weight),
        ChannelF(ChannelOf(cs[n - 1], k)), weight(i, n - 1));
    }
  }

  /** Adding a value in [0, 1] times a positive weight to a bounded sum. */
  lemma AddWeighted(x: real, xMax: real, f: real, w: real)
    requires 0.0 <= x <= xMax && 0.0 <= f <= 1.0 && w > 0.0
    ensures 0.0 <= x + f * w <= xMax + w
  {
    FractionOf(f, w);
  }

  /** The weighted mean of channel `k` around entry `i`: a value in [0, 1]. */
  function SmoothedF(cs: seq<Color>, k: int, i: int, weight: (int, int) -> real): (m: real)
    requires 0 <= k < 4 && |cs| >= 1
    requires forall a, b :: weight(a, b) > 0.0
    ensures 0.0 <= m <= 1.0
  {
    var s, w := WeightedSum(cs, k, i, |cs|, weight), WeightSum(i, |cs|, weight);
    WeightedSumBounds(cs, k, i, |cs|, weight);
    assert w >= weight(i, |cs| - 1) > 0.0 by { WeightSumPositive(i, |cs|, weight); }
    DivLe(0.0, s, w);
    DivLe(s, w, w);
    SelfDiv(w);
    s / w
  }

  lemma {:induction false} WeightSumPositive(i: int, n: nat, weight: (int, int) -> real)
    requires n >= 1
    requires forall a, b :: weight(a, b) > 0.0
    ensures WeightSum(i, n, weight) >= weight(i, n - 1)
  {
    if n > 1 {
      WeightSumPositive(i, n - 1, weight);
    }
  }

  /** Entry `i` after smoothing: the selected channels replaced by their weighted means. */
  function SmoothedColor(cs: seq<Color>, i: int, weight: (int, int) -> real, m: Mask): Color
    requires 0 <= i < |cs|
    requires forall a, b :: weight(a, b) > 0.0
  {
    var mean := Color(FromF(SmoothedF(cs, 0, i, weight)), FromF(SmoothedF(cs, 1, i, weight)),
                      FromF(SmoothedF(cs, 2, i, weight)), FromF(SmoothedF(cs, 3, i, weight)));
    Overwrite(cs[i], mean, m)
  }

  /** The table after smoothing every entry. */
  function SmoothedColors(cs: seq<Color>, weight: (int, int) -> real, m: Mask): (r: seq<Color>)
    requires forall a, b :: weight(a, b) > 0.0
    ensures |r| == |cs|
  {
    seq(|cs|, i requires 0 <= i < |cs| => SmoothedColor(cs, i, weight, m))
  }

  /** A channel equal to `c` in every entry sums to `c` times the weights. */
  lemma {:induction false} WeightedSumConstant(cs: seq<Color>, k: int, c: Channel, i: int, n: nat, weight: (int, int) -> real)
    requires 0 <= k < 4 && n <= |cs|
    requires forall a, b :: weight(a, b) > 0.0
    requires forall j :: 0 <= j < |cs| ==> ChannelOf(cs[j], k) == c
    ensures WeightedSum(cs, k, i, n, weight) == ChannelF(c) * WeightSum(i, n, weight)
  {
    if n > 0 {
      WeightedSumConstant(cs, k, c, i, n - 1, weight);
    }
  }

  /** The weighted mean of a channel that is `c` in every entry is `c` itself. */
  lemma SmoothedFConstant(cs: seq<Color>, k: int, c: Channel, i: int, weight: (int, int) -> real)
    requires 0 <= k < 4 && 0 <= i < |cs|
    requires forall a, b :: weight(a, b) > 0.0
    requires forall j :: 0 <= j < |cs| ==> ChannelOf(cs[j], k) == c
    ensures SmoothedF(cs, k, i, weight) == ChannelF(c)
  {
    WeightedSumConstant(cs, k, c, i, |cs|, weight);
    WeightSumPositive(i, |cs|, weight);
    MulDivCancel(ChannelF(c), WeightSum(i, |cs|, weight));
  }

  /** Smoothing keeps a channel that is the same in every entry. */
  lemma SmoothKeepsConstantChannel(cs: seq<Color>, k: int, c: Channel, i: int, weight: (int, int) -> real)
    requires 0 <= k < 4 && 0 <= i < |cs|
    requires forall a, b :: weight(a, b) > 0.0
    requires forall j :: 0 <= j < |cs| ==> ChannelOf(cs[j], k) == c
    ensures FromF(SmoothedF(cs, k, i, weight)) == c
  {
    SmoothedFConstant(cs, k, c, i, weight);
    FromFChannelF(c);
  }

  // ---------------------------------------------------------------------------
  // Serialisation
  // ---------------------------------------------------------------------------

  /** What saving a table writes: its size, then its colours in index order. */
  function TfTokens(cs: seq<Color>): (r: seq<Token>)
    ensures |r| == |cs| + 1
  {
    [IntTok(|cs|)] + seq(|cs|, i requires 0 <= i < |cs| => ColorTok(cs[i]))
  }

  /** The `n` colours read from `s` starting at `pos`. */
  function ReadColors(s: seq<Token>, pos: nat, n: nat): seq<Color>
  {
    seq(n, i requires 0 <= i < n => ReadColor(s, pos + i).0)
  }

  /** Loading reads back what saving wrote, wherever it sits in the stream. */
  lemma TfRoundTrip(before: seq<Token>, cs: seq<Color>, after: seq<Token>)
    ensures var s := before + TfTokens(cs) + after;
      ReadInt(s, |before|).0 == |cs| &&
      ReadColors(s, |before| + 1, |cs|) == cs
  {
    var s := before + TfTokens(cs) + after;
    assert s[|before|] == IntTok(|cs|);
    forall i | 0 <= i < |cs|
      ensures ReadColors(s, |before| + 1, |cs|)[i] == cs[i]
    {
      assert s[|before| + 1 + i] == TfTokens(cs)[1 + i] == ColorTok(cs[i]);
      assert ReadColors(s, |before| + 1, |cs|)[i] == ReadColor(s, |before| + 1 + i).0;
    }
  }

  lemma WeighStep(cs: seq<Color>, i: int, j: nat, weight: (int, int) -> real)
    requires j < |cs|
    requires forall x, y :: weight(x, y) > 0.0
    ensures WeightedSum(cs, 0, i, j + 1, weight) == WeightedSum(cs, 0, i, j, weight) + ChannelF(cs[j].red) * weight(i, j)
    ensures WeightedSum(cs, 1, i, j + 1, weight) == WeightedSum(cs, 1, i, j, weight) + ChannelF(cs[j].green) * weight(i, j)
    ensures WeightedSum(cs, 2, i, j + 1, weight) == WeightedSum(cs, 2, i, j, weight) + ChannelF(cs[j].blue) * weight(i, j)
    ensures WeightedSum(cs, 3, i, j + 1, weight) == WeightedSum(cs, 3, i, j, weight) + ChannelF(cs[j].alpha) * weight(i, j)
    ensures WeightSum(i, j + 1, weight) == WeightSum(i, j, weight) + weight(i, j)
  {
  }

  /**
    The four channel sums of the table weighted by w(i, j), and the sum of
    the weights, over all entries j.
  */
  method WeighAll(colors: array<Color>, i: int, weight: (int, int) -> real)
    returns (r: real, g: real, b: real, a: real, wSum: real)
    requires forall x, y :: weight(x, y) > 0.0
    ensures r == WeightedSum(colors[..], 0, i, colors.Length, weight)
    ensures g == WeightedSum(colors[..], 1, i, colors.Length, weight)
    ensures b == WeightedSum(colors[..], 2, i, colors.Length, weight)
    ensures a == WeightedSum(colors[..], 3, i, colors.Length, weight)
    ensures wSum == WeightSum(i, colors.Length, weight)
  {
    ghost var cs := colors[..];
    r, g, b, a, wSum := 0.0, 0.0, 0.0, 0.0, 0.0;
    var j := 0;
    while j < colors.Length
      invariant 0 <= j <= colors.Length
      invariant r == WeightedSum(cs, 0, i, j, weight) && g == WeightedSum(cs, 1, i, j, weight)
      invariant b == WeightedSum(cs, 2, i, j, weight) && a == WeightedSum(cs, 3, i, j, weight)
      invariant wSum == WeightSum(i, j, weight)
    {
      var w := weight(i, j);
      WeighStep(cs, i, j, weight);
      r := r + ChannelF(colors[j].red) * w;
      g := g + ChannelF(colors[j].green) * w;
      b := b + ChannelF(colors[j].blue) * w;
      a := a + ChannelF(colors[j].alpha) * w;
      wSum := wSum + w;
      j := j + 1;
    }
  }

  // ---------------------------------------------------------------------------
  // The table object
  // ---------------------------------------------------------------------------

  class TransferFunction {
    var size: int
    var colors: array<Color>
    /** The signals emitted so far, oldest first. */
    ghost var signals: seq<TfSignal>

    ghost predicate Valid()
      reads this
    {
      colors.Length == size
    }

    /** A table of 256 entries holding the default grey ramp. */
    constructor ()
      ensures Valid() && size == 256 && fresh(colors)
      ensures colors[..] == DefaultColors(seq(256, _ => InvalidColor), 0, NoHue, AllChannels)
      ensures signals == EditSignals(true)
    {
      size := 256;
      colors := new Color[256](_ => InvalidColor);
      signals := [];
      new;
      DefaultTf(0, NoHue, AllChannels);
    }

    /** A table of `n` entries holding the default grey ramp. */
    constructor Sized(n: int)
      requires n >= 0
      ensures Valid() && size == n && fresh(colors)
      ensures colors[..] == DefaultColors(seq(n, _ => InvalidColor), 0, NoHue, AllChannels)
      ensures signals == EditSignals(true)
    {
      size := n;
      colors := new Color[n](_ => InvalidColor);
      signals := [];
      new;
      DefaultTf(0, NoHue, AllChannels);
    }

    /** The colour at `id`, or the invalid colour when `id` is outside the table. */
    method Get(id: int) returns (c: Color)
      requires Valid()
      ensures 0 <= id < size ==> c == colors[id]
      ensures !(0 <= id < size) ==> c == InvalidColor
    {
      if id < 0 || id >= size {
        return InvalidColor;
      }
      return colors[id];
    }

    /**
      The colour at intensity `t`, or the invalid colour when `t` is outside
      [0, 1]. An empty table has no slot to read, so callers must not ask.
    */
    method GetF(t: real) returns (c: Color)
      requires Valid()
      requires 0.0 <= t <= 1.0 ==> size >= 1
      ensures 0.0 <= t <= 1.0 ==> c == colors[IntensityIndex(t, size)]
      ensures !(0.0 <= t <= 1.0) ==> c == InvalidColor
    {
      if t < 0.0 || t > 1.0 {
        return InvalidColor;
      }
      return colors[IntensityIndex(t, size)];
    }

    /**
      Stores `c` at `id`. Outside the table nothing changes and nothing is
      emitted; inside, only entry `id` changes, Changed is emitted, and
      ChangedAlpha follows iff the opacity differs from the old one.
    */
    method Set(id: int, c: Color)
      requires Valid()
      modifies colors, this`signals
      ensures Valid()
      ensures !(0 <= id < size) ==> colors[..] == old(colors[..]) && signals == old(signals)
      ensures 0 <= id < size ==>
        colors[..] == old(colors[..])[id := c] &&
        signals == old(signals) + EditSignals(old(colors[id]).alpha != c.alpha)
    {
      if id < 0 || id >= size {
        return;
      }
      var alphaChanged := colors[id].alpha != c.alpha;
      colors[id] := c;
      signals := signals + [Changed];
      if alphaChanged {
        signals := signals + [ChangedAlpha];
      }
    }

    /** Stores `c` at intensity `t`; an intensity outside [0, 1] changes nothing. */
    method SetF(t: real, c: Color)
      requires Valid()
      modifies colors, this`signals
      ensures Valid()
      ensures !(0.0 <= t <= 1.0) ==> colors[..] == old(colors[..]) && signals == old(signals)
      ensures 0.0 <= t <= 1.0 && size >= 1 ==>
        var id := IntensityIndex(t, size);
        colors[..] == old(colors[..])[id := c] &&
        signals == old(signals) + EditSignals(old(colors[id]).alpha != c.alpha)
      ensures 0.0 <= t <= 1.0 && size < 1 ==> colors[..] == old(colors[..]) && signals == old(signals)
    {
      if t < 0.0 || t > 1.0 {
        return;
      }
      Set(IntensityIndex(t, size), c);
    }

    /**
      Fills the table with preset `kind`, overwriting only the channels `m`
      selects. Emits Changed, then ChangedAlpha iff opacity is selected.
    */
    method DefaultTf(kind: int, hsv: int -> Color, m: Mask)
      requires Valid()
      modifies colors, this`signals
      ensures Valid()
      ensures colors[..] == DefaultColors(old(colors[..]), kind, hsv, m)
      ensures signals == old(signals) + EditSignals(m.alpha)
    {
      ghost var target := DefaultColors(colors[..], kind, hsv, m);
      var i := 0;
      while i < size
        modifies colors
        invariant 0 <= i <= size
        invariant colors[..i] == target[..i]
        invariant colors[i..] == old(colors[i..])
      {
        var next := DefaultColor(kind, i, size, hsv);
        colors[i] := Overwrite(colors[i], next, m);
        i := i + 1;
      }
      assert colors[..] == colors[..i];
      signals := signals + [Changed];
      if m.alpha {
        signals := signals + [ChangedAlpha];
      }
    }

    /**
      Replaces the channels `m` selects in every entry by the mean of that
      channel over all entries weighted by `weight(i, j)`, a positive weight
      falling off with the distance between entries i and j.
    */
    method Smooth(weight: (int, int) -> real, m: Mask)
      requires Valid()
      requires forall a, b :: weight(a, b) > 0.0
      modifies this`colors, this`signals
      ensures Valid() && fresh(colors)
      ensures colors[..] == SmoothedColors(old(colors[..]), weight, m)
      ensures signals == old(signals) + EditSignals(m.alpha)
    {
      var cs := colors[..];
      var smoothed := new Color[size](_ => InvalidColor);
      var i := 0;
      while i < size
        modifies smoothed
        invariant 0 <= i <= size
        invariant smoothed[..i] == SmoothedColors(cs, weight, m)[..i]
      {
        var c := SmoothEntry(i, weight, m);
        smoothed[i] := c;
        i := i + 1;
      }
      assert smoothed[..] == smoothed[..i];
      colors := smoothed;
      signals := signals + [Changed];
      if m.alpha {
        signals := signals + [ChangedAlpha];
      }
    }

    /** Entry `i` with the selected channels replaced by their weighted means. */
    method SmoothEntry(i: int, weight: (int, int) -> real, m: Mask) returns (c: Color)
      requires Valid() && 0 <= i < size
      requires forall a, b :: weight(a, b) > 0.0
      ensures c == SmoothedColor(colors[..], i, weight, m)
    {
      var cs := colors[..];
      var r, g, b, a, wSum := WeighAll(colors, i, weight);
      WeightSumPositive(i, size, weight);
      assert r / wSum == SmoothedF(cs, 0, i, weight) && g / wSum == SmoothedF(cs, 1, i, weight);
      assert b / wSum == SmoothedF(cs, 2, i, weight) && a / wSum == SmoothedF(cs, 3, i, weight);
      c := colors[i];
      if m.red {
        c := c.(red := FromF(r / wSum));
      }
      if m.green {
        c := c.(green := FromF(g / wSum));
      }
      if m.blue {
        c := c.(blue := FromF(b / wSum));
      }
      if m.alpha {
        c := c.(alpha := FromF(a / wSum));
      }
    }

    /** The table as 4 * size reals in [0, 1]: slot 4k + c holds channel c of entry k. */
    method ToData() returns (data: array<real>)
      requires Valid()
      ensures fresh(data) && data.Length == 4 * size
      ensures forall k, c :: 0 <= k < size && 0 <= c < 4 ==> data[4 * k + c] == ChannelF(ChannelOf(colors[k], c))
    {
      data := new real[size * 4];
      var i := 0;
      while i < size * 4
        invariant 0 <= i <= size * 4 && i % 4 == 0
        invariant forall k, c :: 0 <= k < i / 4 && 0 <= c < 4 ==> data[4 * k + c] == ChannelF(ChannelOf(colors[k], c))
      {
        data[i] := ChannelF(colors[i / 4].red);
        data[i + 1] := ChannelF(colors[i / 4].green);
        data[i + 2] := ChannelF(colors[i / 4].blue);
        data[i + 3] := ChannelF(colors[i / 4].alpha);
        i := i + 4;
      }
    }

    /** Appends the size and then every colour in index order to `out`. */
    method SaveTo(out: seq<Token>) returns (res: seq<Token>)
      requires Valid()
      ensures res == out + TfTokens(colors[..])
    {
      ghost var cs := colors[..];
      res := out + [IntTok(size)];
      var i := 0;
      while i < size
        invariant 0 <= i <= size
        invariant res == out + TfTokens(cs)[..i + 1]
      {
        assert TfTokens(cs)[..i + 2] == TfTokens(cs)[..i + 1] + [ColorTok(cs[i])];
        res := res + [ColorTok(colors[i])];
        i := i + 1;
      }
      assert TfTokens(cs)[..size + 1] == TfTokens(cs);
    }

    /**
      Replaces the table by the size and colours read from `s` at `pos` and
      returns the position after them. Emits ChangedAlpha, then Changed.
    */
    method LoadFrom(s: seq<Token>, pos: nat) returns (next: nat)
      requires ReadInt(s, pos).0 >= 0
      modifies this
      ensures Valid() && fresh(colors)
      ensures size == ReadInt(s, pos).0
      ensures colors[..] == ReadColors(s, pos + 1, size)
      ensures next == pos + 1 + size
      ensures signals == old(signals) + [ChangedAlpha, Changed]
    {
      var (n, p) := ReadInt(s, pos);
      size := n;
      colors := new Color[n](_ => InvalidColor);
      var i := 0;
      while i < n
        modifies colors
        invariant 0 <= i <= n && p == pos + 1 + i
        invariant colors[..i] == ReadColors(s, pos + 1, i)
      {
        var (c, p') := ReadColor(s, p);
        colors[i] := c;
        p := p';
        i := i + 1;
      }
      next := p;
      signals := signals + [ChangedAlpha, Changed];
    }
  }

  const AllChannels := Mask(true, true, true, true)

  /** The hue ramp is not used by the default preset; any colour stands in. */
  const NoHue: int -> Color := _ => InvalidColor
}
