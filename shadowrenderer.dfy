/**
  The shadow renderer (class ShadowRenderer): it keeps three 3D textures the
  size of the dataset divided by the subsampling factor, renders the local
  opacity, global opacity and shadow volumes into them one plane per layer,
  and then adds single scattering progressively: each call renders one
  light direction (theta, phi) and advances the direction, sweeping phi
  around the full circle for each theta step until theta passes PI.
  Rendering passes are recorded in the ghost log `passes`.
*/
module Shadow {
  import opened CNum
  import Volume
  import RenderProps

  /** The value the renderer uses for pi: a literal slightly below the real constant. */
  const PI: real := 3.141509

  datatype Program = LocalOpacity | GlobalOpacity | ShadowVolume | Scattering

  /** One plane rendered into `layer` of a 3D texture, with additive blending or not. */
  datatype Pass = Plane(program: Program, layer: int, blend: bool)

  /** The passes of one sweep of `program` over a texture of `depth` layers. */
  function LayerPasses(program: Program, depth: int, blend: bool): seq<Pass>
  {
    if depth <= 0 then [] else seq(depth, i requires 0 <= i < depth => Plane(program, i, blend))
  }

  /**
    A sweep renders every layer 0 .. depth-1 exactly once, in increasing
    order, all with the same program and blending.
  */
  lemma LayerPassesOrder(program: Program, depth: int, blend: bool)
    ensures var ps := LayerPasses(program, depth, blend);
      (depth <= 0 ==> ps == []) &&
      (depth > 0 ==> |ps| == depth) &&
      (forall i :: 0 <= i < |ps| ==> ps[i].layer == i && ps[i].program == program && ps[i].blend == blend)
  {
  }

  /** The first step of a recomputation: local opacity, global opacity, then the shadow volume. */
  function BasePasses(depth: int): seq<Pass>
  {
    LayerPasses(LocalOpacity, depth, false) + LayerPasses(GlobalOpacity, depth, false) +
    LayerPasses(ShadowVolume, depth, false)
  }

  // ---------------------------------------------------------------------------
  // The scattering sweep
  // ---------------------------------------------------------------------------

  /**
    One advance of the light direction after a scattering pass with `n`
    steps, where `s` is the sine of `theta`: the new theta, the new phi and
    whether the sweep is complete. phi grows by PI/n, stretched near the poles;
    when it completes a circle it restarts and theta moves on by PI/n; when
    theta passes PI both restart and the sweep is complete. With n == 0 the
    float division yields infinity, which completes the sweep at once.
  */
  function Advance(theta: real, phi: real, n: int, s: real): (real, real, bool)
    requires 0.0 <= s <= 1.0
  {
    if n == 0 then (0.0, 0.0, true)
    else
      var phi1 := phi + PI / n as real / (0.1 + 0.9 * s);
      var (theta2, phi2) := if phi1 >= 2.0 * PI then (theta + PI / n as real, 0.0) else (theta, phi1);
      if theta2 <= PI then (theta2, phi2, false) else (0.0, 0.0, true)
  }

  /**
    An advance keeps the direction in range: theta stays in [0, PI] and phi
    below a full circle; a completed sweep restarts at (0, 0).
  */
  lemma AdvanceInRange(theta: real, phi: real, n: int, s: real)
    requires 0.0 <= s <= 1.0 && 0.0 <= theta <= PI && phi < 2.0 * PI
    ensures var (t, p, done) := Advance(theta, phi, n, s);
      0.0 <= t <= PI && p < 2.0 * PI &&
      (done ==> t == 0.0 && p == 0.0) &&
      (n >= 1 && 0.0 <= phi ==> (0.0 <= p && theta <= t) || done)
  {
    if n != 0 {
      var d := 0.1 + 0.9 * s;
      var inc := PI / n as real / d;
      if n < 0 {
        assert PI / n as real < 0.0;
        assert inc < 0.0;
      } else {
        assert PI / n as real > 0.0;
        assert inc > 0.0;
      }
    }
  }

  /** Dividing a positive value by a factor in (0, 1] does not make it smaller. */
  lemma DivByAtMostOne(a: real, d: real)
    requires a > 0.0 && 0.0 < d <= 1.0
    ensures a / d >= a
  {
    var q := a / d;
    assert q * d == a;
  }

  /** Each advance that stays on the same theta moves phi on by at least one theta step. */
  lemma PhiStep(phi: real, n: int, s: real)
    requires n >= 1 && 0.0 <= s <= 1.0
    ensures phi + PI / n as real / (0.1 + 0.9 * s) >= phi + PI / n as real
  {
    DivByAtMostOne(PI / n as real, 0.1 + 0.9 * s);
  }

  /** The number of whole theta steps `PI / n` that phi has covered. */
  function Covered(phi: real, n: int): int
    requires n >= 1
  {
    (phi * n as real / PI).Floor
  }

  lemma CoveredRange(phi: real, n: int)
    requires n >= 1 && 0.0 <= phi < 2.0 * PI
    ensures 0 <= Covered(phi, n) <= 2 * n - 1
  {
    var x := phi * n as real / PI;
    assert phi * n as real < 2.0 * PI * n as real;
    DivLe(phi * n as real, 2.0 * PI * n as real, PI);
    assert 2.0 * PI * n as real / PI == 2.0 * n as real;
    assert x < (2 * n) as real;
  }

  lemma CoveredGrows(phi: real, phi': real, n: int)
    requires n >= 1 && phi' >= phi + PI / n as real
    ensures Covered(phi', n) >= Covered(phi, n) + 1
  {
    var u := PI / n as real;
    assert u * n as real == PI;
    assert phi' * n as real >= phi * n as real + u * n as real;
    DivLe(phi * n as real + PI, phi' * n as real, PI);
    assert (phi * n as real + PI) / PI == phi * n as real / PI + 1.0;
  }

  /**
    How far a sweep with `n` steps is from completion, when theta has made
    `j` steps and phi has covered part of its circle.
  */
  function Rank(j: int, phi: real, n: int): int
    requires n >= 1
  {
    (n - j) * (2 * n + 1) + (2 * n - 1 - Covered(phi, n))
  }

  /** theta after `j` steps of PI/n. */
  function ThetaAt(j: int, n: int): real
    requires n >= 1
  {
    j as real * (PI / n as real)
  }

  lemma ThetaAtBound(j: int, n: int)
    requires n >= 1 && 0 <= j
    ensures ThetaAt(j, n) + PI / n as real == ThetaAt(j + 1, n)
    ensures ThetaAt(j + 1, n) <= PI <==> j + 1 <= n
    ensures 0.0 <= ThetaAt(j, n)
  {
    var u := PI / n as real;
    assert u * n as real == PI;
    assert u > 0.0;
    if j + 1 <= n {
      assert (j + 1) as real * u <= n as real * u;
    } else {
      assert (j + 1) as real * u >= (n + 1) as real * u;
      assert (n + 1) as real * u == PI + u;
    }
  }

  /**
    An advance that does not complete the sweep either keeps theta and covers
    at least one more step of phi, or moves theta on by one step and restarts
    phi; either way the rank drops and stays non-negative.
  */
  lemma AdvanceProgress(j: int, phi: real, n: int, s: real)
    requires n >= 1 && 0 <= j <= n && 0.0 <= phi < 2.0 * PI && 0.0 <= s <= 1.0
    ensures var (t, p, done) := Advance(ThetaAt(j, n), phi, n, s);
      done ||
      (t == ThetaAt(j, n) && 0.0 <= p < 2.0 * PI && 0 <= Rank(j, p, n) < Rank(j, phi, n)) ||
      (t == ThetaAt(j + 1, n) && j + 1 <= n && p == 0.0 && 0 <= Rank(j + 1, p, n) < Rank(j, phi, n))
  {
    if phi + PI / n as real / (0.1 + 0.9 * s) >= 2.0 * PI {
      AdvanceNextRow(j, phi, n, s);
    } else {
      AdvanceSameRow(j, phi, n, s);
    }
  }

  /** A step that completes the circle moves theta on and restarts phi. */
  lemma AdvanceNextRow(j: int, phi: real, n: int, s: real)
    requires n >= 1 && 0 <= j <= n && 0.0 <= phi < 2.0 * PI && 0.0 <= s <= 1.0
    requires phi + PI / n as real / (0.1 + 0.9 * s) >= 2.0 * PI
    ensures var (t, p, done) := Advance(ThetaAt(j, n), phi, n, s);
      done || (t == ThetaAt(j + 1, n) && j + 1 <= n && p == 0.0 && 0 <= Rank(j + 1, p, n) < Rank(j, phi, n))
  {
    ThetaAtBound(j, n);
    CoveredRange(phi, n);
    var (t, p, done) := Advance(ThetaAt(j, n), phi, n, s);
    if !done {
      assert t == ThetaAt(j + 1, n) && j + 1 <= n && p == 0.0;
      assert Covered(0.0, n) == 0;
      var m, k := 2 * n + 1, n - j;
      assert (k - 1) * m == k * m - m;
      assert Rank(j + 1, p, n) == (k - 1) * m + (2 * n - 1);
      assert Rank(j, phi, n) == k * m + (2 * n - 1 - Covered(phi, n));
    }
  }

  /** A step within the circle keeps theta and covers at least one more step of phi. */
  lemma AdvanceSameRow(j: int, phi: real, n: int, s: real)
    requires n >= 1 && 0 <= j <= n && 0.0 <= phi < 2.0 * PI && 0.0 <= s <= 1.0
    requires phi + PI / n as real / (0.1 + 0.9 * s) < 2.0 * PI
    ensures var (t, p, done) := Advance(ThetaAt(j, n), phi, n, s);
      done || (t == ThetaAt(j, n) && 0.0 <= p < 2.0 * PI && 0 <= Rank(j, p, n) < Rank(j, phi, n))
  {
    ThetaAtBound(j, n);
    var (t, p, done) := Advance(ThetaAt(j, n), phi, n, s);
    if !done {
      var phi1 := phi + PI / n as real / (0.1 + 0.9 * s);
      assert t == ThetaAt(j, n) && p == phi1;
      PhiStep(phi, n, s);
      CoveredGrows(phi, p, n);
      CoveredRange(p, n);
      CoveredRange(phi, n);
    }
  }

  /**
    The number of calls a sweep with `n` steps still takes, from theta after
    `j` steps and phi, until a call reports it complete.
  */
  function SweepCalls(j: int, phi: real, n: int, sin: real -> real): (calls: nat)
    requires n >= 1 && 0 <= j <= n && 0.0 <= phi < 2.0 * PI
    requires forall t :: 0.0 <= t <= PI ==> 0.0 <= sin(t) <= 1.0
    ensures 1 <= calls <= Rank(j, phi, n) + 1
    decreases Rank(j, phi, n)
  {
    ThetaAtBound(j, n);
    var theta := ThetaAt(j, n);
    AdvanceProgress(j, phi, n, sin(theta));
    CoveredRange(phi, n);
    var (t, p, done) := Advance(theta, phi, n, sin(theta));
    if done then 1
    else if t == theta then 1 + SweepCalls(j, p, n, sin)
    else 1 + SweepCalls(j + 1, p, n, sin)
  }

  /**
    A sweep started at (0, 0) with n >= 1 steps completes after at most
    (n + 1) * (2n + 1) + 2n calls.
  */
  lemma SweepBounded(n: int, sin: real -> real)
    requires n >= 1
    requires forall t :: 0.0 <= t <= PI ==> 0.0 <= sin(t) <= 1.0
    ensures SweepCalls(0, 0.0, n, sin) <= (n + 1) * (2 * n + 1) + 2 * n
  {
    assert Covered(0.0, n) == 0;
    assert Rank(0, 0.0, n) == n * (2 * n + 1) + 2 * n - 1;
  }

  // ---------------------------------------------------------------------------
  // The renderer
  // ---------------------------------------------------------------------------

  class ShadowRenderer {
    /** The size of the three textures; -1 until they are first allocated. */
    var width: int
    var height: int
    var depth: int
    var scatteringTheta: real
    var scatteringPhi: real
    /** The sine function the sweep uses. */
    const sin: real -> real
    /** The planes rendered so far, oldest first. */
    ghost var passes: seq<Pass>
    /** The texture sizes allocated so far, oldest first. */
    ghost var allocations: seq<(int, int, int)>

    ghost predicate Valid()
      reads this
    {
      (forall t :: 0.0 <= t <= PI ==> 0.0 <= sin(t) <= 1.0) &&
      0.0 <= scatteringTheta <= PI && scatteringPhi < 2.0 * PI
    }

    constructor (sinFn: real -> real)
      requires forall t :: 0.0 <= t <= PI ==> 0.0 <= sinFn(t) <= 1.0
      ensures Valid() && sin == sinFn
      ensures scatteringTheta == 0.0 && scatteringPhi == 0.0
      ensures width == -1 && height == -1 && depth == -1
      ensures passes == [] && allocations == []
    {
      sin := sinFn;
      scatteringTheta, scatteringPhi := 0.0, 0.0;
      width, height, depth := -1, -1, -1;
      passes, allocations := [], [];
    }

    /** Aborts a running sweep so that the next call recomputes everything. */
    method ShadowPropsChanged()
      requires Valid()
      modifies this`scatteringTheta, this`scatteringPhi
      ensures Valid() && scatteringTheta == 0.0 && scatteringPhi == 0.0
    {
      scatteringTheta, scatteringPhi := 0.0, 0.0;
    }

    /**
      Resizes the textures to the dataset's dimensions divided by the
      subsampling factor, but only when that size changed. A dataset that is
      not ready leaves everything as it is.
    */
    method UpdateBaseTextures(dataset: Volume.VolumeData, props: RenderProps.VolumeRenderProps)
      requires dataset.ready ==> props.shadowDimin != 0
      modifies this`width, this`height, this`depth, this`allocations
      ensures !dataset.ready ==>
        width == old(width) && height == old(height) && depth == old(depth) && allocations == old(allocations)
      ensures dataset.ready ==>
        var size := TargetSize(dataset.properties, props.shadowDimin);
        (width, height, depth) == size &&
        allocations == old(allocations) + (if (old(width), old(height), old(depth)) == size then [] else [size])
    {
      if !dataset.ready {
        return;
      }
      var dimin := props.shadowDimin;
      var w := CDiv(dataset.properties.width, dimin);
      var h := CDiv(dataset.properties.height, dimin);
      var d := CDiv(dataset.properties.depth, dimin);
      if w == width && h == height && d == depth {
        return;
      }
      width, height, depth := w, h, d;
      allocations := allocations + [(w, h, d)];
    }

    /** Renders one plane of `program` into every layer of the target texture. */
    method Process3DTexture(program: Program, blend: bool)
      modifies this`passes
      ensures passes == old(passes) + LayerPasses(program, depth, blend)
    {
      var i := 0;
      while i < depth
        invariant depth <= 0 ==> i == 0
        invariant depth > 0 ==> 0 <= i <= depth
        invariant passes == old(passes) + LayerPasses(program, i, blend)
      {
        assert LayerPasses(program, i + 1, blend) == LayerPasses(program, i, blend) + [Plane(program, i, blend)];
        passes := passes + [Plane(program, i, blend)];
        i := i + 1;
      }
      assert depth > 0 ==> i == depth;
    }

    /**
      One step of the shadow computation. The textures are resized if needed;
      at the start of a sweep the opacity and shadow volumes are rendered;
      with a positive scattering radius one scattering pass is added and the
      direction advances, and the result says whether the sweep is complete.
      Without scattering the shadow volume is complete at once.
    */
    method UpdateShadowVolume(dataset: Volume.VolumeData, props: RenderProps.VolumeRenderProps)
      returns (done: bool)
      requires Valid()
      requires dataset.ready ==> props.shadowDimin != 0
      modifies this`width, this`height, this`depth, this`allocations, this`passes,
        this`scatteringTheta, this`scatteringPhi
      ensures Valid()
      ensures dataset.ready ==>
        var size := TargetSize(dataset.properties, props.shadowDimin);
        (width, height, depth) == size &&
        allocations == old(allocations) + (if (old(width), old(height), old(depth)) == size then [] else [size])
      ensures !dataset.ready ==>
        width == old(width) && height == old(height) && depth == old(depth) && allocations == old(allocations)
      ensures passes == old(passes) +
        (if old(scatteringTheta) == 0.0 && old(scatteringPhi) == 0.0 then BasePasses(depth) else []) +
        (if props.scatteringRadius > 0.0 then LayerPasses(Scattering, depth, true) else [])
      ensures props.scatteringRadius <= 0.0 ==>
        done && scatteringTheta == old(scatteringTheta) && scatteringPhi == old(scatteringPhi)
      ensures props.scatteringRadius > 0.0 ==>
        (scatteringTheta, scatteringPhi, done) ==
        Advance(old(scatteringTheta), old(scatteringPhi), props.scatteringStepCount, sin(old(scatteringTheta)))
      ensures Stepped(dataset, props, done)
    {
      UpdateBaseTextures(dataset, props);
      StartSweep();
      if props.scatteringRadius > 0.0 {
        Process3DTexture(Scattering, true);
        done := AdvanceSweep(props.scatteringStepCount);
        return;
      }
      return true;
    }

    /**
      The state change of one call to `UpdateShadowVolume` that returned
      `done`: the textures resized as `UpdateBaseTextures` does, the base
      passes at the start of a sweep, a blended scattering pass with a
      positive radius, and the direction advanced by `Advance` with
      scattering or kept without, with `done` saying whether the shadow
      volume is complete.
    */
    twostate predicate Stepped(dataset: Volume.VolumeData, props: RenderProps.VolumeRenderProps, done: bool)
      reads this, dataset, props
    {
      old(Valid()) &&
      (dataset.ready ==>
         props.shadowDimin != 0 &&
         var size := TargetSize(dataset.properties, props.shadowDimin);
         (width, height, depth) == size &&
         allocations == old(allocations) + (if (old(width), old(height), old(depth)) == size then [] else [size])) &&
      (!dataset.ready ==>
        width == old(width) && height == old(height) && depth == old(depth) && allocations == old(allocations)) &&
      passes == old(passes) +
        (if old(scatteringTheta) == 0.0 && old(scatteringPhi) == 0.0 then BasePasses(depth) else []) +
        (if props.scatteringRadius > 0.0 then LayerPasses(Scattering, depth, true) else []) &&
      (props.scatteringRadius <= 0.0 ==>
        done && scatteringTheta == old(scatteringTheta) && scatteringPhi == old(scatteringPhi)) &&
      (props.scatteringRadius > 0.0 ==>
        (scatteringTheta, scatteringPhi, done) ==
        Advance(old(scatteringTheta), old(scatteringPhi), props.scatteringStepCount, sin(old(scatteringTheta))))
    }

    /** At the start of a sweep, renders the opacity volumes and the shadow volume. */
    method StartSweep()
      modifies this`passes
      ensures passes == old(passes) +
        (if scatteringTheta == 0.0 && scatteringPhi == 0.0 then BasePasses(depth) else [])
    {
      if scatteringTheta == 0.0 && scatteringPhi == 0.0 {
        Process3DTexture(LocalOpacity, false);
        Process3DTexture(GlobalOpacity, false);
        Process3DTexture(ShadowVolume, false);
      }
    }

    /** Moves the light direction on after a scattering pass with `stepCount` steps. */
    method AdvanceSweep(stepCount: int) returns (done: bool)
      requires Valid()
      modifies this`scatteringTheta, this`scatteringPhi
      ensures Valid()
      ensures (scatteringTheta, scatteringPhi, done) ==
        Advance(old(scatteringTheta), old(scatteringPhi), stepCount, sin(old(scatteringTheta)))
    {
      AdvanceInRange(scatteringTheta, scatteringPhi, stepCount, sin(scatteringTheta));
      if stepCount == 0 {
        // PI / 0 is infinite: phi completes its circle and theta passes PI.
        scatteringTheta, scatteringPhi := 0.0, 0.0;
        return true;
      }
      scatteringPhi := scatteringPhi + PI / stepCount as real / (0.1 + 0.9 * sin(scatteringTheta));
      if scatteringPhi >= 2.0 * PI {
        scatteringPhi := 0.0;
        scatteringTheta := scatteringTheta + PI / stepCount as real;
      }
      if scatteringTheta <= PI {
        return false;
      } else {
        scatteringTheta, scatteringPhi := 0.0, 0.0;
        return true;
      }
    }
  }

  /** The texture size for a dataset: each dimension divided by the subsampling factor. */
  function TargetSize(p: Volume.VolumeDataProps, dimin: int): (size: (int, int, int))
    requires dimin != 0
    ensures dimin >= 1 && p.width >= 0 && p.height >= 0 && p.depth >= 0 ==>
      0 <= size.0 <= p.width && 0 <= size.1 <= p.height && 0 <= size.2 <= p.depth
    ensures dimin == 1 ==> size == (p.width, p.height, p.depth)
  {
    if dimin >= 1 && p.width >= 0 && p.height >= 0 && p.depth >= 0 then
      QuotientBelow(p.width, dimin);
      QuotientBelow(p.height, dimin);
      QuotientBelow(p.depth, dimin);
      (CDiv(p.width, dimin), CDiv(p.height, dimin), CDiv(p.depth, dimin))
    else
      (CDiv(p.width, dimin), CDiv(p.height, dimin), CDiv(p.depth, dimin))
  }

  lemma QuotientBelow(a: int, b: int)
    requires a >= 0 && b >= 1
    ensures 0 <= CDiv(a, b) <= a
  {
    MulAtLeast(b, a / b);
    assert b * (a / b) <= a;
  }

  /**
    The first resize of a ready dataset always allocates, because no texture
    size is ever -1.
  */
  lemma FirstResizeAllocates(p: Volume.VolumeDataProps, dimin: int)
    requires dimin >= 1 && p.width >= 0 && p.height >= 0 && p.depth >= 0
    ensures TargetSize(p, dimin) != (-1, -1, -1)
  {
  }
}
