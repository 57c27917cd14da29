/**
  The render settings (class VolumeRenderProps): ray step size, render and
  lighting modes, light position and strength, shadow-volume subsampling and
  scattering, plus the transfer function in use. Sliders set each value from
  a normalised position in [0, 1] and read it back through a normalised
  getter. Every change emits volumePropsChanged (redraw), shadowPropsChanged
  (recompute the shadow volume) or both; the ghost log `signals` records them.
*/
module RenderProps {
  import opened CNum
  import opened Geometry
  import opened DataStream
  import opened TransFunc
  import opened Colors

  const STEP_SIZE_MIN: real := 0.0002
  const STEP_SIZE_MAX: real := 0.1
  const LIGHT_POS_MAX: real := 10.0
  const LIGHT_BASE_OPAC_MIN: real := 0.1
  const LIGHT_BASE_OPAC_MAX: real := 256.0
  const LIGHT_MAX_INTENSITY: real := 10.0
  const LIGHT_MAX_BASE_INTENSITY: real := 0.5
  const LIGHT_MIN_SEGMENT_LENGTH: real := 0.01
  const LIGHT_MAX_SEGMENT_LENGTH: real := 1.0
  const MIN_SCATTERING_RADIUS: real := 0.0
  const MAX_SCATTERING_RADIUS: real := 0.1
  const MIN_SCATTERING_STEP_COUNT: int := 2
  const MAX_SCATTERING_STEP_COUNT: int := 6

  const DIRECT := 0
  const MIP := 1
  const ENTRY_POINTS := 2
  const EXIT_POINTS := 3
  const DEBUG_BOX := 4
  const NO_LIGHTING := 0
  const PHONG := 1
  const GLOBAL := 2
  const GLOBAL_PHONG := 3

  datatype PropsSignal = VolumePropsChanged | ShadowPropsChanged

  // ---------------------------------------------------------------------------
  // Slider scales
  // ---------------------------------------------------------------------------

  /** The value a slider at `v` selects on the scale [lo, hi]; nothing is clamped. */
  function Denorm(v: real, lo: real, hi: real): real
  {
    v * (hi - lo) + lo
  }

  /** The slider position of `x` on the scale [lo, hi]. */
  function Norm(x: real, lo: real, hi: real): real
    requires lo < hi
  {
    (x - lo) / (hi - lo)
  }

  /**
    On a proper scale the normalised getter inverts the setter and the setter
    inverts the getter. The ends of the slider select the ends of the scale,
    and a position outside [0, 1] selects a value outside [lo, hi].
  */
  lemma NormDenorm(v: real, x: real, lo: real, hi: real)
    requires lo < hi
    ensures Norm(Denorm(v, lo, hi), lo, hi) == v
    ensures Denorm(Norm(x, lo, hi), lo, hi) == x
    ensures Denorm(0.0, lo, hi) == lo && Denorm(1.0, lo, hi) == hi
    ensures v < 0.0 ==> Denorm(v, lo, hi) < lo
    ensures v > 1.0 ==> Denorm(v, lo, hi) > hi
  {
    var d := hi - lo;
    assert Denorm(v, lo, hi) - lo == v * d;
    assert v * d / d == v;
    assert (x - lo) / d * d == x - lo;
    DenormOutside(v, lo, hi);
  }

  /** A slider position outside [0, 1] selects a value outside [lo, hi]. */
  lemma DenormOutside(v: real, lo: real, hi: real)
    requires lo < hi
    ensures v < 0.0 ==> Denorm(v, lo, hi) < lo
    ensures v > 1.0 ==> Denorm(v, lo, hi) > hi
  {
    var d := hi - lo;
    if v > 1.0 {
      ProductPositive(v - 1.0, d);
      assert Denorm(v, lo, hi) - hi == (v - 1.0) * d;
    } else if v < 0.0 {
      ProductPositive(0.0 - v, d);
      assert lo - Denorm(v, lo, hi) == (0.0 - v) * d;
    }
  }

  /** A product of two positive reals is positive. */
  lemma ProductPositive(a: real, b: real)
    requires a > 0.0 && b > 0.0
    ensures a * b > 0.0
  {
  }

  /** A light coordinate from its slider: the slider spans [-LIGHT_POS_MAX/2, LIGHT_POS_MAX/2]. */
  function LightCoord(v: real): real
  {
    v * LIGHT_POS_MAX - LIGHT_POS_MAX / 2.0
  }

  /** The slider position of a light coordinate. */
  function LightCoordN(x: real): real
  {
    (x + LIGHT_POS_MAX / 2.0) / LIGHT_POS_MAX
  }

  /** The light-position slider is the scale [-5, 5], so it round-trips both ways. */
  lemma LightCoordRoundTrip(v: real, x: real)
    ensures LightCoordN(LightCoord(v)) == v
    ensures LightCoord(LightCoordN(x)) == x
    ensures LightCoord(0.5) == 0.0
  {
    NormDenorm(v, x, -LIGHT_POS_MAX / 2.0, LIGHT_POS_MAX / 2.0);
    assert LightCoord(v) == Denorm(v, -LIGHT_POS_MAX / 2.0, LIGHT_POS_MAX / 2.0);
    assert LightCoordN(x) == Norm(x, -LIGHT_POS_MAX / 2.0, LIGHT_POS_MAX / 2.0);
  }

  /**
    The scattering step count a slider at `v` selects: the position on the
    scale [2, 6], truncated to an integer as a float-to-int conversion does.
  */
  function StepCountOf(v: real): (n: int)
    ensures 0.0 <= v < 1.0 ==> MIN_SCATTERING_STEP_COUNT <= n < MAX_SCATTERING_STEP_COUNT
    ensures v == 1.0 ==> n == MAX_SCATTERING_STEP_COUNT
  {
    var x := v * (MAX_SCATTERING_STEP_COUNT - MIN_SCATTERING_STEP_COUNT) as real + MIN_SCATTERING_STEP_COUNT as real;
    if 0.0 <= v < 1.0 then
      ScaleBelow(v, 4.0);
      Trunc(x)
    else Trunc(x)
  }

  /**
    The slider position of a step count, computed with integer division: the
    step from the count to the position is made in whole multiples of the
    scale's width before it becomes a real.
  */
  function StepCountN(n: int): (v: real)
    ensures MIN_SCATTERING_STEP_COUNT <= n < MAX_SCATTERING_STEP_COUNT ==> v == 0.0
    ensures n == MAX_SCATTERING_STEP_COUNT ==> v == 1.0
  {
    CDiv(n - MIN_SCATTERING_STEP_COUNT, MAX_SCATTERING_STEP_COUNT - MIN_SCATTERING_STEP_COUNT) as real
  }

  /**
    Because of the integer division, every slider position below 1 reads back
    as 0: the step-count slider only ever shows its two ends.
  */
  lemma StepCountSliderCoarse(v: real)
    requires 0.0 <= v <= 1.0
    ensures StepCountN(StepCountOf(v)) == if v == 1.0 then 1.0 else 0.0
  {
  }

  // ---------------------------------------------------------------------------
  // Serialisation
  // ---------------------------------------------------------------------------

  /** The scalar settings in the order they are written to a project file. */
  datatype Settings = Settings(
    stepSize: real, mode: int, lightingMode: int, lightPos: Vec3, shadowDimin: int,
    lightDirectional: bool, lightIntensity: real, lightBaseIntensity: real,
    lightSegmentLength: real, lightOpacityBaseStep: real, scatteringRadius: real,
    scatteringStepCount: int)

  /** What saving writes before the transfer function: one token per setting. */
  function SettingsTokens(st: Settings): (r: seq<Token>)
    ensures |r| == 12
  {
    [RealTok(st.stepSize), IntTok(st.mode), IntTok(st.lightingMode), VecTok(st.lightPos),
     IntTok(st.shadowDimin), BoolTok(st.lightDirectional), RealTok(st.lightIntensity),
     RealTok(st.lightBaseIntensity), RealTok(st.lightSegmentLength),
     RealTok(st.lightOpacityBaseStep), RealTok(st.scatteringRadius), IntTok(st.scatteringStepCount)]
  }

  /** The settings read from `s` at `pos`, in saving order, and the position after them. */
  function ReadSettings(s: seq<Token>, pos: nat): (r: (Settings, nat))
    ensures r.1 == pos + 12
  {
    var (stepSize, p1) := ReadReal(s, pos);
    var (mode, p2) := ReadInt(s, p1);
    var (lightingMode, p3) := ReadInt(s, p2);
    var (lightPos, p4) := ReadVec(s, p3);
    var (shadowDimin, p5) := ReadInt(s, p4);
    var (lightDirectional, p6) := ReadBool(s, p5);
    var (lightIntensity, p7) := ReadReal(s, p6);
    var (lightBaseIntensity, p8) := ReadReal(s, p7);
    var (lightSegmentLength, p9) := ReadReal(s, p8);
    var (lightOpacityBaseStep, p10) := ReadReal(s, p9);
    var (scatteringRadius, p11) := ReadReal(s, p10);
    var (scatteringStepCount, p12) := ReadInt(s, p11);
    (Settings(stepSize, mode, lightingMode, lightPos, shadowDimin, lightDirectional,
              lightIntensity, lightBaseIntensity, lightSegmentLength, lightOpacityBaseStep,
              scatteringRadius, scatteringStepCount), p12)
  }

  /** Loading reads back every setting saving wrote, wherever it sits in the stream. */
  lemma SettingsRoundTrip(before: seq<Token>, st: Settings, after: seq<Token>)
    ensures ReadSettings(before + SettingsTokens(st) + after, |before|).0 == st
  {
    var s := before + SettingsTokens(st) + after;
    var n := |before|;
    assert s[n] == RealTok(st.stepSize) && s[n + 1] == IntTok(st.mode);
    assert s[n + 2] == IntTok(st.lightingMode) && s[n + 3] == VecTok(st.lightPos);
    assert s[n + 4] == IntTok(st.shadowDimin) && s[n + 5] == BoolTok(st.lightDirectional);
    assert s[n + 6] == RealTok(st.lightIntensity) && s[n + 7] == RealTok(st.lightBaseIntensity);
    assert s[n + 8] == RealTok(st.lightSegmentLength) && s[n + 9] == RealTok(st.lightOpacityBaseStep);
    assert s[n + 10] == RealTok(st.scatteringRadius) && s[n + 11] == IntTok(st.scatteringStepCount);
  }

  /** The settings of a fresh object. */
  const DefaultSettings := Settings(
    (STEP_SIZE_MAX + STEP_SIZE_MIN) / 2.0, DIRECT, NO_LIGHTING, Vec3(0.0, 0.0, LIGHT_POS_MAX / 2.0), 1,
    false, 1.0, 0.0, (LIGHT_MIN_SEGMENT_LENGTH + LIGHT_MAX_SEGMENT_LENGTH) / 2.0,
    (LIGHT_BASE_OPAC_MIN + LIGHT_BASE_OPAC_MAX) / 2.0, MIN_SCATTERING_RADIUS, MIN_SCATTERING_STEP_COUNT)

  /**
    The defaults sit in the middle of the step-size, segment-length and
    opacity-step sliders, at full intensity with no base light, and at the
    lower end of both scattering sliders.
  */
  lemma DefaultSliders()
    ensures Norm(DefaultSettings.stepSize, STEP_SIZE_MIN, STEP_SIZE_MAX) == 0.5
    ensures Norm(DefaultSettings.lightSegmentLength, LIGHT_MIN_SEGMENT_LENGTH, LIGHT_MAX_SEGMENT_LENGTH) == 0.5
    ensures Norm(DefaultSettings.lightOpacityBaseStep, LIGHT_BASE_OPAC_MIN, LIGHT_BASE_OPAC_MAX) == 0.5
    ensures LightCoordN(DefaultSettings.lightPos.z) == 1.0 && LightCoordN(DefaultSettings.lightPos.x) == 0.5
    ensures Norm(DefaultSettings.lightIntensity, 0.0, LIGHT_MAX_INTENSITY) == 0.1
    ensures Norm(DefaultSettings.lightBaseIntensity, 0.0, LIGHT_MAX_BASE_INTENSITY) == 0.0
    ensures Norm(DefaultSettings.scatteringRadius, MIN_SCATTERING_RADIUS, MAX_SCATTERING_RADIUS) == 0.0
    ensures StepCountN(DefaultSettings.scatteringStepCount) == 0.0
  {
  }

  class VolumeRenderProps {
    var mode: int
    var shadowDimin: int
    var stepSize: real
    var transFunc: TransferFunction?
    var lightingMode: int
    var lightPos: Vec3
    var lightIntensity: real
    var lightBaseIntensity: real
    var lightDirectional: bool
    var lightSegmentLength: real
    var lightOpacityBaseStep: real
    var scatteringStepCount: int
    var scatteringRadius: real

    /** The signals emitted so far, oldest first. */
    ghost var signals: seq<PropsSignal>
    /** The transfer functions whose transFuncChanged() reaches this object. */
    var changeSources: set<TransferFunction>
    /** The transfer functions whose transFuncChangedAlpha() reaches this object. */
    var alphaSources: set<TransferFunction>

    /** The scalar settings, in saving order. */
    function Current(): Settings
      reads this`stepSize, this`mode, this`lightingMode, this`lightPos, this`shadowDimin,
        this`lightDirectional, this`lightIntensity, this`lightBaseIntensity, this`lightSegmentLength,
        this`lightOpacityBaseStep, this`scatteringRadius, this`scatteringStepCount
    {
      Settings(stepSize, mode, lightingMode, lightPos, shadowDimin, lightDirectional,
               lightIntensity, lightBaseIntensity, lightSegmentLength, lightOpacityBaseStep,
               scatteringRadius, scatteringStepCount)
    }

    /**
      Default settings and a fresh default transfer function, both of whose
      signals reach this object. Emits shadowPropsChanged, then volumePropsChanged.
    */
    constructor ()
      ensures Current() == DefaultSettings
      ensures transFunc != null && fresh(transFunc) && transFunc.Valid() && transFunc.size == 256
      ensures changeSources == {transFunc} && alphaSources == {transFunc}
      ensures signals == [ShadowPropsChanged, VolumePropsChanged]
    {
      stepSize := (STEP_SIZE_MAX + STEP_SIZE_MIN) / 2.0;
      mode := DIRECT;
      lightingMode := NO_LIGHTING;
      lightPos := Vec3(0.0, 0.0, LIGHT_POS_MAX / 2.0);
      shadowDimin := 1;
      lightDirectional := false;
      lightIntensity := 1.0;
      lightBaseIntensity := 0.0;
      lightSegmentLength := (LIGHT_MIN_SEGMENT_LENGTH + LIGHT_MAX_SEGMENT_LENGTH) / 2.0;
      lightOpacityBaseStep := (LIGHT_BASE_OPAC_MIN + LIGHT_BASE_OPAC_MAX) / 2.0;
      scatteringStepCount := MIN_SCATTERING_STEP_COUNT;
      scatteringRadius := MIN_SCATTERING_RADIUS;
      var tf := new TransferFunction();
      transFunc := tf;
      alphaSources := {tf};
      changeSources := {tf};
      signals := [ShadowPropsChanged, VolumePropsChanged];
    }

    // Normalised getters: the slider position of each setting, which the
    // matching setter maps back to the stored value.

    function StepSizeN(): (r: real)
      reads this
      ensures Denorm(r, STEP_SIZE_MIN, STEP_SIZE_MAX) == stepSize
    {
      NormDenorm(0.0, stepSize, STEP_SIZE_MIN, STEP_SIZE_MAX);
      Norm(stepSize, STEP_SIZE_MIN, STEP_SIZE_MAX)
    }

    function LightPosXN(): (r: real)
      reads this
      ensures LightCoord(r) == lightPos.x
    {
      LightCoordRoundTrip(0.0, lightPos.x);
      LightCoordN(lightPos.x)
    }

    function LightPosYN(): (r: real)
      reads this
      ensures LightCoord(r) == lightPos.y
    {
      LightCoordRoundTrip(0.0, lightPos.y);
      LightCoordN(lightPos.y)
    }

    function LightPosZN(): (r: real)
      reads this
      ensures LightCoord(r) == lightPos.z
    {
      LightCoordRoundTrip(0.0, lightPos.z);
      LightCoordN(lightPos.z)
    }

    function LightIntensityN(): (r: real)
      reads this
      ensures Denorm(r, 0.0, LIGHT_MAX_INTENSITY) == lightIntensity
    {
      NormDenorm(0.0, lightIntensity, 0.0, LIGHT_MAX_INTENSITY);
      Norm(lightIntensity, 0.0, LIGHT_MAX_INTENSITY)
    }

    function LightBaseIntensityN(): (r: real)
      reads this
      ensures Denorm(r, 0.0, LIGHT_MAX_BASE_INTENSITY) == lightBaseIntensity
    {
      NormDenorm(0.0, lightBaseIntensity, 0.0, LIGHT_MAX_BASE_INTENSITY);
      Norm(lightBaseIntensity, 0.0, LIGHT_MAX_BASE_INTENSITY)
    }

    function LightSegmentLengthN(): (r: real)
      reads this
      ensures Denorm(r, LIGHT_MIN_SEGMENT_LENGTH, LIGHT_MAX_SEGMENT_LENGTH) == lightSegmentLength
    {
      NormDenorm(0.0, lightSegmentLength, LIGHT_MIN_SEGMENT_LENGTH, LIGHT_MAX_SEGMENT_LENGTH);
      Norm(lightSegmentLength, LIGHT_MIN_SEGMENT_LENGTH, LIGHT_MAX_SEGMENT_LENGTH)
    }

    function LightOpacityBaseStepN(): (r: real)
      reads this
      ensures Denorm(r, LIGHT_BASE_OPAC_MIN, LIGHT_BASE_OPAC_MAX) == lightOpacityBaseStep
    {
      NormDenorm(0.0, lightOpacityBaseStep, LIGHT_BASE_OPAC_MIN, LIGHT_BASE_OPAC_MAX);
      Norm(lightOpacityBaseStep, LIGHT_BASE_OPAC_MIN, LIGHT_BASE_OPAC_MAX)
    }

    /** The step-count slider distinguishes only the maximum count from the others. */
    function ScatteringStepCountN(): (r: real)
      reads this
      ensures MIN_SCATTERING_STEP_COUNT <= scatteringStepCount < MAX_SCATTERING_STEP_COUNT ==> r == 0.0
      ensures scatteringStepCount == MAX_SCATTERING_STEP_COUNT ==> r == 1.0
    {
      StepCountN(scatteringStepCount)
    }

    function ScatteringRadiusN(): (r: real)
      reads this
      ensures Denorm(r, MIN_SCATTERING_RADIUS, MAX_SCATTERING_RADIUS) == scatteringRadius
    {
      NormDenorm(0.0, scatteringRadius, MIN_SCATTERING_RADIUS, MAX_SCATTERING_RADIUS);
      Norm(scatteringRadius, MIN_SCATTERING_RADIUS, MAX_SCATTERING_RADIUS)
    }

    // Setters. Each changes one setting and emits its signals; none clamps.

    method SetStepSize(v: real)
      modifies this`stepSize, this`signals
      ensures stepSize == Denorm(v, STEP_SIZE_MIN, STEP_SIZE_MAX) && StepSizeN() == v
      ensures signals == old(signals) + [VolumePropsChanged]
    {
      stepSize := v * (STEP_SIZE_MAX - STEP_SIZE_MIN) + STEP_SIZE_MIN;
      NormDenorm(v, 0.0, STEP_SIZE_MIN, STEP_SIZE_MAX);
      signals := signals + [VolumePropsChanged];
    }

    method SetShadowDimin(v: int)
      modifies this`shadowDimin, this`signals
      ensures shadowDimin == v
      ensures signals == old(signals) + [ShadowPropsChanged]
    {
      shadowDimin := v;
      signals := signals + [ShadowPropsChanged];
    }

    method SetMode(i: int)
      modifies this`mode, this`signals
      ensures mode == i
      ensures signals == old(signals) + [VolumePropsChanged]
    {
      mode := i;
      signals := signals + [VolumePropsChanged];
    }

    method SetLightingMode(i: int)
      modifies this`lightingMode, this`signals
      ensures lightingMode == i
      ensures signals == old(signals) + [VolumePropsChanged]
    {
      lightingMode := i;
      signals := signals + [VolumePropsChanged];
    }

    /**
      Uses `tf` from now on. The old function's transFuncChanged() is cut off,
      and so is the new one's: neither reaches this object afterwards, while
      any opacity connection stays as it was.
    */
    method SetTransFunc(tf: TransferFunction?)
      modifies this`transFunc, this`changeSources, this`signals
      ensures transFunc == tf
      ensures changeSources == old(changeSources) - {old(transFunc), tf}
      ensures signals == old(signals) + [ShadowPropsChanged, VolumePropsChanged]
    {
      if transFunc != null {
        changeSources := changeSources - {transFunc};
      }
      transFunc := tf;
      changeSources := changeSources - {transFunc};
      signals := signals + [ShadowPropsChanged, VolumePropsChanged];
    }

    method SetLightPos(pos: Vec3)
      modifies this`lightPos, this`signals
      ensures lightPos == pos
      ensures signals == old(signals) + [ShadowPropsChanged, VolumePropsChanged]
    {
      lightPos := pos;
      signals := signals + [ShadowPropsChanged, VolumePropsChanged];
    }

    method SetLightPosX(v: real)
      modifies this`lightPos, this`signals
      ensures lightPos == old(lightPos).(x := LightCoord(v)) && LightPosXN() == v
      ensures signals == old(signals) + [ShadowPropsChanged, VolumePropsChanged]
    {
      lightPos := lightPos.(x := v * LIGHT_POS_MAX - LIGHT_POS_MAX / 2.0);
      LightCoordRoundTrip(v, 0.0);
      signals := signals + [ShadowPropsChanged, VolumePropsChanged];
    }

    method SetLightPosY(v: real)
      modifies this`lightPos, this`signals
      ensures lightPos == old(lightPos).(y := LightCoord(v)) && LightPosYN() == v
      ensures signals == old(signals) + [ShadowPropsChanged, VolumePropsChanged]
    {
      lightPos := lightPos.(y := v * LIGHT_POS_MAX - LIGHT_POS_MAX / 2.0);
      LightCoordRoundTrip(v, 0.0);
      signals := signals + [ShadowPropsChanged, VolumePropsChanged];
    }

    method SetLightPosZ(v: real)
      modifies this`lightPos, this`signals
      ensures lightPos == old(lightPos).(z := LightCoord(v)) && LightPosZN() == v
      ensures signals == old(signals) + [ShadowPropsChanged, VolumePropsChanged]
    {
      lightPos := lightPos.(z := v * LIGHT_POS_MAX - LIGHT_POS_MAX / 2.0);
      LightCoordRoundTrip(v, 0.0);
      signals := signals + [ShadowPropsChanged, VolumePropsChanged];
    }

    method SetLightIntensity(v: real)
      modifies this`lightIntensity, this`signals
      ensures lightIntensity == v * LIGHT_MAX_INTENSITY && LightIntensityN() == v
      ensures signals == old(signals) + [ShadowPropsChanged, VolumePropsChanged]
    {
      lightIntensity := v * LIGHT_MAX_INTENSITY;
      NormDenorm(v, 0.0, 0.0, LIGHT_MAX_INTENSITY);
      signals := signals + [ShadowPropsChanged, VolumePropsChanged];
    }

    method SetLightBaseIntensity(v: real)
      modifies this`lightBaseIntensity, this`signals
      ensures lightBaseIntensity == v * LIGHT_MAX_BASE_INTENSITY && LightBaseIntensityN() == v
      ensures signals == old(signals) + [VolumePropsChanged]
    {
      lightBaseIntensity := v * LIGHT_MAX_BASE_INTENSITY;
      NormDenorm(v, 0.0, 0.0, LIGHT_MAX_BASE_INTENSITY);
      signals := signals + [VolumePropsChanged];
    }

    method SetLightSegmentLength(v: real)
      modifies this`lightSegmentLength, this`signals
      ensures lightSegmentLength == Denorm(v, LIGHT_MIN_SEGMENT_LENGTH, LIGHT_MAX_SEGMENT_LENGTH)
      ensures LightSegmentLengthN() == v
      ensures signals == old(signals) + [ShadowPropsChanged, VolumePropsChanged]
    {
      lightSegmentLength := v * (LIGHT_MAX_SEGMENT_LENGTH - LIGHT_MIN_SEGMENT_LENGTH) + LIGHT_MIN_SEGMENT_LENGTH;
      NormDenorm(v, 0.0, LIGHT_MIN_SEGMENT_LENGTH, LIGHT_MAX_SEGMENT_LENGTH);
      signals := signals + [ShadowPropsChanged, VolumePropsChanged];
    }

    method SetLightDirectional(v: bool)
      modifies this`lightDirectional, this`signals
      ensures lightDirectional == v
      ensures signals == old(signals) + [ShadowPropsChanged, VolumePropsChanged]
    {
      lightDirectional := v;
      signals := signals + [ShadowPropsChanged, VolumePropsChanged];
    }

    method SetLightOpacityBaseStep(v: real)
      modifies this`lightOpacityBaseStep, this`signals
      ensures lightOpacityBaseStep == Denorm(v, LIGHT_BASE_OPAC_MIN, LIGHT_BASE_OPAC_MAX)
      ensures LightOpacityBaseStepN() == v
      ensures signals == old(signals) + [ShadowPropsChanged, VolumePropsChanged]
    {
      lightOpacityBaseStep := v * (LIGHT_BASE_OPAC_MAX - LIGHT_BASE_OPAC_MIN) + LIGHT_BASE_OPAC_MIN;
      NormDenorm(v, 0.0, LIGHT_BASE_OPAC_MIN, LIGHT_BASE_OPAC_MAX);
      signals := signals + [ShadowPropsChanged, VolumePropsChanged];
    }

    method SetScatteringStepCount(v: real)
      modifies this`scatteringStepCount, this`signals
      ensures scatteringStepCount == StepCountOf(v)
      ensures signals == old(signals) + [ShadowPropsChanged, VolumePropsChanged]
    {
      scatteringStepCount := Trunc(v * (MAX_SCATTERING_STEP_COUNT - MIN_SCATTERING_STEP_COUNT) as real
                                   + MIN_SCATTERING_STEP_COUNT as real);
      signals := signals + [ShadowPropsChanged, VolumePropsChanged];
    }

    method SetScatteringRadius(v: real)
      modifies this`scatteringRadius, this`signals
      ensures scatteringRadius == Denorm(v, MIN_SCATTERING_RADIUS, MAX_SCATTERING_RADIUS)
      ensures ScatteringRadiusN() == v
      ensures signals == old(signals) + [ShadowPropsChanged, VolumePropsChanged]
    {
      scatteringRadius := v * (MAX_SCATTERING_RADIUS - MIN_SCATTERING_RADIUS) + MIN_SCATTERING_RADIUS;
      NormDenorm(v, 0.0, MIN_SCATTERING_RADIUS, MAX_SCATTERING_RADIUS);
      signals := signals + [ShadowPropsChanged, VolumePropsChanged];
    }

    // Slots connected to the transfer function.

    /** Any edit of the table changes the picture. */
    method TransFuncChangedSlot()
      modifies this`signals
      ensures signals == old(signals) + [VolumePropsChanged]
    {
      signals := signals + [VolumePropsChanged];
    }

    /** An opacity edit changes what casts shadows. */
    method TransFuncChangedAlphaSlot()
      modifies this`signals
      ensures signals == old(signals) + [ShadowPropsChanged]
    {
      signals := signals + [ShadowPropsChanged];
    }

    /**
      Delivers signal `sig` of transfer function `sender`: it runs the slot it
      is connected to, if any.
    */
    method Deliver(sender: TransferFunction, sig: TfSignal)
      modifies this`signals
      ensures signals == old(signals) + Reaction(sig, sender in changeSources, sender in alphaSources)
    {
      if sig == Changed && sender in changeSources {
        TransFuncChangedSlot();
      } else if sig == ChangedAlpha && sender in alphaSources {
        TransFuncChangedAlphaSlot();
      }
    }

    /** Appends every setting, then the transfer function, to `out`. */
    method SaveTo(out: seq<Token>) returns (res: seq<Token>)
      requires transFunc != null && transFunc.Valid()
      ensures res == out + SettingsTokens(Current()) + TfTokens(transFunc.colors[..])
    {
      res := out + [RealTok(stepSize), IntTok(mode), IntTok(lightingMode), VecTok(lightPos),
                    IntTok(shadowDimin), BoolTok(lightDirectional), RealTok(lightIntensity),
                    RealTok(lightBaseIntensity), RealTok(lightSegmentLength),
                    RealTok(lightOpacityBaseStep), RealTok(scatteringRadius), IntTok(scatteringStepCount)];
      res := transFunc.SaveTo(res);
    }

    /** Sets every scalar setting from `st`. */
    method Assign(st: Settings)
      modifies this`stepSize, this`mode, this`lightingMode, this`lightPos, this`shadowDimin,
        this`lightDirectional, this`lightIntensity, this`lightBaseIntensity, this`lightSegmentLength,
        this`lightOpacityBaseStep, this`scatteringRadius, this`scatteringStepCount
      ensures Current() == st
    {
      stepSize, mode, lightingMode, lightPos := st.stepSize, st.mode, st.lightingMode, st.lightPos;
      shadowDimin, lightDirectional, lightIntensity := st.shadowDimin, st.lightDirectional, st.lightIntensity;
      lightBaseIntensity, lightSegmentLength := st.lightBaseIntensity, st.lightSegmentLength;
      lightOpacityBaseStep, scatteringRadius := st.lightOpacityBaseStep, st.scatteringRadius;
      scatteringStepCount := st.scatteringStepCount;
    }

    /**
      Reads every setting, then the transfer function, from `s` at `pos`, and
      returns the position after them. The transfer function's load emits
      transFuncChangedAlpha and then transFuncChanged, which reach this
      object's slots over the live connections; then this object emits
      shadowPropsChanged and volumePropsChanged.
    */
    method LoadFrom(s: seq<Token>, pos: nat) returns (next: nat)
      requires transFunc != null
      requires ReadInt(s, pos + 12).0 >= 0
      modifies this`stepSize, this`mode, this`lightingMode, this`lightPos, this`shadowDimin,
        this`lightDirectional, this`lightIntensity, this`lightBaseIntensity, this`lightSegmentLength,
        this`lightOpacityBaseStep, this`scatteringRadius, this`scatteringStepCount, this`signals, transFunc
      ensures Current() == ReadSettings(s, pos).0
      ensures transFunc.Valid() && transFunc.size == ReadInt(s, pos + 12).0
      ensures transFunc.colors[..] == ReadColors(s, pos + 13, transFunc.size)
      ensures next == pos + 13 + transFunc.size
      ensures signals == old(signals) + LoadSignals(transFunc in changeSources, transFunc in alphaSources)
    {
      var (st, p) := ReadSettings(s, pos);
      Assign(st);
      next := transFunc.LoadFrom(s, p);
      AfterLoad();
    }

    /**
      The signals that follow a load of the transfer function: its
      transFuncChangedAlpha and transFuncChanged are relayed to the slots,
      then this object emits shadowPropsChanged and volumePropsChanged.
    */
    method AfterLoad()
      requires transFunc != null
      modifies this`signals
      ensures signals == old(signals) + LoadSignals(transFunc in changeSources, transFunc in alphaSources)
    {
      Deliver(transFunc, ChangedAlpha);
      Deliver(transFunc, Changed);
      signals := signals + [ShadowPropsChanged, VolumePropsChanged];
    }
  }

  /**
    The signals this object emits when a transfer function emits `sig`:
    volumePropsChanged for an edit, shadowPropsChanged for an opacity edit,
    each only over an existing connection.
  */
  function Reaction(sig: TfSignal, changeLinked: bool, alphaLinked: bool): (r: seq<PropsSignal>)
    ensures |r| <= 1
    ensures VolumePropsChanged in r <==> sig == Changed && changeLinked
    ensures ShadowPropsChanged in r <==> sig == ChangedAlpha && alphaLinked
  {
    if sig == Changed && changeLinked then [VolumePropsChanged]
    else if sig == ChangedAlpha && alphaLinked then [ShadowPropsChanged]
    else []
  }

  /**
    The signals loading the settings emits: the relayed reactions to the
    transfer function's transFuncChangedAlpha and transFuncChanged, then
    shadowPropsChanged and volumePropsChanged of its own.
  */
  function LoadSignals(changeLinked: bool, alphaLinked: bool): (r: seq<PropsSignal>)
    ensures |r| == 2 + (if changeLinked then 1 else 0) + (if alphaLinked then 1 else 0)
    ensures r[|r| - 2..] == [ShadowPropsChanged, VolumePropsChanged]
    ensures changeLinked && alphaLinked ==>
      r == [ShadowPropsChanged, VolumePropsChanged, ShadowPropsChanged, VolumePropsChanged]
  {
    Reaction(ChangedAlpha, changeLinked, alphaLinked) + Reaction(Changed, changeLinked, alphaLinked) +
    [ShadowPropsChanged, VolumePropsChanged]
  }

  /**
    Saving and loading the settings gives back every setting, and the
    transfer function's size and colours follow them in the stream.
  */
  lemma ProjectRoundTrip(before: seq<Token>, st: Settings, cs: seq<Color>, after: seq<Token>)
    ensures var s := before + SettingsTokens(st) + TfTokens(cs) + after;
      ReadSettings(s, |before|).0 == st &&
      ReadInt(s, |before| + 12).0 == |cs| &&
      ReadColors(s, |before| + 13, |cs|) == cs
  {
    var s := before + SettingsTokens(st) + TfTokens(cs) + after;
    assert s == before + SettingsTokens(st) + (TfTokens(cs) + after);
    SettingsRoundTrip(before, st, TfTokens(cs) + after);
    assert s == (before + SettingsTokens(st)) + TfTokens(cs) + after;
    TfRoundTrip(before + SettingsTokens(st), cs, after);
  }
}
