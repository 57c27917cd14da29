/**
  The volume renderer (class VolumeRenderer): it draws one frame per call to
  `Render` and keeps three pieces of state between frames: whether the
  transfer-function texture must be uploaded again (`tfTexDirty`), whether
  the shadow volume is complete (`shadowVolumeReady`), and a single-shot
  timer that schedules the next shadow step. Each frame runs at most one
  shadow step, before the entry/exit pass and the volume pass. What a frame
  does is recorded in the ghost log `steps`.
*/
module Renderer {
  import opened Colors
  import opened TransFunc
  import Volume
  import RenderProps
  import Shadow

  /** The delay of the shadow timer, in milliseconds. */
  const SHADOW_UPDATE_DELAY := 400

  datatype Step =
    | Clear
    | TfUpload(texture: int, size: int, texels: seq<real>)
    | TimerStop
    | ShadowStep
    | EntryExit
    | VolumePass
    | TimerStart(delay: int)
    | DeleteTexture(name: int)
    | Repaint

  /** The table as 4 * |cs| reals: slot 4k + c holds channel c of entry k. */
  function Texels(cs: seq<Color>): seq<real>
  {
    seq(4 * |cs|, i requires 0 <= i < 4 * |cs| => ChannelF(ChannelOf(cs[i / 4], i % 4)))
  }

  /** The shadow part of a frame: the timer is stopped if running, then one shadow step runs. */
  function ShadowPart(shadowReady: bool, timerActive: bool): seq<Step>
  {
    if shadowReady then [] else (if timerActive then [TimerStop] else []) + [ShadowStep]
  }

  /** The steps of a frame over a ready dataset. */
  function FrameSteps(upload: seq<Step>, shadowReady: bool, timerActive: bool, readyAfter: bool): seq<Step>
  {
    [Clear] + upload + ShadowPart(shadowReady, timerActive) + [EntryExit, VolumePass] + TimerPart(readyAfter)
  }

  /** The end of a frame: the timer is restarted while the shadow volume is incomplete. */
  function TimerPart(readyAfter: bool): seq<Step>
  {
    if readyAfter then [] else [TimerStart(SHADOW_UPDATE_DELAY)]
  }

  /**
    How the transfer-function texture follows the current function: it must
    be uploaded if it was dirty or the function `switched`; a texture without
    a name takes `genName`; if that is GL_INVALID_VALUE nothing is uploaded
    and the texture stays dirty, otherwise the function's texels are uploaded
    and the texture is clean.
  */
  predicate TfTextureFollows(wasDirty: bool, switched: bool, wasTexture: int, genName: int,
                             size: int, texels: seq<real>, dirty: bool, texture: int, upload: seq<Step>)
  {
    var need := wasDirty || switched;
    var name := if wasTexture == Volume.GL_INVALID_VALUE then genName else wasTexture;
    var uploaded := need && name != Volume.GL_INVALID_VALUE;
    texture == (if need then name else wasTexture) &&
    dirty == (need && !uploaded) &&
    upload == (if uploaded then [TfUpload(name, size, texels)] else [])
  }

  /**
    After the update the texture is clean whenever it has a name, whether
    an old one or the one just handed out; a clean texture was uploaded
    only if the function had switched.
  */
  lemma TfTextureClean(wasDirty: bool, switched: bool, wasTexture: int, genName: int,
                       size: int, texels: seq<real>, dirty: bool, texture: int, upload: seq<Step>)
    requires TfTextureFollows(wasDirty, switched, wasTexture, genName, size, texels, dirty, texture, upload)
    ensures texture != Volume.GL_INVALID_VALUE ==> !dirty
    ensures !wasDirty && !switched ==> upload == [] && texture == wasTexture && !dirty
    ensures |upload| <= 1 && forall s :: s in upload ==> s.TfUpload?
  {
  }

  /** A frame appended step by step to a log is the log followed by the frame. */
  lemma FrameAppend(log: seq<Step>, upload: seq<Step>, shadowReady: bool, timerActive: bool, readyAfter: bool)
    ensures log + [Clear] + upload + ShadowPart(shadowReady, timerActive) + [EntryExit, VolumePass] +
      TimerPart(readyAfter) == log + FrameSteps(upload, shadowReady, timerActive, readyAfter)
  {
    var a, b, c := ShadowPart(shadowReady, timerActive), [EntryExit, VolumePass], TimerPart(readyAfter);
    calc {
      log + [Clear] + upload + a + b + c;
      { assert log + [Clear] + upload == log + ([Clear] + upload); }
      log + ([Clear] + upload) + a + b + c;
      { assert log + ([Clear] + upload) + a == log + ([Clear] + upload + a); }
      log + ([Clear] + upload + a) + b + c;
      { assert log + ([Clear] + upload + a) + b == log + ([Clear] + upload + a + b); }
      log + ([Clear] + upload + a + b) + c;
      log + ([Clear] + upload + a + b + c);
    }
  }

  /** How many times step `x` occurs in `s`. */
  function Count(s: seq<Step>, x: Step): nat
  {
    if |s| == 0 then 0 else Count(s[..|s| - 1], x) + (if s[|s| - 1] == x then 1 else 0)
  }

  lemma {:induction false} CountAppend(a: seq<Step>, b: seq<Step>, x: Step)
    ensures Count(a + b, x) == Count(a, x) + Count(b, x)
    decreases |b|
  {
    if |b| > 0 {
      var b' := b[..|b| - 1];
      assert (a + b)[..|a + b| - 1] == a + b';
      CountAppend(a, b', x);
    } else {
      assert a + b == a;
    }
  }

  lemma {:induction false} CountAbsent(s: seq<Step>, x: Step)
    requires x !in s
    ensures Count(s, x) == 0
    decreases |s|
  {
    if |s| > 0 {
      assert forall j :: 0 <= j < |s| - 1 ==> s[..|s| - 1][j] == s[j];
      CountAbsent(s[..|s| - 1], x);
    }
  }

  /**
    A frame over a ready dataset runs exactly one shadow step when the shadow
    volume was incomplete and none otherwise, and exactly one entry/exit pass
    and one volume pass.
  */
  lemma FrameCounts(upload: seq<Step>, shadowReady: bool, timerActive: bool, readyAfter: bool)
    requires forall s :: s in upload ==> s.TfUpload?
    ensures var f := FrameSteps(upload, shadowReady, timerActive, readyAfter);
      Count(f, ShadowStep) == (if shadowReady then 0 else 1) &&
      Count(f, EntryExit) == 1 && Count(f, VolumePass) == 1
  {
    FrameCount(upload, shadowReady, timerActive, readyAfter, ShadowStep);
    FrameCount(upload, shadowReady, timerActive, readyAfter, EntryExit);
    FrameCount(upload, shadowReady, timerActive, readyAfter, VolumePass);
  }

  lemma CountSingle(a: Step, x: Step)
    ensures Count([a], x) == if a == x then 1 else 0
  {
    assert [a][..0] == [];
  }

  /** How often pass `x`, which neither the upload nor the timer emits, occurs in a frame. */
  lemma FrameCount(upload: seq<Step>, shadowReady: bool, timerActive: bool, readyAfter: bool, x: Step)
    requires forall s :: s in upload ==> s.TfUpload?
    requires x == ShadowStep || x == EntryExit || x == VolumePass
    ensures Count(FrameSteps(upload, shadowReady, timerActive, readyAfter), x) ==
      if x == ShadowStep then (if shadowReady then 0 else 1) else 1
  {
    var head, shadow, passes, tail := [Clear] + upload, ShadowPart(shadowReady, timerActive),
      [EntryExit, VolumePass], TimerPart(readyAfter);
    CountFour(head, shadow, passes, tail, x);
    OutsideCount(upload, readyAfter, x);
    PassesCount(x);
    ShadowCount(shadowReady, timerActive, x);
  }

  lemma CountFour(a: seq<Step>, b: seq<Step>, c: seq<Step>, d: seq<Step>, x: Step)
    ensures Count(a + b + c + d, x) == Count(a, x) + Count(b, x) + Count(c, x) + Count(d, x)
  {
    CountAppend(a, b, x);
    CountAppend(a + b, c, x);
    CountAppend(a + b + c, d, x);
  }

  /** The upload and the timer emit none of the three passes. */
  lemma OutsideCount(upload: seq<Step>, readyAfter: bool, x: Step)
    requires forall s :: s in upload ==> s.TfUpload?
    requires x == ShadowStep || x == EntryExit || x == VolumePass
    ensures Count([Clear] + upload, x) == 0 && Count(TimerPart(readyAfter), x) == 0
  {
    assert x !in [Clear] + upload;
    CountAbsent([Clear] + upload, x);
    CountAbsent(TimerPart(readyAfter), x);
  }

  lemma PassesCount(x: Step)
    ensures Count([EntryExit, VolumePass], x) == if x == EntryExit || x == VolumePass then 1 else 0
  {
    assert [EntryExit, VolumePass] == [EntryExit] + [VolumePass];
    CountAppend([EntryExit], [VolumePass], x);
    CountSingle(EntryExit, x);
    CountSingle(VolumePass, x);
  }

  lemma ShadowCount(shadowReady: bool, timerActive: bool, x: Step)
    requires x == ShadowStep || x == EntryExit || x == VolumePass
    ensures Count(ShadowPart(shadowReady, timerActive), x) == if x == ShadowStep && !shadowReady then 1 else 0
  {
    if shadowReady {
      assert ShadowPart(shadowReady, timerActive) == [];
    } else {
      var pre := if timerActive then [TimerStop] else [];
      assert ShadowPart(shadowReady, timerActive) == pre + [ShadowStep];
      if timerActive {
        CountSingle(TimerStop, x);
      }
      CountAppend(pre, [ShadowStep], x);
      CountSingle(ShadowStep, x);
    }
  }

  /**
    Within a frame the shadow step comes directly before the entry/exit
    pass, which comes directly before the volume pass; the frame ends by
    restarting the timer exactly when the shadow volume is still incomplete.
  */
  lemma FrameOrder(upload: seq<Step>, shadowReady: bool, timerActive: bool, readyAfter: bool)
    ensures var f := FrameSteps(upload, shadowReady, timerActive, readyAfter);
      var p := 1 + |upload| + |ShadowPart(shadowReady, timerActive)|;
      p + 1 < |f| && f[p] == EntryExit && f[p + 1] == VolumePass &&
      (!shadowReady ==> f[p - 1] == ShadowStep) &&
      (f[|f| - 1] == TimerStart(SHADOW_UPDATE_DELAY) <==> !readyAfter)
  {
    var head := [Clear] + upload + ShadowPart(shadowReady, timerActive);
    var tail := TimerPart(readyAfter);
    var f := FrameSteps(upload, shadowReady, timerActive, readyAfter);
    assert f == head + [EntryExit, VolumePass] + tail;
    assert |head| == 1 + |upload| + |ShadowPart(shadowReady, timerActive)|;
    if !shadowReady {
      assert head[|head| - 1] == ShadowStep;
    }
  }

  class VolumeRenderer {
    const dataset: Volume.VolumeData
    const renderProps: RenderProps.VolumeRenderProps
    const shadowRenderer: Shadow.ShadowRenderer
    var volumeTexture: int
    /** The transfer function the texture was last taken from. */
    var transFunc: TransferFunction?
    var transFuncTexture: int
    var tfTexDirty: bool
    var width: int
    var height: int
    var shadowVolumeReady: bool
    /** Whether the single-shot shadow timer is running. */
    var timerActive: bool
    /** The steps taken so far, oldest first. */
    ghost var steps: seq<Step>

    ghost predicate Valid()
      reads this, shadowRenderer
    {
      shadowRenderer.Valid()
    }

    /**
      Takes the dataset and settings, creates the shadow renderer with the
      sine function `sinFn`, and uploads the volume texture if the dataset is
      ready (as `DatasetChanged` does, with `genName` as the new texture's name).
    */
    constructor (data: Volume.VolumeData, props: RenderProps.VolumeRenderProps, w: int, h: int,
                 sinFn: real -> real, genName: int)
      requires data.Valid()
      requires forall t :: 0.0 <= t <= Shadow.PI ==> 0.0 <= sinFn(t) <= 1.0
      modifies data`byteCount, data`uploads
      ensures Valid() && fresh(shadowRenderer)
      ensures dataset == data && renderProps == props && width == w && height == h
      ensures transFunc == null && tfTexDirty && transFuncTexture == Volume.GL_INVALID_VALUE
      ensures !timerActive
      ensures shadowVolumeReady == !old(data.ready)
      ensures volumeTexture == if old(data.ready) then genName else Volume.GL_INVALID_VALUE
      ensures !old(data.ready) ==> unchanged(data)
      ensures old(data.ready) ==>
        data.byteCount == (if old(data.byteCount) in {1, 2, 4} then old(data.byteCount) else 1) &&
        data.uploads == old(data.uploads) +
          [Volume.TexUpload(genName, data.properties.width, data.properties.height, data.properties.depth,
                            Volume.TexelOf(old(data.byteCount)), data.data[..])]
    {
      dataset := data;
      renderProps := props;
      volumeTexture := Volume.GL_INVALID_VALUE;
      transFunc := null;
      transFuncTexture := Volume.GL_INVALID_VALUE;
      tfTexDirty := true;
      width, height := w, h;
      shadowRenderer := new Shadow.ShadowRenderer(sinFn);
      shadowVolumeReady := true;
      timerActive := false;
      steps := [];
      new;
      DatasetChanged(genName);
    }

    /**
      Switches to `tf` if it is another function (which marks the texture
      dirty) and uploads the texture if it is dirty. A texture name is
      obtained first if there is none; `genName` is the name the driver hands
      out, and if that is GL_INVALID_VALUE nothing is uploaded and the texture
      stays dirty.
    */
    method UpdateTransFuncFrom(tf: TransferFunction, genName: int) returns (ghost upload: seq<Step>)
      requires tf.Valid()
      modifies this`transFunc, this`tfTexDirty, this`transFuncTexture, this`steps
      ensures transFunc == tf
      ensures var dirty := old(tfTexDirty) || old(transFunc) != tf;
        var texture := if old(transFuncTexture) == Volume.GL_INVALID_VALUE then genName else old(transFuncTexture);
        var uploaded := dirty && texture != Volume.GL_INVALID_VALUE;
        (dirty ==> transFuncTexture == texture) &&
        (!dirty ==> transFuncTexture == old(transFuncTexture)) &&
        tfTexDirty == (dirty && !uploaded) &&
        upload == (if uploaded then [TfUpload(texture, tf.size, Texels(tf.colors[..]))] else []) &&
        steps == old(steps) + upload
      ensures TfTextureFollows(old(tfTexDirty), old(transFunc) != tf, old(transFuncTexture), genName,
                               tf.size, Texels(tf.colors[..]), tfTexDirty, transFuncTexture, upload)
    {
      upload := [];
      if transFunc != tf {
        transFunc := tf;
        tfTexDirty := true;
      }
      if tfTexDirty {
        if transFuncTexture == Volume.GL_INVALID_VALUE {
          transFuncTexture := genName;
          if transFuncTexture == Volume.GL_INVALID_VALUE {
            return;
          }
        }
        var data := tf.ToData();
        assert data[..] == Texels(tf.colors[..]) by {
          forall i | 0 <= i < data.Length
            ensures data[i] == Texels(tf.colors[..])[i]
          {
            assert i == 4 * (i / 4) + i % 4;
          }
        }
        upload := [TfUpload(transFuncTexture, tf.size, data[..])];
        steps := steps + upload;
        tfTexDirty := false;
      }
    }

    /**
      Draws one frame. Without a ready dataset the frame only clears the
      screen. Otherwise the transfer-function texture is brought up to date;
      if the shadow volume is incomplete, a running timer is stopped and one
      shadow step runs, whose result says whether the shadow volume is now
      complete; then the entry/exit and volume passes run, and the timer is
      restarted if the shadow volume is still incomplete.
    */
    method Render(tfGenName: int) returns (ghost upload: seq<Step>)
      requires Valid()
      requires dataset.ready ==> renderProps.transFunc != null && renderProps.transFunc.Valid()
      requires dataset.ready ==> renderProps.shadowDimin != 0
      modifies this`transFunc, this`tfTexDirty, this`transFuncTexture, this`steps,
        this`shadowVolumeReady, this`timerActive,
        shadowRenderer`width, shadowRenderer`height, shadowRenderer`depth, shadowRenderer`allocations,
        shadowRenderer`passes, shadowRenderer`scatteringTheta, shadowRenderer`scatteringPhi
      ensures Valid()
      ensures !dataset.ready ==>
        steps == old(steps) + [Clear] && shadowVolumeReady == old(shadowVolumeReady) &&
        timerActive == old(timerActive) && tfTexDirty == old(tfTexDirty) && transFunc == old(transFunc) &&
        unchanged(shadowRenderer)
      ensures dataset.ready ==>
        transFunc == renderProps.transFunc &&
        (forall s :: s in upload ==> s.TfUpload?) && |upload| <= 1 &&
        steps == old(steps) + FrameSteps(upload, old(shadowVolumeReady), old(timerActive), shadowVolumeReady) &&
        (old(shadowVolumeReady) ==> shadowVolumeReady && unchanged(shadowRenderer)) &&
        timerActive == (if old(shadowVolumeReady) then old(timerActive) else !shadowVolumeReady)
      ensures dataset.ready ==>
        var tf := renderProps.transFunc;
        TfTextureFollows(old(tfTexDirty), old(transFunc) != tf, old(transFuncTexture), tfGenName,
                         tf.size, Texels(tf.colors[..]), tfTexDirty, transFuncTexture, upload)
      ensures dataset.ready && !old(shadowVolumeReady) ==>
        shadowRenderer.Stepped(dataset, renderProps, shadowVolumeReady)
    {
      steps := steps + [Clear];
      upload := [];
      if !dataset.ready {
        return;
      }
      upload := DrawFrame(tfGenName);
      FrameAppend(old(steps), upload, old(shadowVolumeReady), old(timerActive), shadowVolumeReady);
    }

    /** The part of a frame that follows the clear, over a ready dataset. */
    method DrawFrame(tfGenName: int) returns (ghost upload: seq<Step>)
      requires Valid() && dataset.ready
      requires renderProps.transFunc != null && renderProps.transFunc.Valid()
      requires renderProps.shadowDimin != 0
      modifies this`transFunc, this`tfTexDirty, this`transFuncTexture, this`steps,
        this`shadowVolumeReady, this`timerActive,
        shadowRenderer`width, shadowRenderer`height, shadowRenderer`depth, shadowRenderer`allocations,
        shadowRenderer`passes, shadowRenderer`scatteringTheta, shadowRenderer`scatteringPhi
      ensures Valid()
      ensures transFunc == renderProps.transFunc
      ensures forall s :: s in upload ==> s.TfUpload?
      ensures |upload| <= 1
      ensures steps == old(steps) + upload + ShadowPart(old(shadowVolumeReady), old(timerActive)) +
        [EntryExit, VolumePass] + TimerPart(shadowVolumeReady)
      ensures old(shadowVolumeReady) ==> shadowVolumeReady && unchanged(shadowRenderer)
      ensures timerActive == (if old(shadowVolumeReady) then old(timerActive) else !shadowVolumeReady)
      ensures var tf := renderProps.transFunc;
        TfTextureFollows(old(tfTexDirty), old(transFunc) != tf, old(transFuncTexture), tfGenName,
                         tf.size, Texels(tf.colors[..]), tfTexDirty, transFuncTexture, upload)
      ensures !old(shadowVolumeReady) ==> shadowRenderer.Stepped(dataset, renderProps, shadowVolumeReady)
    {
      upload := UpdateTransFuncFrom(renderProps.transFunc, tfGenName);
      assert |upload| <= 1 && forall s :: s in upload ==> s.TfUpload?;
      ghost var wasReady, wasActive := shadowVolumeReady, timerActive;
      ghost var mid := steps;
      StepShadow();
      ghost var shadow := ShadowPart(wasReady, wasActive);
      steps := steps + [EntryExit, VolumePass];
      ghost var tail := TimerPart(shadowVolumeReady);
      if !shadowVolumeReady {
        timerActive := true;
        steps := steps + [TimerStart(SHADOW_UPDATE_DELAY)];
      }
      assert steps == mid + shadow + [EntryExit, VolumePass] + tail;
    }

    /**
      The shadow part of a frame: if the shadow volume is incomplete, a
      running timer is stopped and one shadow step runs, whose result says
      whether the shadow volume is now complete.
    */
    method StepShadow()
      requires Valid() && dataset.ready && renderProps.shadowDimin != 0
      modifies this`steps, this`shadowVolumeReady, this`timerActive,
        shadowRenderer`width, shadowRenderer`height, shadowRenderer`depth, shadowRenderer`allocations,
        shadowRenderer`passes, shadowRenderer`scatteringTheta, shadowRenderer`scatteringPhi
      ensures Valid()
      ensures steps == old(steps) + ShadowPart(old(shadowVolumeReady), old(timerActive))
      ensures old(shadowVolumeReady) ==> shadowVolumeReady && timerActive == old(timerActive) && unchanged(shadowRenderer)
      ensures !old(shadowVolumeReady) ==> !timerActive
      ensures !old(shadowVolumeReady) ==> shadowRenderer.Stepped(dataset, renderProps, shadowVolumeReady)
    {
      if !shadowVolumeReady {
        if timerActive {
          timerActive := false;
          steps := steps + [TimerStop];
        }
        shadowVolumeReady := shadowRenderer.UpdateShadowVolume(dataset, renderProps);
        steps := steps + [ShadowStep];
      }
    }

    /**
      Replaces the volume texture by a new one made from the dataset and
      marks the shadow volume incomplete. A dataset that is not ready changes
      nothing.
    */
    method DatasetChanged(genName: int)
      requires dataset.Valid()
      modifies this`volumeTexture, this`shadowVolumeReady, this`steps, dataset`byteCount, dataset`uploads
      ensures dataset.Valid()
      ensures !old(dataset.ready) ==>
        volumeTexture == old(volumeTexture) && shadowVolumeReady == old(shadowVolumeReady) &&
        steps == old(steps) && unchanged(dataset)
      ensures old(dataset.ready) ==>
        volumeTexture == genName && !shadowVolumeReady &&
        steps == old(steps) + (if old(volumeTexture) != Volume.GL_INVALID_VALUE then [DeleteTexture(old(volumeTexture))] else [])
      ensures old(dataset.ready) ==>
        dataset.byteCount == (if old(dataset.byteCount) in {1, 2, 4} then old(dataset.byteCount) else 1) &&
        dataset.uploads == old(dataset.uploads) +
          [Volume.TexUpload(genName, dataset.properties.width, dataset.properties.height, dataset.properties.depth,
                            Volume.TexelOf(old(dataset.byteCount)), dataset.data[..])]
    {
      if !dataset.ready {
        return;
      }
      if volumeTexture != Volume.GL_INVALID_VALUE {
        steps := steps + [DeleteTexture(volumeTexture)];
      }
      volumeTexture := dataset.CreateTexture(genName);
      shadowVolumeReady := false;
    }

    /** Aborts the running sweep and starts the timer unless it is already running. */
    method ShadowPropsChanged()
      requires Valid()
      modifies this`timerActive, this`steps, shadowRenderer`scatteringTheta, shadowRenderer`scatteringPhi
      ensures Valid()
      ensures shadowRenderer.scatteringTheta == 0.0 && shadowRenderer.scatteringPhi == 0.0
      ensures timerActive
      ensures steps == old(steps) + (if old(timerActive) then [] else [TimerStart(SHADOW_UPDATE_DELAY)])
    {
      shadowRenderer.ShadowPropsChanged();
      if !timerActive {
        timerActive := true;
        steps := steps + [TimerStart(SHADOW_UPDATE_DELAY)];
      }
    }

    /** Marks the shadow volume incomplete and asks for a repaint. */
    method ActualShadowUpdate()
      modifies this`shadowVolumeReady, this`steps
      ensures !shadowVolumeReady && steps == old(steps) + [Repaint]
    {
      shadowVolumeReady := false;
      steps := steps + [Repaint];
    }

    /** The single-shot timer fires: it stops and triggers a shadow update. */
    method TimerTimeout()
      requires timerActive
      modifies this`timerActive, this`shadowVolumeReady, this`steps
      ensures !timerActive && !shadowVolumeReady && steps == old(steps) + [Repaint]
    {
      timerActive := false;
      ActualShadowUpdate();
    }

    /** Any edit of the transfer function makes its texture stale. */
    method TransFuncChanged()
      modifies this`tfTexDirty
      ensures tfTexDirty
    {
      tfTexDirty := true;
    }

    method ResizeCanvas(w: int, h: int)
      modifies this`width, this`height
      ensures width == w && height == h
    {
      width, height := w, h;
    }
  }
}
