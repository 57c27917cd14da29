/**
  The camera (class Camera): a point of view, a distance to it (the zoom) and
  a rotation that places the eye on the sphere around the point of view.
  The view and projection matrices are caches that the getters recompute
  only when a mutator has marked them dirty. The matrices are modelled by
  the arguments they are built from (QMatrix4x4's lookAt, perspective and
  ortho are library code).
*/
module Cameras {
  import opened Geometry

  const MIN_ZOOM: real := 0.8
  const MAX_ZOOM: real := 20.0

  /** The cached view matrix: the identity of a fresh QMatrix4x4, or a lookAt. */
  datatype ViewMatrix = ViewIdentity | LookAt(eye: Vec3, center: Vec3, up: Vec3)

  /** The cached projection matrix: the identity, a perspective or an orthographic box. */
  datatype ProjMatrix =
    | ProjIdentity
    | Perspective(fov: real, aspect: real, near: real, far: real)
    | Ortho(left: real, right: real, bottom: real, top: real, near: real, far: real)

  /** The zoom after adding `d`, held inside [MIN_ZOOM, MAX_ZOOM]. */
  function ZoomedBy(zoom: real, d: real): (z: real)
    ensures MIN_ZOOM <= z <= MAX_ZOOM
    ensures MIN_ZOOM <= zoom + d <= MAX_ZOOM ==> z == zoom + d
    ensures zoom + d < MIN_ZOOM ==> z == MIN_ZOOM
    ensures zoom + d > MAX_ZOOM ==> z == MAX_ZOOM
  {
    if zoom + d < MIN_ZOOM then MIN_ZOOM
    else if zoom + d > MAX_ZOOM then MAX_ZOOM
    else zoom + d
  }

  /** Zooming by zero keeps a zoom that is already in range. */
  lemma ZoomByZero(zoom: real)
    requires MIN_ZOOM <= zoom <= MAX_ZOOM
    ensures ZoomedBy(zoom, 0.0) == zoom
  {
  }

  /**
    The point of view after a translation by `v`: the z component is
    dropped, the delta is scaled by zoom/2 when the zoom exceeds 1, and the
    point of view moves against the rotated delta.
  */
  function Translated(pov: Vec3, rotation: Quat, zoom: real, v: Vec3): Vec3
  {
    var flat := Vec3(v.x, v.y, 0.0);
    var delta := if zoom > 1.0 then Scale(flat, zoom / 2.0) else flat;
    Sub(pov, Rotated(rotation, delta))
  }

  /** A translation ignores the z component of its delta. */
  lemma TranslateIgnoresZ(pov: Vec3, rotation: Quat, zoom: real, v: Vec3, z: real)
    ensures Translated(pov, rotation, zoom, v) == Translated(pov, rotation, zoom, Vec3(v.x, v.y, z))
  {
  }

  /** Moving up by `zoom` along the z axis. */
  lemma ShiftUp(r: Vec3, pov: Vec3, zoom: real)
    requires r == Vec3(0.0, 0.0, zoom)
    ensures Add(r, pov) == Vec3(pov.x, pov.y, pov.z + zoom)
  {
  }

  /**
    The rotation after `rotate(q)`: q's scalar with q's vector part carried
    into the current frame, applied before the current rotation.
  */
  function RotatedBy(rotation: Quat, q: Quat): Quat
  {
    var v := Rotated(rotation, VectorPart(q));
    Mul(Quat(q.w, v.x, v.y, v.z), rotation)
  }

  /** Rotating by the identity quaternion keeps the rotation. */
  lemma RotateByIdentity(rotation: Quat)
    ensures RotatedBy(rotation, IdentityQuat) == rotation
  {
    RotatedOrigin(rotation);
    assert Mul(IdentityQuat, rotation) == rotation;
  }

  /** The eye: the point at distance `zoom` along the rotated z axis from the point of view. */
  function EyePosition(pov: Vec3, rotation: Quat, zoom: real): (eye: Vec3)
    ensures zoom == 0.0 ==> eye == pov
  {
    RotatedOrigin(rotation);
    Add(Rotated(rotation, Vec3(0.0, 0.0, zoom)), pov)
  }

  /** Without rotation the eye sits `zoom` above the point of view on the z axis. */
  lemma EyeUnrotated(pov: Vec3, zoom: real)
    ensures EyePosition(pov, IdentityQuat, zoom) == Vec3(pov.x, pov.y, pov.z + zoom)
  {
    var u := Vec3(0.0, 0.0, zoom);
    RotatedByIdentity(u);
    ShiftUp(Rotated(IdentityQuat, u), pov, zoom);
  }

  /** The view matrix a recompute produces: look from the eye at the point of view, rotated y up. */
  function ViewOf(pov: Vec3, rotation: Quat, zoom: real): ViewMatrix
  {
    LookAt(EyePosition(pov, rotation, zoom), pov, Rotated(rotation, Vec3(0.0, 1.0, 0.0)))
  }

  /**
    The orthographic box for a zoom and an aspect ratio: the shorter side of
    the frame spans [-zoom, zoom], the longer one is stretched by the aspect
    ratio, and the near and far planes are scaled by 1/zoom and zoom.
  */
  function OrthoOf(zoom: real, aspect: real, near: real, far: real): ProjMatrix
    requires zoom > 0.0 && aspect > 0.0
  {
    var w := 1.0 * zoom;
    if aspect < 1.0 then Ortho(-w, w, -w / aspect, w / aspect, near / w, far * w)
    else Ortho(-w * aspect, w * aspect, -w, w, near / w, far * w)
  }

  /**
    The orthographic box is centred, has the frame's aspect ratio, and its
    shorter side is exactly 2 * zoom long.
  */
  lemma OrthoShape(zoom: real, aspect: real, near: real, far: real)
    requires zoom > 0.0 && aspect > 0.0
    ensures var o := OrthoOf(zoom, aspect, near, far);
      o.Ortho? && o.left == -o.right && o.bottom == -o.top &&
      o.right - o.left == aspect * (o.top - o.bottom) &&
      (if aspect < 1.0 then o.right - o.left == 2.0 * zoom else o.top - o.bottom == 2.0 * zoom) &&
      o.near * zoom == near && o.far == far * zoom
  {
    var o := OrthoOf(zoom, aspect, near, far);
    if aspect < 1.0 {
      var h := zoom / aspect;
      assert h * aspect == zoom;
      assert o.top - o.bottom == 2.0 * h;
    }
    var n := near / zoom;
    assert n * zoom == near;
  }

  /** The projection matrix a recompute produces. */
  function ProjOf(perspective: bool, fov: real, aspect: real, near: real, far: real, zoom: real): ProjMatrix
    requires zoom > 0.0 && aspect > 0.0
  {
    if perspective then Perspective(fov, aspect, near, far) else OrthoOf(zoom, aspect, near, far)
  }

  /** A perspective projection does not depend on the zoom. */
  lemma PerspectiveIgnoresZoom(fov: real, aspect: real, near: real, far: real, z1: real, z2: real)
    requires z1 > 0.0 && z2 > 0.0 && aspect > 0.0
    ensures ProjOf(true, fov, aspect, near, far, z1) == ProjOf(true, fov, aspect, near, far, z2)
  {
  }

  class Camera {
    var pov: Vec3
    var rotation: Quat
    var zoom: real
    var nearPlane: real
    var farPlane: real
    var fov: real
    var aspect: real
    var perspective: bool
    var viewMatDirty: bool
    var projMatDirty: bool
    var viewMat: ViewMatrix
    var projMat: ProjMatrix

    /**
      The zoom stays in range, the aspect ratio is positive, and a cache
      that is not dirty holds exactly what a recompute would produce.
    */
    ghost predicate Valid()
      reads this
    {
      MIN_ZOOM <= zoom <= MAX_ZOOM && aspect > 0.0 &&
      (!viewMatDirty ==> viewMat == ViewOf(pov, rotation, zoom)) &&
      (!projMatDirty ==> projMat == ProjOf(perspective, fov, aspect, nearPlane, farPlane, zoom))
    }

    /**
      A camera at its reset position with aspect 1 and an orthographic
      projection with near 0.01, far 10 and field of view 45.
    */
    constructor ()
      ensures zoom == 2.0 && pov == Origin && rotation == IdentityQuat
      ensures aspect == 1.0 && !perspective && nearPlane == 0.01 && farPlane == 10.0 && fov == 45.0
      ensures viewMatDirty && projMatDirty
      ensures viewMat == ViewIdentity && projMat == ProjIdentity
      ensures Valid()
    {
      viewMat := ViewIdentity;
      projMat := ProjIdentity;
      zoom := 2.0;
      pov := Origin;
      rotation := IdentityQuat;
      viewMatDirty, projMatDirty := true, true;
      aspect := 1.0;
      perspective := false;
      nearPlane, farPlane := 0.01, 10.0;
      fov := 45.0;
    }

    /** Moves the point of view in the camera's xy-plane; only pov and the view flag change. */
    method Translate(v: Vec3)
      requires Valid()
      modifies this`pov, this`viewMatDirty
      ensures Valid()
      ensures pov == Translated(old(pov), rotation, zoom, v)
      ensures viewMatDirty
    {
      var flat := Vec3(v.x, v.y, 0.0);
      if zoom > 1.0 {
        flat := Scale(flat, zoom / 2.0);
      }
      pov := Sub(pov, Rotated(rotation, flat));
      viewMatDirty := true;
    }

    /**
      Adds `d` to the zoom and clamps it to [MIN_ZOOM, MAX_ZOOM]; the view is
      marked dirty, and the projection too when it is orthographic.
    */
    method ZoomDelta(d: real)
      requires Valid()
      modifies this`zoom, this`viewMatDirty, this`projMatDirty
      ensures Valid()
      ensures zoom == ZoomedBy(old(zoom), d)
      ensures viewMatDirty
      ensures projMatDirty == (old(projMatDirty) || !perspective)
    {
      zoom := zoom + d;
      if zoom < MIN_ZOOM {
        zoom := MIN_ZOOM;
      } else if zoom > MAX_ZOOM {
        zoom := MAX_ZOOM;
      }
      if !perspective {
        projMatDirty := true;
      }
      viewMatDirty := true;
    }

    /** Applies the rotation `q`; only the rotation and the view flag change. */
    method Rotate(q: Quat)
      requires Valid()
      modifies this`rotation, this`viewMatDirty
      ensures Valid()
      ensures rotation == RotatedBy(old(rotation), q)
      ensures viewMatDirty
    {
      var v := Rotated(rotation, VectorPart(q));
      rotation := Mul(Quat(q.w, v.x, v.y, v.z), rotation);
      viewMatDirty := true;
    }

    /** Takes the frame's aspect ratio and marks the projection dirty. */
    method ResizeFrame(width: int, height: int)
      requires Valid()
      requires width > 0 && height > 0
      modifies this`aspect, this`projMatDirty
      ensures Valid()
      ensures aspect == width as real / height as real
      ensures projMatDirty
    {
      aspect := width as real / height as real;
      projMatDirty := true;
    }

    /**
      Sets the projection mode and planes; a field of view that is not
      positive keeps the old one. The projection is marked dirty.
    */
    method SetProjection(persp: bool, near: real, far: real, newFov: real)
      requires Valid()
      modifies this`perspective, this`nearPlane, this`farPlane, this`fov, this`projMatDirty
      ensures Valid()
      ensures perspective == persp && nearPlane == near && farPlane == far
      ensures fov == if newFov > 0.0 then newFov else old(fov)
      ensures projMatDirty
    {
      perspective := persp;
      nearPlane := near;
      farPlane := far;
      if newFov > 0.0 {
        fov := newFov;
      }
      projMatDirty := true;
    }

    /** Back to zoom 2 at the origin without rotation; both matrices are marked dirty. */
    method ResetPosition()
      requires Valid()
      modifies this`zoom, this`pov, this`rotation, this`viewMatDirty, this`projMatDirty
      ensures Valid()
      ensures zoom == 2.0 && pov == Origin && rotation == IdentityQuat
      ensures viewMatDirty && projMatDirty
    {
      zoom := 2.0;
      pov := Origin;
      rotation := IdentityQuat;
      viewMatDirty, projMatDirty := true, true;
    }

    /**
      Returns the view matrix, recomputing it only when it is dirty. The
      result is always the view of the current pose, and the cache is clean
      afterwards, so a second call returns the same matrix.
    */
    method GetViewMatrix() returns (m: ViewMatrix)
      requires Valid()
      modifies this`viewMat, this`viewMatDirty
      ensures Valid() && !viewMatDirty && m == viewMat
      ensures m == ViewOf(pov, rotation, zoom)
      ensures !old(viewMatDirty) ==> viewMat == old(viewMat)
    {
      if viewMatDirty {
        viewMat := LookAt(EyePosition(pov, rotation, zoom), pov, Rotated(rotation, Vec3(0.0, 1.0, 0.0)));
        viewMatDirty := false;
      }
      m := viewMat;
    }

    /**
      Returns the projection matrix, recomputing it only when it is dirty:
      a perspective one, or the orthographic box for the current zoom and
      aspect ratio. The cache is clean afterwards.
    */
    method GetProjectionMatrix() returns (m: ProjMatrix)
      requires Valid()
      modifies this`projMat, this`projMatDirty
      ensures Valid() && !projMatDirty && m == projMat
      ensures m == ProjOf(perspective, fov, aspect, nearPlane, farPlane, zoom)
      ensures !old(projMatDirty) ==> projMat == old(projMat)
    {
      if projMatDirty {
        projMat := ProjOf(perspective, fov, aspect, nearPlane, farPlane, zoom);
        projMatDirty := false;
      }
      m := projMat;
    }
  }

  /** Two reads of the view matrix with no mutator in between give the same matrix. */
  method ViewReadsAgree(c: Camera) returns (m1: ViewMatrix, m2: ViewMatrix)
    requires c.Valid()
    modifies c`viewMat, c`viewMatDirty
    ensures m1 == m2
  {
    m1 := c.GetViewMatrix();
    m2 := c.GetViewMatrix();
  }
}
