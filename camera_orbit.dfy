/** The camera: an idle orbit that advances its azimuth every frame, and the
    one-way switch to a scripted flight towards the batter. */
module CameraOrbit {
  import opened Babylon

  /** Radians added to the camera's alpha by the orbit observer each frame. */
  const ORBIT_STEP: real := 0.001
  /** POSITIONS.batterCam: where the flight ends. */
  const BATTER_CAM: Vec3 := Vec3(-15.0, 4.0, 0.0)
  /** The point the camera looks at once engaged. */
  const BATTER_TARGET: Vec3 := Vec3(0.0, 2.0, 0.0)
  /** Last frame of the flight animation (it starts at frame 0). */
  const FLY_LAST_FRAME: nat := 30

  /** Whether the orbit observer still runs. */
  datatype Phase = IdleOrbit | Engaged

  /** The phase of a scene whose camera has been created: idle while the
      orbit observer is registered, engaged once it has been cleared. */
  function PhaseOf(scene: Scene): Phase
    reads scene
  {
    if scene.orbitCamera == null then Engaged else IdleOrbit
  }

  /** createCamera: an arc-rotate camera looking at (0, 12, 0) from radius 60,
      with alpha turned to PI and an observer that orbits it every frame. */
  method CreateCamera(scene: Scene) returns (camera: ArcCamera)
    modifies scene`orbitCamera
    ensures fresh(camera)
    ensures camera.alpha == PI && camera.beta == 1.2 && camera.radius == 60.0
    ensures camera.target == Vec3(0.0, 12.0, 0.0) && camera.fov == 1.2 && camera.animations == []
    ensures scene.orbitCamera == camera && PhaseOf(scene) == IdleOrbit
  {
    camera := new ArcCamera(0.0, 1.2, 60.0, Vec3(0.0, 12.0, 0.0));
    camera.fov := 1.2;
    camera.alpha := PI;
    scene.orbitCamera := camera;
  }

  /** A camera's alpha after one frame, orbiting or not. */
  function FrameAlpha(phase: Phase, alpha: real): real
  {
    if phase == IdleOrbit then alpha + ORBIT_STEP else alpha
  }

  /** A camera's alpha after `n` frames in `phase`. */
  function AlphaAfter(phase: Phase, alpha: real, n: nat): real
    decreases n
  {
    if n == 0 then alpha else AlphaAfter(phase, FrameAlpha(phase, alpha), n - 1)
  }

  /** One scene.render(), as far as the core is concerned: the before-render
      observer, while registered, advances its camera's alpha. */
  method RenderFrame(scene: Scene)
    modifies scene.orbitCamera
    ensures scene.orbitCamera == old(scene.orbitCamera)
    ensures scene.orbitCamera != null ==>
      scene.orbitCamera.alpha == FrameAlpha(IdleOrbit, old(scene.orbitCamera.alpha))
    ensures scene.orbitCamera != null ==> unchanged(scene.orbitCamera`beta, scene.orbitCamera`radius,
      scene.orbitCamera`target, scene.orbitCamera`position, scene.orbitCamera`fov, scene.orbitCamera`animations)
  {
    var camera := scene.orbitCamera;
    if camera != null {
      camera.alpha := camera.alpha + ORBIT_STEP;
    }
  }

  /** One more frame applies the one-frame update to the alpha after n frames. */
  lemma {:induction false} AlphaAfterOneMore(phase: Phase, alpha: real, n: nat)
    ensures AlphaAfter(phase, alpha, n + 1) == FrameAlpha(phase, AlphaAfter(phase, alpha, n))
    decreases n
  {
    if n > 0 {
      AlphaAfterOneMore(phase, FrameAlpha(phase, alpha), n - 1);
    }
  }

  /** `n` successive scene.render() calls, as the engine's render loop makes
      them. The orbit observer, if registered, belongs to `camera`. */
  method RenderFrames(scene: Scene, camera: ArcCamera, n: nat)
    requires scene.orbitCamera == null || scene.orbitCamera == camera
    modifies camera
    ensures scene.orbitCamera == old(scene.orbitCamera)
    ensures camera.alpha == AlphaAfter(PhaseOf(scene), old(camera.alpha), n)
    ensures PhaseOf(scene) == IdleOrbit ==> camera.alpha == old(camera.alpha) + n as real * ORBIT_STEP
    ensures PhaseOf(scene) == Engaged ==> camera.alpha == old(camera.alpha)
    ensures unchanged(camera`beta, camera`radius, camera`target, camera`position, camera`fov, camera`animations)
  {
    var i := 0;
    while i < n
      invariant 0 <= i <= n
      invariant scene.orbitCamera == old(scene.orbitCamera)
      invariant camera.alpha == AlphaAfter(PhaseOf(scene), old(camera.alpha), i)
      invariant unchanged(camera`beta, camera`radius, camera`target, camera`position, camera`fov, camera`animations)
    {
      AlphaAfterOneMore(PhaseOf(scene), old(camera.alpha), i);
      RenderFrame(scene);
      i := i + 1;
    }
    IdleOrbitAlpha(old(camera.alpha), n);
    EngagedAlphaHolds(old(camera.alpha), n);
  }

  /** Idle orbit: after n frames from alpha, the azimuth is alpha + n * 0.001. */
  lemma {:induction false} IdleOrbitAlpha(alpha: real, n: nat)
    ensures AlphaAfter(IdleOrbit, alpha, n) == alpha + n as real * ORBIT_STEP
    decreases n
  {
    if n > 0 {
      IdleOrbitAlpha(alpha + ORBIT_STEP, n - 1);
    }
  }

  /** Once engaged, no number of frames moves the azimuth. */
  lemma {:induction false} EngagedAlphaHolds(alpha: real, n: nat)
    ensures AlphaAfter(Engaged, alpha, n) == alpha
    decreases n
  {
    if n > 0 {
      EngagedAlphaHolds(alpha, n - 1);
    }
  }

  /** From the initial PI, a hundred idle frames give PI + 0.1. */
  lemma HundredIdleFrames()
    ensures AlphaAfter(IdleOrbit, PI, 100) == PI + 0.1
  {
    IdleOrbitAlpha(PI, 100);
  }

  /** The flight animation built by flyToBatter. */
  function FlyAnimation(from: Vec3): (a: Animation)
    ensures Tweens(a, from, BATTER_CAM, FLY_LAST_FRAME) && |a.keys| == 2
    ensures a.targetProperty == "position" && a.loopMode == Constant
  {
    Animation("flyToBatter", "position", 60, Constant,
      [Keyframe(0, from), Keyframe(FLY_LAST_FRAME, BATTER_CAM)])
  }

  /** flyToBatter: replace the camera's animations by one flight from its
      current position to the batter camera position, stop the orbit for
      good, look at (0, 2, 0) and play the flight once over frames 0 to 30. */
  method FlyToBatter(camera: ArcCamera, scene: Scene)
    modifies camera, scene`orbitCamera, scene`playbacks
    ensures camera.animations == [FlyAnimation(old(camera.position))]
    ensures scene.orbitCamera == null && PhaseOf(scene) == Engaged
    ensures camera.target == BATTER_TARGET
    ensures camera.position == old(camera.position) && camera.fov == old(camera.fov)
    ensures old(camera.target) == BATTER_TARGET ==>
      camera.alpha == old(camera.alpha) && camera.beta == old(camera.beta) && camera.radius == old(camera.radius)
    ensures scene.playbacks == old(scene.playbacks) + [Playback(camera, 0, FLY_LAST_FRAME, false)]
  {
    var flyAnimation := FlyAnimation(camera.position);
    camera.animations := [];
    camera.animations := camera.animations + [flyAnimation];
    scene.ClearBeforeRender();
    camera.SetTarget(BATTER_TARGET);
    scene.BeginAnimation(camera, 0, FLY_LAST_FRAME, false);
  }
}
