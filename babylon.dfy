/** The pieces of the Babylon.js engine that the scene code reads and writes,
    reduced to the state it touches: vectors, Scalar.Clamp, keyframed
    animations as data, and the mesh, arc-rotate camera and scene objects.
    Numbers are `real`: the engine's doubles are not modelled bit for bit. */
module Babylon {

  /** Math.PI, written as the shortest decimal of the double it denotes. */
  const PI: real := 3.141592653589793

  /** BABYLON.Vector3. The source only ever copies these (clone()) or
      assigns whole components, so a value type is enough. */
  datatype Vec3 = Vec3(x: real, y: real, z: real)

  /** BABYLON.Scalar.Clamp(value, min, max), i.e. Math.min(max, Math.max(min, value)). */
  function Clamp(value: real, min: real, max: real): (r: real)
    ensures min <= max ==> min <= r <= max
    ensures min <= value <= max ==> r == value
    ensures min <= max && value < min ==> r == min
    ensures max < value ==> r == max
  {
    var raised := if min < value then value else min;
    if raised < max then raised else max
  }

  /** BABYLON.Animation.ANIMATIONLOOPMODE_*: what happens after the last key. */
  datatype LoopMode = Relative | Cycle | Constant | Yoyo

  /** One entry of Animation.setKeys: a value pinned to a frame. */
  datatype Keyframe = Keyframe(frame: nat, value: Vec3)

  /** A BABYLON.Animation of a Vector3 property, with its keys. */
  datatype Animation = Animation(
    name: string,
    targetProperty: string,
    framePerSecond: nat,
    loopMode: LoopMode,
    keys: seq<Keyframe>)

  /** The keys are listed in strictly increasing frame order. */
  predicate FramesIncrease(keys: seq<Keyframe>)
  {
    forall i, j :: 0 <= i < j < |keys| ==> keys[i].frame < keys[j].frame
  }

  /** `a` moves its property from `from` at frame 0 to `to` at frame `last`
      and holds nothing in between but keys in increasing frame order. */
  predicate Tweens(a: Animation, from: Vec3, to: Vec3, last: nat)
  {
    |a.keys| >= 2 &&
    a.keys[0] == Keyframe(0, from) &&
    a.keys[|a.keys| - 1] == Keyframe(last, to) &&
    FramesIncrease(a.keys)
  }

  /** One call scene.beginAnimation(target, from, to, loop). */
  datatype Playback = Playback(target: object, from: nat, to: nat, loop: bool)

  /** BABYLON.AbstractMesh: the fields the core changes. */
  class Mesh {
    var rotation: Vec3
    var enabled: bool
    var animations: seq<Animation>

    constructor (rotation: Vec3)
      ensures this.rotation == rotation && enabled && animations == []
    {
      this.rotation := rotation;
      enabled := true;
      animations := [];
    }

    /** mesh.setEnabled(value) */
    method SetEnabled(value: bool)
      modifies this`enabled
      ensures enabled == value
    {
      enabled := value;
    }
  }

  /** BABYLON.ArcRotateCamera. `position` is what the engine derives from
      alpha, beta, radius and target; that trigonometry is not modelled, so
      a new camera's position is left unconstrained. */
  class ArcCamera {
    var alpha: real
    var beta: real
    var radius: real
    var target: Vec3
    var position: Vec3
    var fov: real
    var animations: seq<Animation>

    constructor (alpha: real, beta: real, radius: real, target: Vec3)
      ensures this.alpha == alpha && this.beta == beta && this.radius == radius
      ensures this.target == target && fov == 0.8 && animations == []
    {
      this.alpha := alpha;
      this.beta := beta;
      this.radius := radius;
      this.target := target;
      fov := 0.8;
      animations := [];
    }

    /** camera.setTarget(newTarget). A target equal to the current one is
        ignored; otherwise the engine re-derives alpha, beta and radius so
        that the camera stays where it is, which this model leaves open. */
    method SetTarget(newTarget: Vec3)
      modifies this`target, this`alpha, this`beta, this`radius
      ensures target == newTarget && position == old(position)
      ensures old(target) == newTarget ==>
        alpha == old(alpha) && beta == old(beta) && radius == old(radius)
    {
      if target != newTarget {
        target := newTarget;
        alpha, beta, radius := *, *, *;
      }
    }
  }

  /** BABYLON.Scene: its before-render observers and the animations begun on it. */
  class Scene {
    /** onBeforeRenderObservable. The only observer ever added advances one
        camera's alpha; this is that camera, or null once the observable is cleared. */
    var orbitCamera: ArcCamera?
    /** Every scene.beginAnimation call, in order. */
    var playbacks: seq<Playback>

    constructor ()
      ensures orbitCamera == null && playbacks == []
    {
      orbitCamera := null;
      playbacks := [];
    }

    /** scene.beginAnimation(target, from, to, loop) */
    method BeginAnimation(target: object, from: nat, to: nat, loop: bool)
      modifies this`playbacks
      ensures playbacks == old(playbacks) + [Playback(target, from, to, loop)]
    {
      playbacks := playbacks + [Playback(target, from, to, loop)];
    }

    /** scene.onBeforeRenderObservable.clear() */
    method ClearBeforeRender()
      modifies this`orbitCamera
      ensures orbitCamera == null
    {
      orbitCamera := null;
    }
  }
}
