/** createScene, restricted to what the core state depends on: a scene
    whose camera orbits and whose GUI shows only the start button. */
module SceneSetup {
  import opened Babylon
  import opened CameraOrbit
  import opened StartControls

  /** createScene: make the scene, its orbiting camera and the start-screen
      controls. The loads are only issued here, so the logo is not yet
      registered in `gameData` by anything this method does. */
  method CreateScene(gameData: GameData) returns (scene: Scene, camera: ArcCamera, controls: Controls)
    ensures fresh(scene) && fresh(camera) && fresh(controls) && fresh(controls.ui)
    ensures PhaseOf(scene) == IdleOrbit && scene.orbitCamera == camera && scene.playbacks == []
    ensures camera.alpha == PI && camera.target == Vec3(0.0, 12.0, 0.0) && camera.animations == []
    ensures controls.camera == camera && controls.scene == scene && controls.gameData == gameData
    ensures controls.ui.controls == [StartButton] && controls.Valid()
  {
    scene := new Scene();
    camera := CreateCamera(scene);
    controls := new Controls(camera, scene, gameData);
  }

  /** The opening of a game with the logo already loaded: the camera orbits
      for `idleFrames` frames, the player presses start, `engagedFrames` more
      frames are rendered, and the player presses where the start button was.
      The orbit advances alpha by 0.001 a frame until the press; the press
      itself re-targets the camera (which re-derives alpha), and from then on
      no frame changes it. The second press reaches no handler. */
  method PlayOpening(gameData: GameData, idleFrames: nat, engagedFrames: nat)
    returns (scene: Scene, camera: ArcCamera, controls: Controls, first: StartOutcome, second: StartOutcome,
             ghost alphaAtPress: real, ghost alphaAfterPress: real)
    requires gameData.logo != null
    modifies gameData.logo
    ensures first == Started && second == ButtonAbsent
    ensures alphaAtPress == PI + idleFrames as real * ORBIT_STEP
    ensures camera.alpha == alphaAfterPress
    ensures PhaseOf(scene) == Engaged && controls.Valid()
    ensures controls.ui.controls == [SwingLeftButton, SwingRightButton]
    ensures gameData.logo != null && !gameData.logo.enabled
    ensures camera.target == BATTER_TARGET
    ensures scene.playbacks == [Playback(camera, 0, FLY_LAST_FRAME, false)]
  {
    scene, camera, controls := CreateScene(gameData);
    RenderFrames(scene, camera, idleFrames);
    alphaAtPress := camera.alpha;
    first := controls.StartPointerUp();
    alphaAfterPress := camera.alpha;
    RenderFrames(scene, camera, engagedFrames);
    second := controls.StartPointerUp();
  }
}
