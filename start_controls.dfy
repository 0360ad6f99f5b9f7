/** The fullscreen GUI and its start button: pressing start hides the logo,
    swaps the start button for the two swing buttons and sends the camera to
    the batter, once and for all. */
module StartControls {
  import opened Babylon
  import opened CameraOrbit

  /** The GUI buttons the core creates (their styling is configuration). */
  datatype Control = StartButton | SwingLeftButton | SwingRightButton

  /** No control appears twice. */
  predicate NoDuplicates(cs: seq<Control>)
  {
    forall i, j :: 0 <= i < j < |cs| ==> cs[i] != cs[j]
  }

  /** The root container's children after addControl(c): a control that is
      already a child is not added again. */
  function Added(cs: seq<Control>, c: Control): (r: seq<Control>)
    ensures c in r
    ensures forall d :: d in r <==> d in cs || d == c
    ensures |cs| <= |r| && r[..|cs|] == cs
    ensures NoDuplicates(cs) ==> NoDuplicates(r)
  {
    if c in cs then cs else cs + [c]
  }

  /** The root container's children after removeControl(c): the first
      occurrence of c, if any, is taken out and the rest keep their order. */
  function Removed(cs: seq<Control>, c: Control): (r: seq<Control>)
    ensures forall d :: d != c ==> (d in r <==> d in cs)
    ensures |r| == if c in cs then |cs| - 1 else |cs|
    ensures NoDuplicates(cs) ==> NoDuplicates(r) && c !in r
  {
    if cs == [] then []
    else if cs[0] == c then cs[1..]
    else
      var rest := Removed(cs[1..], c);
      assert NoDuplicates(cs) ==> NoDuplicates(cs[1..]) && cs[0] !in cs[1..] && cs[0] !in rest;
      [cs[0]] + rest
  }

  /** The position of the first occurrence of c in cs. */
  function FirstIndex(cs: seq<Control>, c: Control): (k: nat)
    requires c in cs
    ensures k < |cs| && cs[k] == c && c !in cs[..k]
  {
    if cs[0] == c then 0
    else
      var k := FirstIndex(cs[1..], c);
      assert cs[..k + 1] == [cs[0]] + cs[1..][..k];
      k + 1
  }

  /** Removed leaves a list without c as it is, and otherwise takes out
      exactly the first occurrence of c: everything before it and everything
      after it is kept, in order. */
  lemma {:induction false} RemovedTakesFirstOccurrence(cs: seq<Control>, c: Control)
    ensures c !in cs ==> Removed(cs, c) == cs
    ensures c in cs ==> Removed(cs, c) == cs[..FirstIndex(cs, c)] + cs[FirstIndex(cs, c) + 1..]
  {
    if cs != [] && cs[0] != c {
      var tail := cs[1..];
      RemovedTakesFirstOccurrence(tail, c);
      assert Removed(cs, c) == [cs[0]] + Removed(tail, c);
      if c in cs {
        assert c in tail;
        var j := FirstIndex(tail, c);
        assert FirstIndex(cs, c) == j + 1;
        assert cs[..j + 1] == [cs[0]] + tail[..j];
        assert cs[j + 2..] == tail[j + 1..];
      } else {
        assert cs == [cs[0]] + tail;
      }
    }
  }

  /** The controls the GUI shows in each camera phase: the start button while
      the camera orbits, the two swing buttons once it is engaged. */
  function ControlsFor(phase: Phase): (cs: seq<Control>)
    ensures NoDuplicates(cs)
    ensures StartButton in cs <==> phase == IdleOrbit
    ensures SwingLeftButton in cs <==> phase == Engaged
    ensures SwingRightButton in cs <==> phase == Engaged
  {
    match phase
    case IdleOrbit => [StartButton]
    case Engaged =>
      var swings := [SwingLeftButton, SwingRightButton];
      assert swings[0] == SwingLeftButton && swings[1] == SwingRightButton;
      swings
  }

  /** The controls after the start handler's GUI changes. */
  function EngagedControls(cs: seq<Control>): seq<Control>
  {
    Added(Added(Removed(cs, StartButton), SwingLeftButton), SwingRightButton)
  }

  /** Whatever other controls are shown, starting leaves no start button and
      shows both swing buttons; from the start screen alone, the result is
      exactly the two swing buttons, left then right. */
  lemma EngagedControlsSwap(cs: seq<Control>)
    requires NoDuplicates(cs)
    ensures StartButton !in EngagedControls(cs)
    ensures SwingLeftButton in EngagedControls(cs) && SwingRightButton in EngagedControls(cs)
    ensures NoDuplicates(EngagedControls(cs))
    ensures cs == [StartButton] ==> EngagedControls(cs) == [SwingLeftButton, SwingRightButton]
  {
  }

  /** GUI.AdvancedDynamicTexture.CreateFullscreenUI: a container of controls. */
  class FullscreenUI {
    var controls: seq<Control>

    constructor ()
      ensures controls == []
    {
      controls := [];
    }

    method AddControl(c: Control)
      modifies this
      ensures controls == Added(old(controls), c)
    {
      if c !in controls {
        controls := controls + [c];
      }
    }

    method RemoveControl(c: Control)
      modifies this
      ensures controls == Removed(old(controls), c)
    {
      controls := Removed(controls, c);
    }
  }

  /** gameData.gameMeshes: the loaded meshes the handlers look up. Only the
      logo is read by the core; it is undefined until the logo has loaded. */
  class GameData {
    var logo: Mesh?

    constructor ()
      ensures logo == null
    {
      logo := null;
    }
  }

  /** What pressing the start button led to. */
  datatype StartOutcome =
    | Started        // the handler ran to completion
    | ButtonAbsent   // the button is no longer shown, so no handler runs
    | LogoNotLoaded  // the handler faulted on the missing logo before changing anything

  /** createControls: a fullscreen UI showing the start button, whose
      pointer-up handler starts the game. */
  class Controls {
    const ui: FullscreenUI
    const camera: ArcCamera
    const scene: Scene
    const gameData: GameData

    /** The GUI shows the controls of the camera's phase, and the only orbit
        observer, while there is one, turns this camera. */
    predicate Valid()
      reads this, ui, scene
    {
      ui.controls == ControlsFor(PhaseOf(scene)) &&
      (scene.orbitCamera == null || scene.orbitCamera == camera)
    }

    /** createCamera has already registered the orbit observer when
        createControls runs (createScene calls them in that order). */
    constructor (camera: ArcCamera, scene: Scene, gameData: GameData)
      requires scene.orbitCamera == camera
      ensures this.camera == camera && this.scene == scene && this.gameData == gameData
      ensures fresh(ui) && ui.controls == [StartButton]
      ensures Valid()
    {
      this.camera := camera;
      this.scene := scene;
      this.gameData := gameData;
      var texture := new FullscreenUI();
      texture.AddControl(StartButton);
      ui := texture;
    }

    /** A pointer-up on the start button. The GUI delivers it only while the
        button is attached. The handler then dereferences the logo without a
        check, so it throws if the logo has not loaded yet; otherwise it
        disables the logo, removes the start button, adds the swing buttons
        and flies the camera to the batter. */
    method StartPointerUp() returns (outcome: StartOutcome)
      requires Valid()
      modifies ui, camera, scene`orbitCamera, scene`playbacks, gameData.logo
      ensures Valid()
      ensures outcome == ButtonAbsent <==> old(PhaseOf(scene)) == Engaged
      ensures outcome == ButtonAbsent <==> old(StartButton !in ui.controls)
      ensures outcome == LogoNotLoaded <==> old(StartButton in ui.controls && gameData.logo == null)
      ensures outcome != Started ==>
        unchanged(ui, camera, scene) && (gameData.logo != null ==> unchanged(gameData.logo))
      ensures outcome == Started ==>
        && gameData.logo != null && !gameData.logo.enabled
        && gameData.logo.rotation == old(gameData.logo.rotation)
        && gameData.logo.animations == old(gameData.logo.animations)
        && ui.controls == EngagedControls(old(ui.controls))
        && StartButton !in ui.controls
        && camera.animations == [FlyAnimation(old(camera.position))]
        && camera.target == BATTER_TARGET && camera.position == old(camera.position)
        && scene.orbitCamera == null && PhaseOf(scene) == Engaged
        && ui.controls == [SwingLeftButton, SwingRightButton]
        && scene.playbacks == old(scene.playbacks) + [Playback(camera, 0, FLY_LAST_FRAME, false)]
    {
      if StartButton !in ui.controls {
        return ButtonAbsent;
      }
      var logo := gameData.logo;
      if logo == null {
        return LogoNotLoaded;
      }
      logo.SetEnabled(false);
      ui.RemoveControl(StartButton);
      ui.AddControl(SwingLeftButton);
      ui.AddControl(SwingRightButton);
      FlyToBatter(camera, scene);
      EngagedControlsSwap(old(ui.controls));
      outcome := Started;
    }
  }
}
