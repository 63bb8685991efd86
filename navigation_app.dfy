/** Experiment 002's decision logic: the asset-loading gate from Loading to
    PreRunning (`wait_for_asset_loading`), the PreRunning systems that move
    on to Running (`setup`, `ui_setup`), the crosshair visibility table for
    the camera's nearest object (`highlight_nearest_object`) and the whole
    of `cursor_grab_system`. */
module NavigationApp {
  import opened Common
  import opened CursorGrab
  import opened TimeScale

  datatype AppState = Loading | PreRunning | Running

  /** The handles of `SceneAssets` and `MeshAssets`. */
  datatype Asset =
    | NavRingScene | NavBallScene | NavBallOrbitalScene | InvertedXyzBallScene
    | NavRingMesh | NavBallMesh | NavBallOrbitalMesh | InvertedXyzBallMesh

  /** The scene handles the gate looks up, in order. The first lookup, meant
      for the nav ring, reads the nav-ball handle. */
  const CHECKED_SCENES: seq<Asset> := [NavBallScene, NavBallScene, NavBallOrbitalScene, InvertedXyzBallScene]

  /** The mesh handles the gate looks up; again the nav ring's is the nav ball's. */
  const CHECKED_MESHES: seq<Asset> := [NavBallMesh, NavBallMesh, NavBallOrbitalMesh, InvertedXyzBallMesh]

  /** Whether the gate finds every scene and every mesh it looks up among
      the `loaded` assets. */
  function AssetsReady(loaded: set<Asset>): (r: bool)
    ensures r <==> {NavBallScene, NavBallOrbitalScene, InvertedXyzBallScene,
                    NavBallMesh, NavBallOrbitalMesh, InvertedXyzBallMesh} <= loaded
  {
    var scenesLoaded := CHECKED_SCENES[0] in loaded && CHECKED_SCENES[1] in loaded
                        && CHECKED_SCENES[2] in loaded && CHECKED_SCENES[3] in loaded;
    var meshesLoaded := CHECKED_MESHES[0] in loaded && CHECKED_MESHES[1] in loaded
                        && CHECKED_MESHES[2] in loaded && CHECKED_MESHES[3] in loaded;
    scenesLoaded && meshesLoaded
  }

  /** The nav-ring handles never influence the gate: it opens with them
      loaded or not, so the app can start running while the nav ring is
      still loading. */
  lemma NavRingNeverChecked(loaded: set<Asset>)
    ensures AssetsReady(loaded + {NavRingScene, NavRingMesh})
            == AssetsReady(loaded - {NavRingScene, NavRingMesh})
    ensures AssetsReady({NavBallScene, NavBallOrbitalScene, InvertedXyzBallScene,
                         NavBallMesh, NavBallOrbitalMesh, InvertedXyzBallMesh})
  {
  }

  /** What the crosshair shows for the nearest object: its visibility,
      where it moves to (None: it stays put), and the first line of the
      target display. */
  datatype CrosshairView = CrosshairView(visibility: Visibility, moveTo: Option<Point>, status: string)

  const ON_SCREEN: string := "target onscreen"
  const OFF_SCREEN: string := "target offscreen"
  const BEHIND_US: string := "target is behind us"

  /** The crosshair's visibility table. */
  function CrosshairFor(p: Projection): (v: CrosshairView)
    ensures v.visibility == Visible <==> p.InFront? && p.inRect
    ensures v.visibility == Visible || v.visibility == Hidden
    ensures v.moveTo.Some? <==> p.InFront? && p.inRect && p.overlay.Some?
    ensures v.moveTo.Some? ==> v.moveTo == p.overlay
    ensures v.status == if p.BehindCamera? then BEHIND_US
                        else if p.inRect then ON_SCREEN else OFF_SCREEN
  {
    match p
    case BehindCamera => CrosshairView(Hidden, None, BEHIND_US)
    case InFront(_, inRect, overlay) =>
      match (inRect, overlay)
      case (true, Some(o)) => CrosshairView(Visible, Some(o), ON_SCREEN)
      case (false, Some(_)) => CrosshairView(Hidden, None, OFF_SCREEN)
      case (true, None) => CrosshairView(Visible, None, ON_SCREEN)
      case (false, None) => CrosshairView(Hidden, None, OFF_SCREEN)
  }

  /** The crosshair entity and the first line of the target display. */
  class Crosshair {
    var visibility: Visibility
    var translation: Point
    var status: string

    /** As `setup` and `ui_setup` spawn them. */
    constructor ()
      ensures visibility == Hidden && translation == Point(0.0, 0.0) && status == "No Target"
    {
      visibility := Hidden;
      translation := Point(0.0, 0.0);
      status := "No Target";
    }

    /** `highlight_nearest_object`. It returns early when the camera has no
        nearest object, when that object has no transform or when the
        overlay camera has no viewport rectangle, and writes nothing when
        the target display is missing. */
    method HighlightNearestObject(nearest: Option<Entity>, objectFound: bool, rectFound: bool,
                                  displayFound: bool, projection: Projection)
      modifies this
      ensures nearest.Some? && objectFound && rectFound && displayFound ==>
                var v := CrosshairFor(projection);
                && visibility == v.visibility && status == v.status
                && translation == (if v.moveTo.Some? then v.moveTo.value else old(translation))
      ensures !(nearest.Some? && objectFound && rectFound && displayFound) ==>
                visibility == old(visibility) && translation == old(translation) && status == old(status)
    {
      if nearest.None? || !objectFound || !rectFound || !displayFound {
        return;
      }
      var targetText;
      match projection {
        case InFront(_, inRect, overlay) =>
          match (inRect, overlay) {
            case (true, Some(o)) =>
              visibility := Visible;
              translation := Point(o.x, o.y);
              targetText := ON_SCREEN;
            case (false, Some(_)) =>
              visibility := Hidden;
              targetText := OFF_SCREEN;
            case (true, None) =>
              visibility := Visible;
              targetText := ON_SCREEN;
            case (false, None) =>
              visibility := Hidden;
              targetText := OFF_SCREEN;
          }
        case BehindCamera =>
          visibility := Hidden;
          targetText := BEHIND_US;
      }
      status := targetText;
    }
  }

  /** `cursor_grab_system`: nothing at all without a primary window;
      otherwise the shared left-click and Escape handling, then the
      time-scale keys. */
  method CursorGrabSystem(cursor: CursorControls, physics: PhysicsConfiguration, windowFound: bool,
                          leftClick: bool, escape: bool, period: bool, comma: bool, slash: bool)
    returns (exit: bool)
    modifies cursor, physics
    ensures windowFound ==>
              && exit == ExitRequested(old(cursor.State()), leftClick, escape)
              && cursor.State() == AfterButtons(old(cursor.State()), leftClick, escape)
              && physics.timestepMode == ModeAfterKeys(old(physics.timestepMode), period, comma, slash)
    ensures !windowFound ==>
              && !exit && cursor.State() == old(cursor.State())
              && physics.timestepMode == old(physics.timestepMode)
  {
    exit := false;
    if !windowFound {
      return;
    }
    exit := cursor.HandleButtons(leftClick, escape);
    physics.HandleTimeKeys(period, comma, slash);
  }

  /** The `State<AppState>` and `NextState<AppState>` resources. */
  class AppStates {
    var current: AppState
    var pending: Option<AppState>

    constructor ()
      ensures current == Loading && pending == None
    {
      current := Loading;
      pending := None;
    }

    /** `wait_for_asset_loading`: sets the two flags, then requests
        PreRunning when both are set. */
    method WaitForAssetLoading(loaded: set<Asset>)
      modifies this`pending
      ensures pending == if AssetsReady(loaded) then Some(PreRunning) else old(pending)
    {
      var scenesLoaded := false;
      if CHECKED_SCENES[0] in loaded && CHECKED_SCENES[1] in loaded
         && CHECKED_SCENES[2] in loaded && CHECKED_SCENES[3] in loaded {
        scenesLoaded := true;
      }
      var meshesLoaded := false;
      if CHECKED_MESHES[0] in loaded && CHECKED_MESHES[1] in loaded
         && CHECKED_MESHES[2] in loaded && CHECKED_MESHES[3] in loaded {
        meshesLoaded := true;
      }
      if scenesLoaded && meshesLoaded {
        pending := Some(PreRunning);
      }
    }

    /** `setup`, of which only the cursor and the state request are modelled:
        without a primary window it returns before doing either. */
    method Setup(cursor: CursorControls, windowFound: bool)
      modifies this`pending, cursor
      ensures windowFound ==> cursor.State() == RELEASED && pending == Some(Running)
      ensures !windowFound ==> cursor.State() == old(cursor.State()) && pending == old(pending)
    {
      if !windowFound {
        return;
      }
      cursor.grabMode := Ungrabbed;
      cursor.cursorVisible := true;
      cursor.defaultsDisabled := true;
      pending := Some(Running);
    }

    /** `ui_setup` requests Running unconditionally. */
    method UiSetup()
      modifies this`pending
      ensures pending == Some(Running)
    {
      pending := Some(Running);
    }

    /** The engine's state transition: a requested state becomes current. */
    method ApplyTransition()
      modifies this
      ensures current == if old(pending).Some? then old(pending).value else old(current)
      ensures pending == None
    {
      if pending.Some? {
        current := pending.value;
      }
      pending := None;
    }

    /** A Loading frame: the gate, then the transition. */
    method LoadingFrame(loaded: set<Asset>)
      requires current == Loading && pending == None
      modifies this
      ensures current == if AssetsReady(loaded) then PreRunning else Loading
      ensures pending == None
    {
      WaitForAssetLoading(loaded);
      ApplyTransition();
    }

    /** A PreRunning frame, with `setup` and `ui_setup` in either order:
        because `ui_setup` always requests Running, the app always leaves
        PreRunning after one frame, window or not. */
    method PreRunningFrame(cursor: CursorControls, windowFound: bool, setupFirst: bool)
      requires current == PreRunning && pending == None
      modifies this, cursor
      ensures current == Running && pending == None
      ensures windowFound ==> cursor.State() == RELEASED
      ensures !windowFound ==> cursor.State() == old(cursor.State())
    {
      if setupFirst {
        Setup(cursor, windowFound);
        UiSetup();
      } else {
        UiSetup();
        Setup(cursor, windowFound);
      }
      ApplyTransition();
    }
  }
}
