/** Experiment 001's four-stage app-state pipeline, Loading, Generating,
    Spawning, Running: `app_loading` waits for the assets,
    `generate_resources` builds the colliders and `initiate_spawning` spawns
    the scene. Each runs only in its own state and requests the next. */
module LoadingPipeline {
  import opened Common
  import opened CameraControls

  datatype AppState = Loading | Generating | Spawning | Running

  /** The handles of `SceneAssets` and `MeshAssets`. */
  datatype Asset = CommandPodScene | TorusScene | EarthScene | CommandPodMesh | TorusMesh | EarthMesh

  const SCENES: set<Asset> := {CommandPodScene, TorusScene, EarthScene}
  const MESHES: set<Asset> := {CommandPodMesh, TorusMesh, EarthMesh}

  /** Which of the three colliders `Collider::from_bevy_mesh` produced. */
  datatype Colliders = Colliders(commandPod: bool, torus: bool, earth: bool)

  predicate AllColliders(c: Colliders)
  {
    c.commandPod && c.torus && c.earth
  }

  /** The current state and whether the `ColliderAssets` resource exists. */
  datatype Stage = Stage(state: AppState, colliderAssets: bool)

  const START: Stage := Stage(Loading, false)

  /** Position in the pipeline. */
  function Rank(s: AppState): nat
  {
    match s
    case Loading => 0
    case Generating => 1
    case Spawning => 2
    case Running => 3
  }

  /** The stage one frame later, given the loaded assets and the colliders
      this frame would produce. `generate_resources` panics (`expect`) on a
      missing mesh, and `initiate_spawning` cannot run without
      `ColliderAssets`. */
  function NextStage(st: Stage, loaded: set<Asset>, colliders: Colliders): Outcome<Stage>
  {
    match st.state
    case Loading =>
      if SCENES <= loaded && MESHES <= loaded then Returns(Stage(Generating, st.colliderAssets))
      else Returns(st)
    case Generating =>
      if MESHES <= loaded then Returns(Stage(Spawning, st.colliderAssets || AllColliders(colliders)))
      else Panics
    case Spawning =>
      if st.colliderAssets then Returns(Stage(Running, true)) else Panics
    case Running => Returns(st)
  }

  /** The pipeline only moves forward, one stage at a time; Loading waits
      exactly until all three scenes and all three meshes are loaded;
      Generating always moves on (or panics), and Spawning always ends in
      Running (or panics). */
  lemma PipelineOrder(st: Stage, loaded: set<Asset>, colliders: Colliders)
    ensures NextStage(st, loaded, colliders).Returns? ==>
              var next := NextStage(st, loaded, colliders).value;
              Rank(next.state) == Rank(st.state) || Rank(next.state) == Rank(st.state) + 1
    ensures st.state == Loading ==>
              NextStage(st, loaded, colliders).Returns? &&
              (NextStage(st, loaded, colliders).value.state == Generating <==> SCENES + MESHES <= loaded)
    ensures st.state == Generating && NextStage(st, loaded, colliders).Returns? ==>
              NextStage(st, loaded, colliders).value.state == Spawning
    ensures st.state == Spawning && NextStage(st, loaded, colliders).Returns? ==>
              NextStage(st, loaded, colliders).value.state == Running
  {
  }

  /** What has been true since the app started: ColliderAssets exists only
      after Generating, and Running is never reached without it. */
  ghost predicate Consistent(st: Stage)
  {
    && (st.state == Loading || st.state == Generating ==> !st.colliderAssets)
    && (st.state == Running ==> st.colliderAssets)
  }

  /** Frame inputs: what is loaded and which colliders would be produced. */
  datatype FrameInput = FrameInput(loaded: set<Asset>, colliders: Colliders)

  /** The stage after successive frames, or the first panic. */
  function RunFrames(st: Stage, frames: seq<FrameInput>): Outcome<Stage>
  {
    if frames == [] then Returns(st)
    else
      match RunFrames(st, frames[..|frames| - 1])
      case Panics => Panics
      case Returns(mid) =>
        NextStage(mid, frames[|frames| - 1].loaded, frames[|frames| - 1].colliders)
  }

  /** Every stage reachable from the start is consistent: whenever the app
      is Running, all three colliders were produced. */
  lemma {:induction false} ReachableIsConsistent(frames: seq<FrameInput>)
    ensures RunFrames(START, frames).Returns? ==> Consistent(RunFrames(START, frames).value)
  {
    if frames != [] {
      ReachableIsConsistent(frames[..|frames| - 1]);
    }
  }

  /** With everything loaded and every collider produced, three frames take
      the app from Loading to Running. */
  lemma ThreeFramesToRunning(f: FrameInput)
    requires SCENES + MESHES <= f.loaded && AllColliders(f.colliders)
    ensures RunFrames(START, [f, f, f]) == Returns(Stage(Running, true))
  {
    assert [f, f, f][..2] == [f, f];
    assert [f, f][..1] == [f];
    assert [f][..0] == [];
    assert RunFrames(START, [f]) == Returns(Stage(Generating, false));
    assert RunFrames(START, [f, f]) == Returns(Stage(Spawning, true));
  }

  /** The `State<AppState>`, `NextState<AppState>` and `ColliderAssets`
      resources. */
  class App {
    var current: AppState
    var pending: Option<AppState>
    var colliderAssets: bool

    function Now(): Stage
      reads this
    {
      Stage(current, colliderAssets)
    }

    constructor ()
      ensures Now() == START && pending == None
    {
      current := Loading;
      pending := None;
      colliderAssets := false;
    }

    /** `app_loading`: sets the two flags, then requests Generating. */
    method AppLoading(loaded: set<Asset>)
      modifies this`pending
      ensures pending == if SCENES <= loaded && MESHES <= loaded then Some(Generating) else old(pending)
    {
      var scenesLoaded := false;
      if CommandPodScene in loaded && TorusScene in loaded && EarthScene in loaded {
        scenesLoaded := true;
      }
      var meshesLoaded := false;
      if CommandPodMesh in loaded && TorusMesh in loaded && EarthMesh in loaded {
        meshesLoaded := true;
      }
      if scenesLoaded && meshesLoaded {
        pending := Some(Generating);
      }
    }

    /** `generate_resources`: panics on a missing mesh; inserts
        ColliderAssets only when all three colliders were produced; always
        requests Spawning. */
    method GenerateResources(loaded: set<Asset>, colliders: Colliders) returns (r: Outcome<()>)
      modifies this`pending, this`colliderAssets
      ensures r.Panics? <==> !(MESHES <= loaded)
      ensures r.Returns? ==>
                && pending == Some(Spawning)
                && colliderAssets == (old(colliderAssets) || AllColliders(colliders))
    {
      if CommandPodMesh !in loaded || TorusMesh !in loaded || EarthMesh !in loaded {
        return Panics;
      }
      if colliders.commandPod && colliders.torus && colliders.earth {
        colliderAssets := true;
      }
      pending := Some(Spawning);
      r := Returns(());
    }

    /** `initiate_spawning`: requests Running; it cannot run without the
        ColliderAssets resource. */
    method InitiateSpawning() returns (r: Outcome<()>)
      modifies this`pending
      ensures r.Panics? <==> !colliderAssets
      ensures r.Returns? ==> pending == Some(Running)
    {
      if !colliderAssets {
        return Panics;
      }
      pending := Some(Running);
      r := Returns(());
    }

    /** The engine's state transition: a requested state becomes current. */
    method ApplyTransition()
      modifies this`current, this`pending
      ensures current == if old(pending).Some? then old(pending).value else old(current)
      ensures pending == None
    {
      if pending.Some? {
        current := pending.value;
      }
      pending := None;
    }

    /** One frame: the system that runs in the current state and
        `app_controls`, which runs in every state, then the transition. */
    method Frame(loaded: set<Asset>, colliders: Colliders, justPressed: set<Key>)
      returns (exit: bool, r: Outcome<()>)
      requires pending == None
      modifies this
      ensures r.Panics? <==> NextStage(old(Now()), loaded, colliders).Panics?
      ensures r.Returns? ==> Returns(Now()) == NextStage(old(Now()), loaded, colliders)
      ensures r.Returns? ==> pending == None
      ensures exit <==> Escape in justPressed
    {
      exit := AppControls(justPressed);
      r := Returns(());
      match current {
        case Loading => AppLoading(loaded);
        case Generating => r := GenerateResources(loaded, colliders);
        case Spawning => r := InitiateSpawning();
        case Running =>
      }
      if r.Returns? {
        ApplyTransition();
      }
    }
  }
}
