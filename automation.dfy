/** Experiment 003's `AutomationState` machine: F toggles between Idle and
    FocusingOnTarget (`input_handling`), focusing ends once the camera is
    aligned with the target (`focus_on_target`), and the HUD's "Tracking"
    name (`ui_text_update`), which, like focusing, cannot cope with having
    no target. */
module Automation {
  import opened Common
  import opened CursorGrab
  import Targeting

  datatype AutomationState = Idle | FocusingOnTarget

  /** Below this angle between the camera and the target, focusing is done. */
  const ALIGNED_ANGLE: real := 0.01

  function Toggled(s: AutomationState): AutomationState
  {
    match s
    case Idle => FocusingOnTarget
    case FocusingOnTarget => Idle
  }

  /** The state one frame later. `toggle` is F pressed (with a window to
      read it from); `aligned` is that focusing found its target and the
      angle to it is below ALIGNED_ANGLE. When both request a state in the
      same frame they request the same one, so the order of the two systems
      does not matter. */
  function NextAutomationState(s: AutomationState, toggle: bool, aligned: bool): AutomationState
  {
    match s
    case Idle => if toggle then FocusingOnTarget else Idle
    case FocusingOnTarget => if toggle || aligned then Idle else FocusingOnTarget
  }

  /** F toggles Idle and FocusingOnTarget. */
  lemma FToggles(s: AutomationState)
    ensures NextAutomationState(s, true, false) == Toggled(s)
    ensures Toggled(Toggled(s)) == s
  {
  }

  /** Without F, focusing ends in Idle exactly when the camera is aligned,
      and Idle never starts focusing by itself. */
  lemma FocusEndsWhenAligned(aligned: bool)
    ensures NextAutomationState(FocusingOnTarget, false, aligned) == Idle <==> aligned
    ensures NextAutomationState(Idle, false, aligned) == Idle
  {
  }

  /** What `focus_on_target` finds this frame: whether the target entity
      still has a transform, the angle between the camera's rotation and the
      rotation looking at the target, and the camera rotation after one
      0.01-radian step towards it. */
  datatype FocusView = FocusView(targetFound: bool, angleBetween: real, stepped: Quat)

  /** The HUD's "Tracking" name: the target's `ComponentInfo` name, "none"
      when the target has none, and `todo!()` when there is no target. */
  function TrackingName(target: Option<Entity>, names: map<Entity, string>): (r: Outcome<string>)
    ensures r.Panics? <==> target.None?
    ensures target.Some? && target.value in names ==> r == Returns(names[target.value])
    ensures target.Some? && target.value !in names ==> r == Returns("none")
  {
    match target
    case Some(e) => if e in names then Returns(names[e]) else Returns("none")
    case None => Panics
  }

  /** Retargeting with Enter leaves a target that the HUD can name exactly
      when the picker put something on screen. */
  lemma RetargetNamesOnlyPicked(cs: seq<Targeting.Candidate>, length: Point -> real,
                                names: map<Entity, string>)
    ensures TrackingName(Targeting.Pick(cs, length).entity, names).Panics?
            <==> !Targeting.Pick(cs, length).onscreen
  {
    Targeting.PickFacts(cs, length);
  }

  /** In particular, Enter while no candidate is projectable clears the
      target, and the HUD then reaches `todo!()`. */
  lemma RetargetOnNothingPanics(cs: seq<Targeting.Candidate>, length: Point -> real,
                                names: map<Entity, string>)
    requires forall k :: 0 <= k < |cs| ==> Targeting.OverlayOf(cs[k]).None?
    ensures Targeting.Pick(cs, length).entity.None?
    ensures TrackingName(Targeting.Pick(cs, length).entity, names).Panics?
  {
    Targeting.NothingProjectable(cs, length);
  }

  /** The `State<AutomationState>` and `NextState<AutomationState>`
      resources, with the camera rotation that focusing turns. */
  class Autofocus {
    var current: AutomationState
    var pending: Option<AutomationState>
    var cameraRotation: Quat

    constructor (rotation: Quat)
      ensures current == Idle && pending == None && cameraRotation == rotation
    {
      current := Idle;
      pending := None;
      cameraRotation := rotation;
    }

    /** `input_handling`: nothing at all without a primary window; otherwise
        the shared left-click and Escape handling, then the F toggle. */
    method InputHandling(cursor: CursorControls, windowFound: bool, leftClick: bool,
                         escape: bool, fPressed: bool) returns (exit: bool)
      modifies this`pending, cursor
      ensures windowFound ==> exit == ExitRequested(old(cursor.State()), leftClick, escape)
      ensures windowFound ==> cursor.State() == AfterButtons(old(cursor.State()), leftClick, escape)
      ensures !windowFound ==> !exit && cursor.State() == old(cursor.State())
      ensures pending == if windowFound && fPressed then Some(Toggled(current)) else old(pending)
    {
      exit := false;
      if !windowFound {
        return;
      }
      exit := cursor.HandleButtons(leftClick, escape);
      if fPressed {
        match current {
          case Idle => pending := Some(FocusingOnTarget);
          case FocusingOnTarget => pending := Some(Idle);
        }
      }
    }

    /** `focus_on_target`: panics without a target, does nothing when the
        target entity is gone, requests Idle once aligned, and otherwise
        turns the camera one step. */
    method FocusOnTarget(target: Option<Entity>, focus: FocusView) returns (r: Outcome<()>)
      modifies this`pending, this`cameraRotation
      ensures r.Panics? <==> target.None?
      ensures target.Some? && focus.targetFound && focus.angleBetween < ALIGNED_ANGLE ==>
                pending == Some(Idle) && cameraRotation == old(cameraRotation)
      ensures target.Some? && focus.targetFound && !(focus.angleBetween < ALIGNED_ANGLE) ==>
                pending == old(pending) && cameraRotation == focus.stepped
      ensures target.None? || !focus.targetFound ==>
                pending == old(pending) && cameraRotation == old(cameraRotation)
    {
      match target {
        case Some(_) =>
          r := Returns(());
          if focus.targetFound {
            if focus.angleBetween < ALIGNED_ANGLE {
              pending := Some(Idle);
            } else {
              cameraRotation := focus.stepped;
            }
          }
        case None =>
          r := Panics;
      }
    }

    /** The engine's state transition: a requested state becomes current. */
    method ApplyTransition()
      modifies this`current, this`pending
      ensures current == if old(pending).Some? then old(pending).value else old(current)
      ensures pending == None
    {
      if pending.Some? {
        current := pending.value;
      }
      pending := None;
    }

    /** One frame: `input_handling` and, while focusing, `focus_on_target`,
        in either order, then the state transition. */
    method Frame(cursor: CursorControls, windowFound: bool, leftClick: bool, escape: bool,
                 fPressed: bool, target: Option<Entity>, focus: FocusView, inputFirst: bool)
      returns (exit: bool, r: Outcome<()>)
      requires pending == None
      modifies this, cursor
      ensures r.Panics? <==> old(current) == FocusingOnTarget && target.None?
      ensures r.Returns? ==>
                current == NextAutomationState(old(current), windowFound && fPressed,
                                               target.Some? && focus.targetFound
                                               && focus.angleBetween < ALIGNED_ANGLE)
      ensures r.Returns? ==>
                cameraRotation == if old(current) == FocusingOnTarget && focus.targetFound
                                     && !(focus.angleBetween < ALIGNED_ANGLE)
                                  then focus.stepped else old(cameraRotation)
      ensures windowFound ==>
                && exit == ExitRequested(old(cursor.State()), leftClick, escape)
                && cursor.State() == AfterButtons(old(cursor.State()), leftClick, escape)
      ensures !windowFound ==> !exit && cursor.State() == old(cursor.State())
      ensures pending == None
    {
      var focusing := current == FocusingOnTarget;
      r := Returns(());
      if inputFirst {
        exit := InputHandling(cursor, windowFound, leftClick, escape, fPressed);
        if focusing {
          r := FocusOnTarget(target, focus);
        }
      } else {
        if focusing {
          r := FocusOnTarget(target, focus);
        }
        exit := InputHandling(cursor, windowFound, leftClick, escape, fPressed);
      }
      ApplyTransition();
    }
  }
}
