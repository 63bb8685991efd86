/** The left-click / Escape handling that experiments 002 and 003 share
    (`cursor_grab_system` and `input_handling`): a left click grabs the
    cursor, Escape releases it, and Escape on a cursor that is already free
    asks the app to exit. */
module CursorGrab {

  /** The window's `CursorGrabMode`. */
  datatype GrabMode = Ungrabbed | Confined | Locked

  /** The window cursor's grab mode and visibility, together with the
      camera input's `defaults_disabled` flag. */
  datatype CursorState = CursorState(grab: GrabMode, visible: bool, defaultsDisabled: bool)

  /** Free, visible cursor with the camera's default controls disabled. */
  const RELEASED: CursorState := CursorState(Ungrabbed, true, true)

  /** Locked, hidden cursor with the camera's default controls enabled. */
  const CAPTURED: CursorState := CursorState(Locked, false, false)

  /** The cursor state after a frame's buttons: Escape wins over a left
      click in the same frame because it is handled second. */
  function AfterButtons(s: CursorState, leftClick: bool, escape: bool): CursorState
  {
    if escape then RELEASED
    else if leftClick then CAPTURED
    else s
  }

  /** Whether the frame's buttons send `AppExit`: Escape on a cursor that is
      free when Escape is handled, so not after a left click in the same frame. */
  predicate ExitRequested(s: CursorState, leftClick: bool, escape: bool)
  {
    escape && !leftClick && s.grab == Ungrabbed
  }

  /** Escape always leaves the cursor free, visible and with the camera's
      defaults disabled. */
  lemma EscapeReleases(s: CursorState, leftClick: bool)
    ensures AfterButtons(s, leftClick, true) == RELEASED
  {
  }

  /** Left click then Escape in one frame locks then unlocks without exiting. */
  lemma ClickThenEscapeStays(s: CursorState)
    ensures !ExitRequested(s, true, true) && AfterButtons(s, true, true) == RELEASED
  {
  }

  /** Exit is requested exactly by Escape on a cursor that is ungrabbed
      when Escape is handled, that is, after this frame's left click; so
      only on a cursor that was ungrabbed at the start of the frame. */
  lemma ExitNeedsFreeCursor(s: CursorState, leftClick: bool, escape: bool)
    ensures ExitRequested(s, leftClick, escape) <==> escape && AfterButtons(s, leftClick, false).grab == Ungrabbed
    ensures ExitRequested(s, leftClick, escape) ==> escape && s.grab == Ungrabbed
  {
  }

  /** From any state, pressing Escape in two successive frames exits when
      the second frame has no left click: the first frame frees the cursor,
      the second finds it free. A left click in the second frame grabs the
      cursor again before Escape is handled, so that frame does not exit. */
  lemma EscapeTwiceExits(s: CursorState, leftClick: bool)
    ensures ExitRequested(AfterButtons(s, leftClick, true), false, true)
    ensures !ExitRequested(AfterButtons(s, leftClick, true), true, true)
  {
  }

  /** The primary window's cursor and the camera input resource. */
  class CursorControls {
    var grabMode: GrabMode
    var cursorVisible: bool
    var defaultsDisabled: bool

    function State(): CursorState
      reads this
    {
      CursorState(grabMode, cursorVisible, defaultsDisabled)
    }

    /** The cursor as the experiments' `setup` leaves it. */
    constructor ()
      ensures State() == RELEASED
    {
      grabMode := Ungrabbed;
      cursorVisible := true;
      defaultsDisabled := true;
    }

    /** The left-click and Escape statements, in source order. */
    method HandleButtons(leftClick: bool, escape: bool) returns (exit: bool)
      modifies this
      ensures exit == ExitRequested(old(State()), leftClick, escape)
      ensures State() == AfterButtons(old(State()), leftClick, escape)
    {
      exit := false;
      if leftClick {
        grabMode := Locked;
        cursorVisible := false;
        defaultsDisabled := false;
      }
      if escape {
        if grabMode == Ungrabbed {
          exit := true;
        }
        grabMode := Ungrabbed;
        cursorVisible := true;
        defaultsDisabled := true;
      }
    }
  }
}
