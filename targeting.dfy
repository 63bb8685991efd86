/** Experiment 003's targeting overlay (`update_targeting_overlay`): the
    picker that chooses the valid target nearest to the screen centre, the
    visibility table for the target reticle and its label, and retargeting
    on Enter. Projections and vector lengths are inputs. */
module Targeting {
  import opened Common

  /** One `ValidTarget` entity as the picker sees it: its id, the `size` of
      its `ComponentInfo`, and what the projections report for it. */
  datatype Candidate = Candidate(entity: Entity, size: real, projection: Projection)

  /** The picker's running state: `cursor_nearest`, `cursor_nearest_entity`,
      `cursor_nearest_size` and `cursor_target_onscreen`. */
  datatype Nearest = Nearest(position: Point, entity: Option<Entity>, size: real, onscreen: bool)

  /** The starting "best" position, far outside any screen. */
  const SENTINEL: Point := Point(10000000.0, 10000000.0)

  const START: Nearest := Nearest(SENTINEL, None, 0.0, false)

  /** A candidate less than this much closer than the current best must also
      be strictly larger to replace it. */
  const CLOSE_CALL: real := 3.0

  /** The candidate's overlay position, when both projections succeed. */
  function OverlayOf(c: Candidate): Option<Point>
  {
    match c.projection
    case BehindCamera => None
    case InFront(_, _, overlay) => overlay
  }

  /** The running state after choosing candidate `c` at overlay position `p`. */
  function Chosen(c: Candidate, p: Point): Nearest
  {
    Nearest(p, Some(c.entity), c.size, true)
  }

  /** One pass of the picker's loop body. */
  function Consider(n: Nearest, c: Candidate, length: Point -> real): Nearest
  {
    match OverlayOf(c)
    case None => n
    case Some(p) =>
      var difference := length(p) - length(n.position);
      if difference < 0.0 then
        if difference > -CLOSE_CALL then
          if c.size > n.size then Chosen(c, p) else n
        else Chosen(c, p)
      else n
  }

  /** The picker's state after the candidates `cs`, in iteration order. */
  function Pick(cs: seq<Candidate>, length: Point -> real): Nearest
  {
    if cs == [] then START
    else Consider(Pick(cs[..|cs| - 1], length), cs[|cs| - 1], length)
  }

  /** The replacement rule: a candidate that is not closer never wins; one
      less than CLOSE_CALL closer wins only by being strictly larger; one
      at least CLOSE_CALL closer wins whatever its size. */
  lemma ReplacementRule(n: Nearest, c: Candidate, length: Point -> real)
    requires OverlayOf(c).Some?
    ensures var p := OverlayOf(c).value;
            var d := length(p) - length(n.position);
            && (d >= 0.0 ==> Consider(n, c, length) == n)
            && (-CLOSE_CALL < d < 0.0 ==>
                  Consider(n, c, length) == if c.size > n.size then Chosen(c, p) else n)
            && (d <= -CLOSE_CALL ==> Consider(n, c, length) == Chosen(c, p))
  {
  }

  /** Every accepted update replaces the best by the candidate and strictly
      decreases the best length. */
  lemma AcceptedIsCloser(n: Nearest, c: Candidate, length: Point -> real)
    ensures var r := Consider(n, c, length);
            r == n || (OverlayOf(c).Some? && r == Chosen(c, OverlayOf(c).value)
                       && length(r.position) < length(n.position))
  {
  }

  /** What the loop keeps: the on-screen flag holds exactly when an entity
      was chosen; a chosen entity is one of the candidates, taken with its
      own overlay position and size; the best length never exceeds the
      sentinel's and is strictly below it once something was chosen. */
  lemma {:induction false} PickFacts(cs: seq<Candidate>, length: Point -> real)
    ensures var r := Pick(cs, length);
            && (r.onscreen <==> r.entity.Some?)
            && (!r.onscreen ==> r == START)
            && length(r.position) <= length(SENTINEL)
            && (r.onscreen ==> length(r.position) < length(SENTINEL))
            && (r.onscreen ==> exists k :: 0 <= k < |cs| && OverlayOf(cs[k]).Some?
                                          && r == Chosen(cs[k], OverlayOf(cs[k]).value))
  {
    if cs != [] {
      var init := cs[..|cs| - 1];
      var c := cs[|cs| - 1];
      var prev := Pick(init, length);
      PickFacts(init, length);
      AcceptedIsCloser(prev, c, length);
      if Consider(prev, c, length) == prev {
        if prev.onscreen {
          var k :| 0 <= k < |init| && OverlayOf(init[k]).Some?
                   && prev == Chosen(init[k], OverlayOf(init[k]).value);
          assert init[k] == cs[k];
        }
      }
    }
  }

  /** If no candidate has both projections succeed, nothing is chosen and
      the on-screen flag stays false. */
  lemma NothingProjectable(cs: seq<Candidate>, length: Point -> real)
    requires forall k :: 0 <= k < |cs| ==> OverlayOf(cs[k]).None?
    ensures Pick(cs, length) == START
  {
    PickFacts(cs, length);
  }

  /** The best length never grows as more candidates are considered. */
  lemma NeverFarther(n: Nearest, c: Candidate, length: Point -> real)
    ensures length(Consider(n, c, length).position) <= length(n.position)
  {
    AcceptedIsCloser(n, c, length);
  }

  /** The chosen position is less than CLOSE_CALL farther from the centre
      than every candidate whose projections both succeed. */
  lemma {:induction false} WithinCloseCallOfEvery(cs: seq<Candidate>, length: Point -> real)
    ensures forall k :: 0 <= k < |cs| && OverlayOf(cs[k]).Some? ==>
              length(Pick(cs, length).position) < length(OverlayOf(cs[k]).value) + CLOSE_CALL
  {
    if cs != [] {
      var init := cs[..|cs| - 1];
      var c := cs[|cs| - 1];
      var prev := Pick(init, length);
      WithinCloseCallOfEvery(init, length);
      NeverFarther(prev, c, length);
      forall k | 0 <= k < |cs| && OverlayOf(cs[k]).Some?
        ensures length(Pick(cs, length).position) < length(OverlayOf(cs[k]).value) + CLOSE_CALL
      {
        if k < |cs| - 1 {
          assert init[k] == cs[k];
        } else {
          ReplacementRule(prev, c, length);
        }
      }
    }
  }

  /** A candidate that is at least CLOSE_CALL closer to the centre than the
      sentinel and than every other projectable candidate is the one picked,
      whatever the sizes and the iteration order. */
  lemma ClearWinnerIsPicked(cs: seq<Candidate>, length: Point -> real, w: nat)
    requires w < |cs| && OverlayOf(cs[w]).Some?
    requires length(OverlayOf(cs[w]).value) + CLOSE_CALL <= length(SENTINEL)
    requires forall j :: 0 <= j < |cs| && j != w && OverlayOf(cs[j]).Some? ==>
               length(OverlayOf(cs[w]).value) + CLOSE_CALL <= length(OverlayOf(cs[j]).value)
    ensures Pick(cs, length) == Chosen(cs[w], OverlayOf(cs[w]).value)
  {
    PickFacts(cs, length);
    WithinCloseCallOfEvery(cs, length);
    var r := Pick(cs, length);
    assert r.onscreen;
    var k :| 0 <= k < |cs| && OverlayOf(cs[k]).Some? && r == Chosen(cs[k], OverlayOf(cs[k]).value);
    assert k == w;
  }

  /** The picker loop of `update_targeting_overlay`, over the same four
      running variables. */
  method PickNearest(cs: seq<Candidate>, length: Point -> real) returns (n: Nearest)
    ensures n == Pick(cs, length)
    ensures n.onscreen <==> n.entity.Some?
  {
    var cursorNearestEntity: Option<Entity> := None;
    var cursorTargetOnscreen := false;
    var cursorNearestSize := 0.0;
    var cursorNearest := SENTINEL;
    for i := 0 to |cs|
      invariant Nearest(cursorNearest, cursorNearestEntity, cursorNearestSize, cursorTargetOnscreen)
                == Pick(cs[..i], length)
    {
      var c := cs[i];
      match c.projection {
        case BehindCamera =>
        case InFront(_, _, overlay) =>
          match overlay {
            case None =>
            case Some(p) =>
              var lengthDifference := length(p) - length(cursorNearest);
              if lengthDifference < 0.0 {
                if lengthDifference > -CLOSE_CALL {
                  if c.size > cursorNearestSize {
                    cursorTargetOnscreen := true;
                    cursorNearest := p;
                    cursorNearestEntity := Some(c.entity);
                    cursorNearestSize := c.size;
                  }
                } else {
                  cursorTargetOnscreen := true;
                  cursorNearest := p;
                  cursorNearestEntity := Some(c.entity);
                  cursorNearestSize := c.size;
                }
              }
          }
      }
      assert cs[..i + 1][..i] == cs[..i];
    }
    assert cs[..|cs|] == cs;
    n := Nearest(cursorNearest, cursorNearestEntity, cursorNearestSize, cursorTargetOnscreen);
    PickFacts(cs, length);
  }

  /** Where the target reticle and the target label go, or that both hide. */
  datatype TargetDisplay =
    | ShowTarget(reticle: Point, labelTop: real, labelLeft: real)
    | HideTarget

  /** The label's offset from the target's viewport position, on both axes. */
  const LABEL_OFFSET: real := 15.0

  /** The visibility table for the current target. */
  function TargetDisplayFor(p: Projection): (d: TargetDisplay)
    ensures d.ShowTarget? <==> p.InFront? && p.inRect && p.overlay.Some?
    ensures d.ShowTarget? ==>
              && d.reticle == p.overlay.value
              && d.labelTop == p.viewport.y + LABEL_OFFSET
              && d.labelLeft == p.viewport.x + LABEL_OFFSET
  {
    match p
    case BehindCamera => HideTarget
    case InFront(viewport, inRect, overlay) =>
      match (inRect, overlay)
      case (true, Some(o)) => ShowTarget(o, viewport.y + LABEL_OFFSET, viewport.x + LABEL_OFFSET)
      case (false, Some(_)) => HideTarget
      case (true, None) => HideTarget
      case (false, None) => HideTarget
  }

  /** The overlay entities that `update_targeting_overlay` writes, and the
      `TargetResource`. */
  class TargetingOverlay {
    var cursorReticleVisibility: Visibility
    var cursorReticle: Point
    var targetReticleVisibility: Visibility
    var targetReticle: Point
    var labelVisibility: Visibility
    var labelTop: real
    var labelLeft: real
    var labelText: string
    var target: Option<Entity>

    /** The overlay as `setup` and `ui_text_setup` spawn it. */
    constructor (initialTarget: Entity)
      ensures cursorReticleVisibility == Hidden && cursorReticle == Point(0.0, 0.0)
      ensures targetReticleVisibility == Visible && targetReticle == Point(0.0, 0.0)
      ensures labelVisibility == Hidden && labelTop == 100.0 && labelLeft == 10.0
      ensures labelText == "Test Label"
      ensures target == Some(initialTarget)
    {
      cursorReticleVisibility := Hidden;
      cursorReticle := Point(0.0, 0.0);
      targetReticleVisibility := Visible;
      targetReticle := Point(0.0, 0.0);
      labelVisibility := Hidden;
      labelTop := 100.0;
      labelLeft := 10.0;
      labelText := "Test Label";
      target := Some(initialTarget);
    }

    /** One run of `update_targeting_overlay`. `slotsFound` is whether the
        three visibility slots could be fetched, `rectFound` whether the
        overlay camera has a viewport rectangle, `targetObject` what the
        projections report for the current target (None when the entity is
        gone) and `targetName` its `ComponentInfo` name, if it has one. */
    method UpdateTargetingOverlay(slotsFound: bool, candidates: seq<Candidate>,
                                  length: Point -> real, rectFound: bool,
                                  targetObject: Option<Projection>,
                                  targetName: Option<string>, enterPressed: bool)
      returns (nearest: Nearest)
      modifies this
      ensures nearest == Pick(candidates, length)
      // the cursor reticle is shown and moved only when something was chosen,
      // and is never hidden here
      ensures if slotsFound && nearest.onscreen
              then cursorReticleVisibility == Visible && cursorReticle == nearest.position
              else cursorReticleVisibility == old(cursorReticleVisibility)
                   && cursorReticle == old(cursorReticle)
      // the target reticle and label follow the visibility table
      ensures slotsFound && rectFound && old(target).Some? && targetObject.Some? ==>
                match TargetDisplayFor(targetObject.value)
                case ShowTarget(reticle, top, left) =>
                  && targetReticleVisibility == Visible && targetReticle == reticle
                  && labelVisibility == Visible && labelTop == top && labelLeft == left
                  && labelText == (if targetName.Some? then targetName.value else old(labelText))
                case HideTarget =>
                  && targetReticleVisibility == Hidden && targetReticle == old(targetReticle)
                  && labelVisibility == Hidden && labelTop == old(labelTop)
                  && labelLeft == old(labelLeft) && labelText == old(labelText)
      ensures !(slotsFound && rectFound && old(target).Some? && targetObject.Some?) ==>
                && targetReticleVisibility == old(targetReticleVisibility)
                && targetReticle == old(targetReticle)
                && labelVisibility == old(labelVisibility) && labelTop == old(labelTop)
                && labelLeft == old(labelLeft) && labelText == old(labelText)
      // Enter retargets to the picked entity, which may be None
      ensures target == if slotsFound && rectFound && enterPressed then nearest.entity else old(target)
    {
      nearest := PickNearest(candidates, length);
      if !slotsFound {
        return;
      }
      if nearest.onscreen {
        cursorReticleVisibility := Visible;
        cursorReticle := Point(nearest.position.x, nearest.position.y);
      }
      if !rectFound {
        return;
      }
      match target {
        case None =>
        case Some(_) =>
          match targetObject {
            case None =>
            case Some(projection) =>
              match projection {
                case InFront(viewport, inRect, overlay) =>
                  match (inRect, overlay) {
                    case (true, Some(o)) =>
                      targetReticleVisibility := Visible;
                      targetReticle := Point(o.x, o.y);
                      labelVisibility := Visible;
                      labelTop := viewport.y + LABEL_OFFSET;
                      labelLeft := viewport.x + LABEL_OFFSET;
                      if targetName.Some? {
                        labelText := targetName.value;
                      }
                    case (false, Some(_)) =>
                      targetReticleVisibility := Hidden;
                      labelVisibility := Hidden;
                    case (true, None) =>
                      targetReticleVisibility := Hidden;
                      labelVisibility := Hidden;
                    case (false, None) =>
                      targetReticleVisibility := Hidden;
                      labelVisibility := Hidden;
                  }
                case BehindCamera =>
                  targetReticleVisibility := Hidden;
                  labelVisibility := Hidden;
              }
          }
      }
      if enterPressed {
        target := nearest.entity;
      }
    }
  }
}
