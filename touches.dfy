/**
 * Touch records of the player controller and the pure rules over them:
 * which touches steer, how a set of touches resolves to a direction, and
 * how a touch move is classified as a swipe that commits the touch.
 */
module Touches {
  import opened Vectors

  /** Seconds a touch must be held before it steers. */
  const LongPressThreshold: real := 0.15

  /** Pixels a touch must travel before it counts as a swipe. */
  const SwipeThreshold: real := 50.0

  /** One active touch; isSlide is set once, when the touch is committed as a swipe. */
  datatype TouchState = TouchState(startPos: Vec2, currentPos: Vec2, timeHeld: real, isSlide: bool)

  /** The record a touch start creates. */
  function NewTouch(pos: Vec2): TouchState {
    TouchState(pos, pos, 0.0, false)
  }

  // ---------------------------------------------------------------------
  // Steering

  /** The touch is a long press that has not been committed as a swipe. */
  predicate Steers(t: TouchState) {
    !t.isSlide && t.timeHeld >= LongPressThreshold
  }

  /** The touch started in the left half of a screen of width w. */
  predicate OnLeftHalf(t: TouchState, w: real) {
    t.startPos.x < w / 2.0
  }

  /** The leftHeld flag of a frame. */
  predicate LeftHeld(m: map<int, TouchState>, w: real) {
    exists id :: id in m && Steers(m[id]) && OnLeftHalf(m[id], w)
  }

  /** The rightHeld flag of a frame. */
  predicate RightHeld(m: map<int, TouchState>, w: real) {
    exists id :: id in m && Steers(m[id]) && !OnLeftHalf(m[id], w)
  }

  /** The move direction the two flags select: only one side held wins, otherwise 0. */
  function Steering(left: bool, right: bool): int {
    if left && !right then -1
    else if right && !left then 1
    else 0
  }

  /** The direction a set of touches steers on a screen of width w. */
  function ResolveSteering(m: map<int, TouchState>, w: real): int {
    Steering(LeftHeld(m, w), RightHeld(m, w))
  }

  /**
   * Steering resolution: -1 when there is a steering touch and every
   * steering touch started on the left; +1 likewise on the right; 0 when
   * there is none, or one on each side.
   */
  lemma ResolveSteeringMeaning(m: map<int, TouchState>, w: real)
    ensures var d := ResolveSteering(m, w);
      && -1 <= d <= 1
      && (d == -1 <==>
           (exists id :: id in m && Steers(m[id]) && OnLeftHalf(m[id], w)) &&
           (forall id :: id in m && Steers(m[id]) ==> OnLeftHalf(m[id], w)))
      && (d == 1 <==>
           (exists id :: id in m && Steers(m[id]) && !OnLeftHalf(m[id], w)) &&
           (forall id :: id in m && Steers(m[id]) ==> !OnLeftHalf(m[id], w)))
      && (d == 0 <==>
           (forall id :: id in m ==> !Steers(m[id])) ||
           ((exists id :: id in m && Steers(m[id]) && OnLeftHalf(m[id], w)) &&
            (exists id :: id in m && Steers(m[id]) && !OnLeftHalf(m[id], w))))
  {
  }

  /** A committed swipe touch makes no difference to steering: it resolves as if it were absent. */
  lemma SlideTouchIgnored(m: map<int, TouchState>, w: real, id: int, t: TouchState)
    requires t.isSlide
    ensures ResolveSteering(m[id := t], w) == ResolveSteering(m - {id}, w)
  {
    var with, without := m[id := t], m - {id};
    assert LeftHeld(with, w) == LeftHeld(without, w) by {
      if LeftHeld(with, w) {
        var k :| k in with && Steers(with[k]) && OnLeftHalf(with[k], w);
        assert k != id && k in without && without[k] == with[k];
      }
      if LeftHeld(without, w) {
        var k :| k in without && Steers(without[k]) && OnLeftHalf(without[k], w);
        assert k in with && with[k] == without[k];
      }
    }
    assert RightHeld(with, w) == RightHeld(without, w) by {
      if RightHeld(with, w) {
        var k :| k in with && Steers(with[k]) && !OnLeftHalf(with[k], w);
        assert k != id && k in without && without[k] == with[k];
      }
      if RightHeld(without, w) {
        var k :| k in without && Steers(without[k]) && !OnLeftHalf(without[k], w);
        assert k in with && with[k] == without[k];
      }
    }
  }

  /** Every touch's held time after a frame of length dt; nothing else about a touch changes. */
  function Aged(m: map<int, TouchState>, dt: real): (r: map<int, TouchState>)
    ensures r.Keys == m.Keys
    ensures forall id :: id in m ==>
      && r[id].timeHeld == m[id].timeHeld + dt
      && r[id].isSlide == m[id].isSlide
      && r[id].startPos == m[id].startPos
      && r[id].currentPos == m[id].currentPos
  {
    map id | id in m :: m[id].(timeHeld := m[id].timeHeld + dt)
  }

  // ---------------------------------------------------------------------
  // Swipes

  /** What a touch move does: nothing, a jump swipe, or a turn swipe. */
  datatype Gesture = NoGesture | SwipeUp | SwipeRight | SwipeLeft

  /**
   * The gesture a move of touch t to pos commits: none once the touch is
   * committed; an upward swipe of more than 50 pixels first; otherwise a
   * horizontal swipe of more than 50 pixels, to the side it went.
   */
  function Classify(t: TouchState, pos: Vec2): (g: Gesture)
    ensures t.isSlide ==> g == NoGesture
    ensures g == SwipeUp <==> !t.isSlide && pos.y - t.startPos.y > SwipeThreshold
    ensures g == SwipeRight <==>
      !t.isSlide && pos.y - t.startPos.y <= SwipeThreshold && pos.x - t.startPos.x > SwipeThreshold
    ensures g == SwipeLeft <==>
      !t.isSlide && pos.y - t.startPos.y <= SwipeThreshold && pos.x - t.startPos.x < -SwipeThreshold
  {
    var dx, dy := pos.x - t.startPos.x, pos.y - t.startPos.y;
    if t.isSlide then NoGesture
    else if dy > SwipeThreshold then SwipeUp
    else if (if dx < 0.0 then -dx else dx) > SwipeThreshold then
      (if dx > 0.0 then SwipeRight else SwipeLeft)
    else NoGesture
  }

  /** The record after a move to pos: the new current position, committed if the move was a swipe. */
  function AfterMove(t: TouchState, pos: Vec2): TouchState {
    t.(currentPos := pos, isSlide := t.isSlide || Classify(t, pos) != NoGesture)
  }

  /** The gestures of successive moves of one touch. */
  function GesturesOf(t: TouchState, moves: seq<Vec2>): seq<Gesture>
    decreases |moves|
  {
    if moves == [] then []
    else [Classify(t, moves[0])] + GesturesOf(AfterMove(t, moves[0]), moves[1..])
  }

  /**
   * A touch commits at most once: after its first gesture every further
   * move is inert, and a touch already committed produces none.
   */
  lemma {:induction false} CommitsAtMostOnce(t: TouchState, moves: seq<Vec2>)
    ensures |GesturesOf(t, moves)| == |moves|
    ensures t.isSlide ==> forall i :: 0 <= i < |moves| ==> GesturesOf(t, moves)[i] == NoGesture
    ensures forall i, j :: 0 <= i < j < |moves| && GesturesOf(t, moves)[i] != NoGesture ==>
      GesturesOf(t, moves)[j] == NoGesture
    decreases |moves|
  {
    if moves != [] {
      var t' := AfterMove(t, moves[0]);
      var gs := GesturesOf(t, moves);
      CommitsAtMostOnce(t', moves[1..]);
      assert gs == [Classify(t, moves[0])] + GesturesOf(t', moves[1..]);
      forall i, j | 0 <= i < j < |moves| && gs[i] != NoGesture
        ensures gs[j] == NoGesture
      {
        assert gs[j] == GesturesOf(t', moves[1..])[j - 1];
        if i == 0 {
          assert t'.isSlide;
        } else {
          assert gs[i] == GesturesOf(t', moves[1..])[i - 1];
        }
      }
      if t.isSlide {
        forall i | 0 <= i < |moves| ensures gs[i] == NoGesture {
          if i > 0 {
            assert gs[i] == GesturesOf(t', moves[1..])[i - 1];
          }
        }
      }
    }
  }
}
