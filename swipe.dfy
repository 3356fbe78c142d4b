/** Lane controller: the three lanes and how a swipe gesture moves the player between them. */
module Swipe {

  /** The x positions of the lanes, left to right. */
  const LANES: seq<int> := [90, 180, 270]

  /** The lane a session starts in, and returns to on restart. */
  const MIDDLE_LANE: int := 1

  /** Minimum horizontal distance for a gesture to count as a swipe. */
  const SWIPE_THRESHOLD: real := 50.0

  function Abs(r: real): real
  {
    if r < 0.0 then -r else r
  }

  predicate ValidLane(lane: int)
  {
    0 <= lane < |LANES|
  }

  /** The lane after a gesture that travelled (distX, distY) starting from `lane`.
      Only a horizontal-dominant gesture (strictly) can change the lane, and only
      when it is longer than the threshold; the move is one lane, clamped to the track.
      Vertical gestures have no effect. */
  function SwipeLane(lane: int, distX: real, distY: real): (r: int)
    ensures ValidLane(lane) ==> ValidLane(r)
    ensures r == lane - 1 || r == lane || r == lane + 1
  {
    if Abs(distX) > Abs(distY) then
      if distX < -SWIPE_THRESHOLD && lane > 0 then lane - 1
      else if distX > SWIPE_THRESHOLD && lane < |LANES| - 1 then lane + 1
      else lane
    else
      lane
  }

  /** A strong left swipe decrements a lane that is not the leftmost by exactly one. */
  lemma SwipeLeftMovesOne(lane: int, distX: real, distY: real)
    requires Abs(distX) > Abs(distY) && distX < -SWIPE_THRESHOLD && lane > 0
    ensures SwipeLane(lane, distX, distY) == lane - 1
  {
  }

  /** A strong right swipe increments a lane that is not the rightmost by exactly one. */
  lemma SwipeRightMovesOne(lane: int, distX: real, distY: real)
    requires Abs(distX) > Abs(distY) && distX > SWIPE_THRESHOLD && lane < |LANES| - 1
    ensures SwipeLane(lane, distX, distY) == lane + 1
  {
  }

  /** Gestures that are not horizontal-dominant (ties included) or too short leave the lane alone. */
  lemma WeakOrVerticalSwipeIgnored(lane: int, distX: real, distY: real)
    requires Abs(distX) <= Abs(distY) || Abs(distX) <= SWIPE_THRESHOLD
    ensures SwipeLane(lane, distX, distY) == lane
  {
  }

  /** Exactly when a gesture changes the lane. */
  lemma SwipeChangesLaneIff(lane: int, distX: real, distY: real)
    ensures SwipeLane(lane, distX, distY) != lane <==>
              Abs(distX) > Abs(distY) &&
              ((distX < -SWIPE_THRESHOLD && lane > 0) || (distX > SWIPE_THRESHOLD && lane < |LANES| - 1))
  {
  }

  /** One completed gesture: the displacement from pointer-down to pointer-up. */
  datatype Gesture = Gesture(distX: real, distY: real)

  /** The lane after applying the gestures in order. */
  function ApplySwipes(lane: int, gestures: seq<Gesture>): int
    decreases |gestures|
  {
    if gestures == [] then lane
    else ApplySwipes(SwipeLane(lane, gestures[0].distX, gestures[0].distY), gestures[1..])
  }

  /** No sequence of gestures moves the player off the track. */
  lemma {:induction false} ApplySwipesInRange(lane: int, gestures: seq<Gesture>)
    requires ValidLane(lane)
    ensures ValidLane(ApplySwipes(lane, gestures))
    decreases |gestures|
  {
    if gestures != [] {
      ApplySwipesInRange(SwipeLane(lane, gestures[0].distX, gestures[0].distY), gestures[1..]);
    }
  }

  predicate StrongLeft(g: Gesture)
  {
    Abs(g.distX) > Abs(g.distY) && g.distX < -SWIPE_THRESHOLD
  }

  /** n strong left swipes move the player n lanes left, stopping at lane 0. */
  lemma {:induction false} StrongLeftSwipesFloorAtZero(lane: int, gestures: seq<Gesture>)
    requires ValidLane(lane)
    requires forall i :: 0 <= i < |gestures| ==> StrongLeft(gestures[i])
    ensures ApplySwipes(lane, gestures) == if lane < |gestures| then 0 else lane - |gestures|
    decreases |gestures|
  {
    if gestures != [] {
      var next := SwipeLane(lane, gestures[0].distX, gestures[0].distY);
      assert next == if lane > 0 then lane - 1 else 0;
      StrongLeftSwipesFloorAtZero(next, gestures[1..]);
    }
  }

  /** From the middle lane, any non-empty run of strong left swipes ends in lane 0, never below. */
  lemma LeftSwipesFromMiddleEndAtZero(gestures: seq<Gesture>)
    requires |gestures| >= 1
    requires forall i :: 0 <= i < |gestures| ==> StrongLeft(gestures[i])
    ensures ApplySwipes(MIDDLE_LANE, gestures) == 0
  {
    StrongLeftSwipesFloorAtZero(MIDDLE_LANE, gestures);
  }
}
