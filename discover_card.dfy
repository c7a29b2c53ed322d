/**
 * The web discovery card: a horizontal drag past 100 px, or one of the two
 * buttons, reports a swipe direction to the page and chooses the side the
 * card leaves by (`exitX`).
 */
module WebDiscoverCard {
  import opened Wrappers

  const DragThreshold: real := 100.0
  const ExitOffset: int := 200

  function Abs(x: real): real {
    if x < 0.0 then -x else x
  }

  /** The direction a drag that ended at horizontal offset `offsetX` reports, if any. */
  function DragDirection(offsetX: real): (r: Option<string>)
    ensures r.Some? <==> offsetX > DragThreshold || offsetX < -DragThreshold
    ensures r == Some("right") <==> offsetX > DragThreshold
    ensures r == Some("left") <==> offsetX < -DragThreshold
  {
    if Abs(offsetX) > DragThreshold then Some(if offsetX > 0.0 then "right" else "left") else None
  }

  /** Where the card leaves the screen for a swipe in `direction`. */
  function ExitFor(direction: string): (x: int)
    ensures x == ExitOffset || x == -ExitOffset
    ensures x > 0 <==> direction == "right"
  {
    if direction == "right" then ExitOffset else -ExitOffset
  }

  /** The distance row: whole metres below one kilometre, else kilometres. */
  datatype DistanceLabel = Metres(m: int) | Kilometres(km: real)

  /** `Math.round`: the nearest integer, halves rounded up. */
  function Round(x: real): (n: int)
    ensures x - 0.5 < n as real <= x + 0.5
  {
    (x + 0.5).Floor
  }

  function DistanceRow(distance: Option<real>): (r: Option<DistanceLabel>)
    ensures r.None? <==> distance.None?
    ensures r.Some? && r.value.Metres? <==> distance.Some? && distance.value < 1.0
    ensures r.Some? && r.value.Metres? ==> distance.value * 1000.0 - 0.5 < r.value.m as real <= distance.value * 1000.0 + 0.5
    ensures r.Some? && r.value.Kilometres? ==> r.value.km == distance.value
  {
    match distance
    case None => None
    case Some(d) => Some(if d < 1.0 then Metres(Round(d * 1000.0)) else Kilometres(d))
  }

  /** The card's state and the directions it has reported to the page so far, in order. */
  class Card {
    var exitX: int
    var reported: seq<string>

    constructor()
      ensures exitX == 0 && reported == []
    {
      exitX := 0;
      reported := [];
    }

    /** The end of a drag: a swipe past the threshold is reported, anything shorter is ignored. */
    method HandleDragEnd(offsetX: real)
      modifies this
      ensures DragDirection(offsetX).None? ==> exitX == old(exitX) && reported == old(reported)
      ensures DragDirection(offsetX).Some? ==>
        exitX == ExitFor(DragDirection(offsetX).value)
        && reported == old(reported) + [DragDirection(offsetX).value]
    {
      if Abs(offsetX) > DragThreshold {
        exitX := if offsetX > 0.0 then ExitOffset else -ExitOffset;
        reported := reported + [if offsetX > 0.0 then "right" else "left"];
      }
    }

    /** A button forwards its own direction, once. */
    method HandleSwipeButton(direction: string)
      modifies this
      ensures exitX == ExitFor(direction)
      ensures reported == old(reported) + [direction]
    {
      exitX := if direction == "right" then ExitOffset else -ExitOffset;
      reported := reported + [direction];
    }

    method PressPass()
      modifies this
      ensures exitX == -ExitOffset && reported == old(reported) + ["left"]
    {
      HandleSwipeButton("left");
    }

    method PressLike()
      modifies this
      ensures exitX == ExitOffset && reported == old(reported) + ["right"]
    {
      HandleSwipeButton("right");
    }
  }

  /** A drag and a button agree: a drag past the threshold exits where that button would. */
  lemma DragAgreesWithButton(offsetX: real)
    requires DragDirection(offsetX).Some?
    ensures ExitFor(DragDirection(offsetX).value) == (if offsetX > 0.0 then ExitOffset else -ExitOffset)
    ensures DragDirection(offsetX).value == "right" || DragDirection(offsetX).value == "left"
  {
  }
}

/**
 * The mobile discovery card: the card follows the finger while dragging;
 * releasing past 120 px reports the direction and puts the card back at the
 * origin, anything shorter springs back without reporting.
 */
module MobileDiscoverCard {
  import opened Wrappers
  import opened Js
  import WebDiscoverCard

  const SwipeThreshold: real := 120.0

  /** The direction a release at horizontal displacement `dx` reports, if any. */
  function ReleaseDirection(dx: real): (r: Option<string>)
    ensures r.Some? <==> dx > SwipeThreshold || dx < -SwipeThreshold
    ensures r == Some("right") <==> dx > SwipeThreshold
    ensures r == Some("left") <==> dx < -SwipeThreshold
  {
    if (if dx < 0.0 then -dx else dx) > SwipeThreshold then Some(if dx > 0.0 then "right" else "left") else None
  }

  /**
   * The card: its position (`Animated.ValueXY`), the user it shows, and the directions it
   * reported so far. Animations are taken to run to completion.
   */
  class Card {
    var x: real
    var y: real
    var userId: JsId
    var reported: seq<string>

    constructor(userId: JsId)
      ensures x == 0.0 && y == 0.0 && this.userId == userId && reported == []
    {
      x := 0.0;
      y := 0.0;
      this.userId := userId;
      reported := [];
    }

    /** The effect keyed on `user.userId`: a different user puts the card back at the origin. */
    method ShowUser(newUserId: JsId)
      modifies this
      ensures userId == newUserId && reported == old(reported)
      ensures newUserId != old(userId) ==> x == 0.0 && y == 0.0
      ensures newUserId == old(userId) ==> x == old(x) && y == old(y)
    {
      if newUserId != userId {
        x, y := 0.0, 0.0;
      }
      userId := newUserId;
    }

    method Move(dx: real, dy: real)
      modifies this
      ensures x == dx && y == dy
      ensures userId == old(userId) && reported == old(reported)
    {
      x, y := dx, dy;
    }

    /** The release: either the exit animation then the report and a reset, or a spring back. */
    method Release(dx: real, dy: real)
      modifies this
      ensures x == 0.0 && y == 0.0 && userId == old(userId)
      ensures ReleaseDirection(dx).None? ==> reported == old(reported)
      ensures ReleaseDirection(dx).Some? ==> reported == old(reported) + [ReleaseDirection(dx).value]
    {
      if (if dx < 0.0 then -dx else dx) > SwipeThreshold {
        var direction := if dx > 0.0 then "right" else "left";
        reported := reported + [direction];
        x, y := 0.0, 0.0;
      } else {
        x, y := 0.0, 0.0;
      }
    }

    method PressPass()
      modifies this
      ensures reported == old(reported) + ["left"]
      ensures x == old(x) && y == old(y) && userId == old(userId)
    {
      reported := reported + ["left"];
    }

    method PressLike()
      modifies this
      ensures reported == old(reported) + ["right"]
      ensures x == old(x) && y == old(y) && userId == old(userId)
    {
      reported := reported + ["right"];
    }
  }

  /** The mobile card asks for a longer drag than the web card; past both thresholds they agree. */
  lemma ThresholdBetweenCards(dx: real)
    ensures ReleaseDirection(dx).Some? ==> WebDiscoverCard.DragDirection(dx) == ReleaseDirection(dx)
    ensures WebDiscoverCard.DragDirection(dx).Some? && ReleaseDirection(dx).None? <==>
      WebDiscoverCard.DragThreshold < (if dx < 0.0 then -dx else dx) <= SwipeThreshold
  {
  }
}
