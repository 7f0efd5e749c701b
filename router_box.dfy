/** `RouterBox`: an axis-aligned box the line routers route through; its borders can only
    be moved so that left stays at most right and up at most down. */
module Routing {
  import opened Wrappers

  function Abs(x: real): (r: real)
    ensures r >= 0.0 && (r == x || r == -x)
  {
    if x < 0.0 then -x else x
  }

  /** `inRange`: `num` lies between `left` and `right`, both included. */
  function InRange(left: real, right: real, num: real): (r: bool)
    ensures r <==> left <= num && num <= right
    ensures r ==> left <= right
  {
    num <= right && num >= left
  }

  class RouterBox {
    var leftBorder: real
    var rightBorder: real
    var upBorder: real
    var downBorder: real
    /** The node the box belongs to, if any. */
    const node: Option<nat>

    /** The borders are in order. */
    ghost predicate Valid()
      reads this
    {
      leftBorder <= rightBorder && upBorder <= downBorder
    }

    constructor (leftBorder: real, rightBorder: real, upBorder: real, downBorder: real, node: Option<nat>)
      ensures this.leftBorder == leftBorder && this.rightBorder == rightBorder
      ensures this.upBorder == upBorder && this.downBorder == downBorder
      ensures this.node == node
    {
      this.leftBorder := leftBorder;
      this.rightBorder := rightBorder;
      this.upBorder := upBorder;
      this.downBorder := downBorder;
      this.node := node;
    }

    function Width(): real
      reads this
    {
      rightBorder - leftBorder
    }

    function Height(): real
      reads this
    {
      downBorder - upBorder
    }

    /** `setLeftBorder`: refused, with nothing changed, when the new left border would lie
        right of the right border. */
    method SetLeftBorder(left: real) returns (r: Result<()>)
      modifies this`leftBorder
      ensures left > old(rightBorder) <==> r.Err?
      ensures r.Err? ==> r.error.IllegalArgument? && leftBorder == old(leftBorder)
      ensures r.Ok? ==> leftBorder == left
      ensures old(Valid()) ==> Valid()
    {
      if left > rightBorder {
        return Err(IllegalArgument("Horizontal border error"));
      }
      leftBorder := left;
      return Ok(());
    }

    /** `setRightBorder`: refused when the new right border would lie left of the left one. */
    method SetRightBorder(right: real) returns (r: Result<()>)
      modifies this`rightBorder
      ensures old(leftBorder) > right <==> r.Err?
      ensures r.Err? ==> r.error.IllegalArgument? && rightBorder == old(rightBorder)
      ensures r.Ok? ==> rightBorder == right
      ensures old(Valid()) ==> Valid()
    {
      if leftBorder > right {
        return Err(IllegalArgument("Horizontal border error"));
      }
      rightBorder := right;
      return Ok(());
    }

    /** `setUpBorder`: refused when the new up border would lie below the down border. */
    method SetUpBorder(up: real) returns (r: Result<()>)
      modifies this`upBorder
      ensures up > old(downBorder) <==> r.Err?
      ensures r.Err? ==> r.error.IllegalArgument? && upBorder == old(upBorder)
      ensures r.Ok? ==> upBorder == up
      ensures old(Valid()) ==> Valid()
    {
      if up > downBorder {
        return Err(IllegalArgument("Vertical border error"));
      }
      upBorder := up;
      return Ok(());
    }

    /** `setDownBorder`: refused when the new down border would lie above the up border. */
    method SetDownBorder(down: real) returns (r: Result<()>)
      modifies this`downBorder
      ensures old(upBorder) > down <==> r.Err?
      ensures r.Err? ==> r.error.IllegalArgument? && downBorder == old(downBorder)
      ensures r.Ok? ==> downBorder == down
      ensures old(Valid()) ==> Valid()
    {
      if upBorder > down {
        return Err(IllegalArgument("Vertical border error"));
      }
      downBorder := down;
      return Ok(());
    }

    predicate InXRange(x: real)
      reads this
    {
      InRange(leftBorder, rightBorder, x)
    }

    predicate InYRange(y: real)
      reads this
    {
      InRange(upBorder, downBorder, y)
    }

    /** `in`: a point is in the box when it lies in both ranges; no point is in no box. */
    function In(p: Option<(real, real)>): (r: bool)
      reads this
      ensures p.None? ==> !r
      ensures p.Some? ==> (r <==> leftBorder <= p.value.0 <= rightBorder && upBorder <= p.value.1 <= downBorder)
    {
      if p.None? then false else InXRange(p.value.0) && InYRange(p.value.1)
    }

    /** `closerHorizontalWall`: one of the two vertical walls, the left one exactly when it
        is at least as near to `x` as the right one. */
    function CloserHorizontalWall(x: real): (r: real)
      reads this
      ensures r == leftBorder || r == rightBorder
      ensures Valid() ==> (r == leftBorder <==> Abs(x - leftBorder) <= Abs(x - rightBorder))
      ensures Valid() ==> Abs(x - r) <= Abs(x - leftBorder) && Abs(x - r) <= Abs(x - rightBorder)
    {
      if x < leftBorder then leftBorder
      else if x > rightBorder then rightBorder
      else if x - leftBorder <= rightBorder - x then leftBorder
      else rightBorder
    }

    /** `closerVerticalWall`: the up wall exactly when it is at least as near to `y` as the
        down wall. */
    function CloserVerticalWall(y: real): (r: real)
      reads this
      ensures r == upBorder || r == downBorder
      ensures Valid() ==> (r == upBorder <==> Abs(y - upBorder) <= Abs(y - downBorder))
      ensures Valid() ==> Abs(y - r) <= Abs(y - upBorder) && Abs(y - r) <= Abs(y - downBorder)
    {
      if y < upBorder then upBorder
      else if y > downBorder then downBorder
      else if y - upBorder <= downBorder - y then upBorder
      else downBorder
    }

    /** `minGuarantee`: widen the box to the left and heighten it upwards until it is at least
        `minWidth` wide and `minHeight` high; a box large enough already is left alone, and
        the right and down borders never move. */
    method MinGuarantee(minWidth: real, minHeight: real)
      modifies this`leftBorder, this`upBorder
      ensures rightBorder == old(rightBorder) && downBorder == old(downBorder)
      ensures Width() >= minWidth && Height() >= minHeight
      ensures old(Width()) >= minWidth ==> leftBorder == old(leftBorder)
      ensures old(Width()) < minWidth ==> Width() == minWidth
      ensures old(Height()) >= minHeight ==> upBorder == old(upBorder)
      ensures old(Height()) < minHeight ==> Height() == minHeight
      ensures old(Valid()) ==> Valid()
    {
      if Width() < minWidth {
        leftBorder := rightBorder - minWidth;
      }
      if Height() < minHeight {
        upBorder := downBorder - minHeight;
      }
    }
  }

  /** For a point between the walls, the nearer wall is at most half the box's width away,
      and it still lies in the box's x range. */
  lemma {:induction false} CloserWallWithinHalf(b: RouterBox, x: real)
    requires b.Valid() && b.InXRange(x)
    ensures Abs(x - b.CloserHorizontalWall(x)) * 2.0 <= b.Width()
    ensures b.InXRange(b.CloserHorizontalWall(x))
  {
    var w := b.CloserHorizontalWall(x);
    assert Abs(x - w) <= x - b.leftBorder && Abs(x - w) <= b.rightBorder - x;
  }

  /** The same for the up and down walls and the box's height. */
  lemma {:induction false} CloserVerticalWallWithinHalf(b: RouterBox, y: real)
    requires b.Valid() && b.InYRange(y)
    ensures Abs(y - b.CloserVerticalWall(y)) * 2.0 <= b.Height()
    ensures b.InYRange(b.CloserVerticalWall(y))
  {
    var w := b.CloserVerticalWall(y);
    assert Abs(y - w) <= y - b.upBorder && Abs(y - w) <= b.downBorder - y;
  }
}
