/**
 * A graphic groups drawables and keeps the box that bounds them
 * (src/654-Template/654-UI/graphic.cpp).
 *
 * The drawables are kept as boxes in a sequence the methods reassign; each
 * box stands for the position and size of one shared drawable.
 */
module Graphics {

  datatype Box = Box(x: int, y: int, w: int, h: int)

  function Min(a: int, b: int): int { if a <= b then a else b }
  function Max(a: int, b: int): int { if a >= b then a else b }

  /** Smallest left edge, smallest top edge, largest right and bottom edges, scanning left to right. */
  function LeftEdge(bs: seq<Box>): int
    requires |bs| >= 1
  {
    if |bs| == 1 then bs[0].x else Min(LeftEdge(bs[..|bs| - 1]), bs[|bs| - 1].x)
  }

  function TopEdge(bs: seq<Box>): int
    requires |bs| >= 1
  {
    if |bs| == 1 then bs[0].y else Min(TopEdge(bs[..|bs| - 1]), bs[|bs| - 1].y)
  }

  function RightEdge(bs: seq<Box>): int
    requires |bs| >= 1
  {
    if |bs| == 1 then bs[0].x + bs[0].w else Max(RightEdge(bs[..|bs| - 1]), bs[|bs| - 1].x + bs[|bs| - 1].w)
  }

  function BottomEdge(bs: seq<Box>): int
    requires |bs| >= 1
  {
    if |bs| == 1 then bs[0].y + bs[0].h else Max(BottomEdge(bs[..|bs| - 1]), bs[|bs| - 1].y + bs[|bs| - 1].h)
  }

  /** The box a group of drawables occupies. */
  function Bounds(bs: seq<Box>): Box
    requires |bs| >= 1
  {
    Box(LeftEdge(bs), TopEdge(bs), RightEdge(bs) - LeftEdge(bs), BottomEdge(bs) - TopEdge(bs))
  }

  predicate Inside(b: Box, outer: Box) {
    outer.x <= b.x && b.x + b.w <= outer.x + outer.w && outer.y <= b.y && b.y + b.h <= outer.y + outer.h
  }

  /** Every drawable lies inside the bounds. */
  lemma {:induction false} BoundsContain(bs: seq<Box>)
    requires |bs| >= 1
    ensures forall k :: 0 <= k < |bs| ==> Inside(bs[k], Bounds(bs))
  {
    if |bs| > 1 {
      var front := bs[..|bs| - 1];
      BoundsContain(front);
      forall k | 0 <= k < |bs|
        ensures Inside(bs[k], Bounds(bs))
      {
        if k < |bs| - 1 {
          assert bs[k] == front[k];
        }
      }
    }
  }

  /** The bounds are tight: some drawable reaches each of the four edges. */
  lemma {:induction false} BoundsTight(bs: seq<Box>)
    requires |bs| >= 1
    ensures exists k :: 0 <= k < |bs| && bs[k].x == LeftEdge(bs)
    ensures exists k :: 0 <= k < |bs| && bs[k].y == TopEdge(bs)
    ensures exists k :: 0 <= k < |bs| && bs[k].x + bs[k].w == RightEdge(bs)
    ensures exists k :: 0 <= k < |bs| && bs[k].y + bs[k].h == BottomEdge(bs)
  {
    var n := |bs| - 1;
    if n > 0 {
      var front := bs[..n];
      BoundsTight(front);
      var a :| 0 <= a < n && front[a].x == LeftEdge(front);
      var b :| 0 <= b < n && front[b].y == TopEdge(front);
      var c :| 0 <= c < n && front[c].x + front[c].w == RightEdge(front);
      var d :| 0 <= d < n && front[d].y + front[d].h == BottomEdge(front);
      assert bs[if LeftEdge(front) <= bs[n].x then a else n].x == LeftEdge(bs);
      assert bs[if TopEdge(front) <= bs[n].y then b else n].y == TopEdge(bs);
      var rc := if RightEdge(front) >= bs[n].x + bs[n].w then c else n;
      assert bs[rc].x + bs[rc].w == RightEdge(bs);
      var bc := if BottomEdge(front) >= bs[n].y + bs[n].h then d else n;
      assert bs[bc].y + bs[bc].h == BottomEdge(bs);
    } else {
      assert bs[0].x == LeftEdge(bs) && bs[0].y == TopEdge(bs);
    }
  }

  /** Every drawable moved by (dx, dy) and grown by (dw, dh). */
  function Moved(bs: seq<Box>, dx: int, dy: int, dw: int, dh: int): (r: seq<Box>)
    ensures |r| == |bs|
    ensures forall k :: 0 <= k < |bs| ==> r[k] == Box(bs[k].x + dx, bs[k].y + dy, bs[k].w + dw, bs[k].h + dh)
  {
    seq(|bs|, k requires 0 <= k < |bs| => Box(bs[k].x + dx, bs[k].y + dy, bs[k].w + dw, bs[k].h + dh))
  }

  /**
   * Moving and growing every drawable moves and grows the bounds by the
   * same amounts: the stored box stays the tight bound after each setter.
   */
  lemma {:induction false} MovedBounds(bs: seq<Box>, dx: int, dy: int, dw: int, dh: int)
    requires |bs| >= 1
    ensures var b := Bounds(bs);
            Bounds(Moved(bs, dx, dy, dw, dh)) == Box(b.x + dx, b.y + dy, b.w + dw, b.h + dh)
  {
    var n := |bs| - 1;
    var m := Moved(bs, dx, dy, dw, dh);
    if n > 0 {
      MovedBounds(bs[..n], dx, dy, dw, dh);
      assert m[..n] == Moved(bs[..n], dx, dy, dw, dh);
    }
  }

  class Graphic {
    var children: seq<Box>
    var x: int
    var y: int
    var w: int
    var h: int

    /** The stored box is the tight bound of the children. */
    ghost predicate Tight()
      reads this
    {
      |children| >= 1 && Box(x, y, w, h) == Bounds(children)
    }

    /** graphic(graphics): store the drawables and compute their bounds. */
    constructor (children: seq<Box>)
      requires |children| >= 1
      ensures this.children == children && Tight()
    {
      this.children := children;
      new;
      CalculateBounds();
    }

    /** graphic(graphic): a group of one drawable. */
    constructor Single(child: Box)
      ensures children == [child] && Tight() && Box(x, y, w, h) == child
    {
      children := [child];
      new;
      CalculateBounds();
    }

    /**
     * calculate_bounds: starting from the first drawable, take the least
     * left and top edges and the greatest right and bottom edges.
     */
    method CalculateBounds()
      requires |children| >= 1
      modifies this`x, this`y, this`w, this`h
      ensures Box(x, y, w, h) == Bounds(children)
    {
      var minX, minY := children[0].x, children[0].y;
      var maxX, maxY := minX + children[0].w, minY + children[0].h;
      for i := 0 to |children|
        invariant var seen := children[..if i == 0 then 1 else i];
                  minX == LeftEdge(seen) && minY == TopEdge(seen) && maxX == RightEdge(seen) && maxY == BottomEdge(seen)
      {
        var b := children[i];
        if i > 0 {
          assert children[..i + 1][..i] == children[..i];
        }
        minX, minY := Min(minX, b.x), Min(minY, b.y);
        maxX, maxY := Max(maxX, b.x + b.w), Max(maxY, b.y + b.h);
      }
      assert children[..|children|] == children;
      x, y := minX, minY;
      w, h := maxX - minX, maxY - minY;
    }

    /** The loop every setter runs: each drawable moved or grown by the same delta. */
    method MoveChildren(dx: int, dy: int, dw: int, dh: int)
      modifies this`children
      ensures children == Moved(old(children), dx, dy, dw, dh)
    {
      for i := 0 to |children|
        invariant |children| == |old(children)|
        invariant forall k :: 0 <= k < i ==> children[k] == Moved(old(children), dx, dy, dw, dh)[k]
        invariant forall k :: i <= k < |children| ==> children[k] == old(children)[k]
      {
        var b := children[i];
        children := children[i := Box(b.x + dx, b.y + dy, b.w + dw, b.h + dh)];
      }
    }

    /** set_x_pos: move every drawable by the change in x, then store x. */
    method SetXPos(newX: int)
      modifies this`children, this`x
      ensures children == Moved(old(children), newX - old(x), 0, 0, 0) && x == newX
      ensures old(Tight()) ==> Tight()
    {
      ghost var before := children;
      MoveChildren(newX - x, 0, 0, 0);
      if |before| >= 1 {
        MovedBounds(before, newX - x, 0, 0, 0);
      }
      x := newX;
    }

    /** set_y_pos: move every drawable by the change in y, then store y. */
    method SetYPos(newY: int)
      modifies this`children, this`y
      ensures children == Moved(old(children), 0, newY - old(y), 0, 0) && y == newY
      ensures old(Tight()) ==> Tight()
    {
      ghost var before := children;
      MoveChildren(0, newY - y, 0, 0);
      if |before| >= 1 {
        MovedBounds(before, 0, newY - y, 0, 0);
      }
      y := newY;
    }

    /** set_position: set_x_pos followed by set_y_pos. */
    method SetPosition(newX: int, newY: int)
      modifies this`children, this`x, this`y
      ensures children == Moved(Moved(old(children), newX - old(x), 0, 0, 0), 0, newY - old(y), 0, 0)
      ensures x == newX && y == newY
      ensures old(Tight()) ==> Tight()
    {
      SetXPos(newX);
      SetYPos(newY);
    }

    /** set_width: grow every drawable by the change in width, then store it. */
    method SetWidth(newW: int)
      modifies this`children, this`w
      ensures children == Moved(old(children), 0, 0, newW - old(w), 0) && w == newW
      ensures old(Tight()) ==> Tight()
    {
      ghost var before := children;
      MoveChildren(0, 0, newW - w, 0);
      if |before| >= 1 {
        MovedBounds(before, 0, 0, newW - w, 0);
      }
      w := newW;
    }

    /** set_height: grow every drawable by the change in height, then store it. */
    method SetHeight(newH: int)
      modifies this`children, this`h
      ensures children == Moved(old(children), 0, 0, 0, newH - old(h)) && h == newH
      ensures old(Tight()) ==> Tight()
    {
      ghost var before := children;
      MoveChildren(0, 0, 0, newH - h);
      if |before| >= 1 {
        MovedBounds(before, 0, 0, 0, newH - h);
      }
      h := newH;
    }
  }

  /** Two moves compose into one, so set_position moves the group by both deltas at once. */
  lemma MovedTwice(bs: seq<Box>, dx: int, dy: int)
    ensures Moved(Moved(bs, dx, 0, 0, 0), 0, dy, 0, 0) == Moved(bs, dx, dy, 0, 0)
  {
  }
}
