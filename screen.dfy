/**
 * A UI screen: a region of the display holding a table of components
 * (src/654X_UI/screen.cpp and src/654-Template/654-UI/screen.cpp; the table
 * code is the same in both files).
 *
 * The table is a vector of components together with a map from component
 * id to its index in the vector. Components are appended at the end and
 * removed by swapping with the last element and popping, with the map kept
 * in step. Removal is only scheduled by the caller and carried out on the
 * next update poll. The two files differ in which components a render or an
 * update poll skips: the 654X screen also skips every component with a
 * negative id; `idExceptions` says which of the two a screen is.
 */
module Screens {
  import opened Wrappers
  import opened Graphics

  /** Size of the V5 brain's display, in pixels. */
  const SCREEN_WIDTH: int := 480
  const SCREEN_HEIGHT: int := 240

  datatype ScrollDirection = NoScroll | Vertical | Horizontal

  datatype Alignment = Bottom | Top | Left | Right

  /** A component as the screen sees it: its id, its box and whether it asks to be redrawn. */
  datatype Component = Component(id: int, x: int, y: int, w: int, h: int, wantsUpdate: bool)

  /**
   * check_bounds: a screen larger than the display both ways aborts (None).
   * Otherwise a screen taller than the room below its top scrolls
   * vertically, one wider than the room right of its left edge scrolls
   * horizontally, horizontal winning when both hold; with neither the
   * direction is left as it was.
   */
  function CheckBounds(x: int, y: int, w: int, h: int, current: ScrollDirection): (r: Option<ScrollDirection>)
    ensures r == None <==> w > SCREEN_WIDTH && h > SCREEN_HEIGHT
    ensures r.Some? && w > SCREEN_WIDTH - x ==> r.value == Horizontal
    ensures r.Some? && w <= SCREEN_WIDTH - x && h > SCREEN_HEIGHT - y ==> r.value == Vertical
    ensures r.Some? && w <= SCREEN_WIDTH - x && h <= SCREEN_HEIGHT - y ==> r.value == current
  {
    if w > SCREEN_WIDTH && h > SCREEN_HEIGHT then None
    else
      var afterVertical := if h > SCREEN_HEIGHT - y then Vertical else current;
      Some(if w > SCREEN_WIDTH - x then Horizontal else afterVertical)
  }

  /** Once a screen scrolls, re-checking its bounds never turns scrolling off. */
  lemma CheckBoundsKeepsScrolling(x: int, y: int, w: int, h: int, current: ScrollDirection)
    requires current != NoScroll
    ensures var r := CheckBounds(x, y, w, h, current);
            r.Some? ==> r.value != NoScroll
  {
  }

  // ------------------------------------------------------------------ table

  datatype Table = Table(components: seq<Component>, index: map<int, int>)

  /** Every id in the map points at a component that has that id. */
  ghost predicate Sound(t: Table) {
    forall id :: id in t.index ==> 0 <= t.index[id] < |t.components| && t.components[t.index[id]].id == id
  }

  /** Sound, and every component is found through its id (so ids are distinct). */
  ghost predicate Complete(t: Table) {
    && Sound(t)
    && forall k :: 0 <= k < |t.components| ==> t.components[k].id in t.index && t.index[t.components[k].id] == k
  }

  ghost function Ids(t: Table): set<int> {
    set k | 0 <= k < |t.components| :: t.components[k].id
  }

  /** The component moved by (dx, dy). */
  function Offset(c: Component, dx: int, dy: int): Component {
    c.(x := c.x + dx, y := c.y + dy)
  }

  /** push_back, then map the id to the new last index. */
  function Append(t: Table, c: Component): Table {
    Table(t.components + [c], t.index[c.id := |t.components|])
  }

  function AppendAll(t: Table, cs: seq<Component>, dx: int, dy: int): Table
    decreases |cs|
  {
    if cs == [] then t else AppendAll(Append(t, Offset(cs[0], dx, dy)), cs[1..], dx, dy)
  }

  /** Appending keeps the map sound, whatever id is appended. */
  lemma AppendSound(t: Table, c: Component)
    requires Sound(t)
    ensures Sound(Append(t, c))
  {
  }

  /** Appending a component whose id is new keeps every component reachable through the map. */
  lemma AppendFreshComplete(t: Table, c: Component)
    requires Complete(t) && c.id !in t.index
    ensures Complete(Append(t, c)) && Ids(Append(t, c)) == Ids(t) + {c.id}
  {
    var r := Append(t, c);
    forall k | 0 <= k < |r.components|
      ensures r.components[k].id in r.index && r.index[r.components[k].id] == k
    {
      if k < |t.components| {
        assert r.components[k] == t.components[k];
      }
    }
    assert r.components[|t.components|] == c;
    assert forall k :: 0 <= k < |t.components| ==> r.components[k] == t.components[k];
  }

  /**
   * Appending a component whose id is already mapped leaves the earlier
   * component with that id unreachable: the map only remembers the newest.
   */
  lemma AppendDuplicateHidesEarlier(t: Table, c: Component)
    requires Complete(t) && c.id in t.index
    ensures !Complete(Append(t, c))
    ensures var k := t.index[c.id];
            Append(t, c).components[k].id == c.id && Append(t, c).index[c.id] != k
  {
  }

  lemma {:induction false} AppendAllSound(t: Table, cs: seq<Component>, dx: int, dy: int)
    requires Sound(t)
    ensures Sound(AppendAll(t, cs, dx, dy))
    decreases |cs|
  {
    if cs != [] {
      AppendSound(t, Offset(cs[0], dx, dy));
      AppendAllSound(Append(t, Offset(cs[0], dx, dy)), cs[1..], dx, dy);
    }
  }

  /** add_UI_components appends each component, moved by the offset, in order behind the old ones. */
  lemma {:induction false} AppendAllComponents(t: Table, cs: seq<Component>, dx: int, dy: int)
    ensures AppendAll(t, cs, dx, dy).components == t.components + seq(|cs|, k requires 0 <= k < |cs| => Offset(cs[k], dx, dy))
    decreases |cs|
  {
    if cs != [] {
      var t' := Append(t, Offset(cs[0], dx, dy));
      AppendAllComponents(t', cs[1..], dx, dy);
      var moved := seq(|cs|, k requires 0 <= k < |cs| => Offset(cs[k], dx, dy));
      var rest := seq(|cs| - 1, k requires 0 <= k < |cs| - 1 => Offset(cs[1..][k], dx, dy));
      assert moved == [Offset(cs[0], dx, dy)] + rest;
    }
  }

  /**
   * execute_removal for one id: a mapped id's component is swapped with the
   * last one, whose map entry then points at the freed slot; the last slot
   * is popped and the id erased. An unmapped id changes nothing.
   */
  function SwapPop(t: Table, id: int): (r: Table)
    requires Sound(t)
    ensures Sound(r)
  {
    if id !in t.index then t
    else
      var j := t.index[id];
      var last := |t.components| - 1;
      var moved := t.components[last];
      var cs := if j != last then t.components[j := moved] else t.components;
      var index := if j != last then t.index[moved.id := j] else t.index;
      var r := Table(cs[..last], index - {id});
      assert Sound(r) by {
        forall i | i in r.index
          ensures 0 <= r.index[i] < |r.components| && r.components[r.index[i]].id == i
        {
          if j != last && i == moved.id {
          } else {
            assert t.index[i] != j && t.index[i] != last;
          }
        }
      }
      r
  }

  /**
   * On a complete table, removing one id drops exactly the component with
   * that id, keeps all the others, and keeps the table complete.
   */
  lemma SwapPopRemovesExactly(t: Table, id: int)
    requires Complete(t)
    ensures var r := SwapPop(t, id);
            && Complete(r)
            && (forall c :: c in r.components <==> c in t.components && c.id != id)
            && |r.components| == |t.components| - (if id in t.index then 1 else 0)
  {
    if id in t.index {
      var r := SwapPop(t, id);
      var j := t.index[id];
      var last := |t.components| - 1;
      forall k | 0 <= k < |r.components|
        ensures r.components[k].id in r.index && r.index[r.components[k].id] == k
      {
        if k == j {
          assert r.components[k] == t.components[last];
        } else {
          assert r.components[k] == t.components[k];
        }
      }
      forall c
        ensures c in r.components <==> c in t.components && c.id != id
      {
        if c in t.components && c.id != id {
          var k :| 0 <= k < |t.components| && t.components[k] == c;
          if k == last {
            assert r.components[j] == c;
          } else {
            assert r.components[k] == c;
          }
        }
        if c in r.components {
          var k :| 0 <= k < |r.components| && r.components[k] == c;
          assert r.components[k] == t.components[if k == j then last else k];
        }
      }
    }
  }

  /** execute_removal: every id of the removal list in turn. */
  function RemoveAll(t: Table, ids: seq<int>): (r: Table)
    requires Sound(t)
    ensures Sound(r)
    decreases |ids|
  {
    if ids == [] then t else RemoveAll(SwapPop(t, ids[0]), ids[1..])
  }

  /**
   * On a complete table, removing a list of ids keeps the table complete and
   * leaves exactly the components whose ids are not in the list.
   */
  lemma {:induction false} RemoveAllRemovesExactly(t: Table, ids: seq<int>)
    requires Complete(t)
    ensures var r := RemoveAll(t, ids);
            && Complete(r)
            && (forall c :: c in r.components <==> c in t.components && c.id !in ids)
    decreases |ids|
  {
    if ids != [] {
      SwapPopRemovesExactly(t, ids[0]);
      RemoveAllRemovesExactly(SwapPop(t, ids[0]), ids[1..]);
      assert forall i :: i in ids <==> i == ids[0] || i in ids[1..];
    }
  }

  /** Every component moved by (dx, dy); ids and order stay. */
  function ShiftAll(cs: seq<Component>, dx: int, dy: int): (r: seq<Component>)
    ensures |r| == |cs| && forall k :: 0 <= k < |cs| ==> r[k] == Offset(cs[k], dx, dy)
  {
    seq(|cs|, k requires 0 <= k < |cs| => Offset(cs[k], dx, dy))
  }

  /** Moving the components does not disturb the table: soundness and completeness carry over. */
  lemma ShiftAllKeepsTable(t: Table, dx: int, dy: int)
    ensures Sound(t) ==> Sound(Table(ShiftAll(t.components, dx, dy), t.index))
    ensures Complete(t) ==> Complete(Table(ShiftAll(t.components, dx, dy), t.index))
  {
  }

  // -------------------------------------------------------------- rendering

  /** What the skip rule looks at: the screen's box, its scroll direction and which file's rule applies. */
  datatype View = View(x: int, y: int, w: int, h: int, dir: ScrollDirection, idExceptions: bool)

  /** The component lies outside the band the screen scrolls along. */
  predicate OutsideScrollBand(v: View, c: Component) {
    || (v.dir == Vertical && (c.y + c.h < v.y || c.y + c.h > v.y + v.h))
    || (v.dir == Horizontal && (c.x + c.w < v.x || c.x > v.x + v.w))
  }

  /** is_render_exception (654X) and the inline skip test (template): skipped in render and update polls. */
  predicate Skipped(v: View, c: Component) {
    OutsideScrollBand(v, c) || (v.idExceptions && c.id < 0)
  }

  /**
   * The 654X rule skips every component with a negative id; the template's
   * rule skips exactly the components outside the scroll band; a screen
   * that does not scroll skips nothing but, in the 654X rule, negative ids.
   */
  lemma SkipRules(v: View, c: Component)
    ensures v.idExceptions && c.id < 0 ==> Skipped(v, c)
    ensures !v.idExceptions ==> (Skipped(v, c) <==> OutsideScrollBand(v, c))
    ensures v.dir == NoScroll ==> (Skipped(v, c) <==> v.idExceptions && c.id < 0)
  {
  }

  /** The components a render draws, in table order. */
  function Visible(v: View, cs: seq<Component>): (r: seq<Component>)
    ensures forall c :: c in r <==> c in cs && !Skipped(v, c)
    ensures |r| <= |cs|
  {
    if cs == [] then []
    else Visible(v, cs[..|cs| - 1]) + (if Skipped(v, cs[|cs| - 1]) then [] else [cs[|cs| - 1]])
  }

  /** Some component that is not skipped asks to be redrawn. */
  predicate SomeWantsUpdate(v: View, cs: seq<Component>) {
    exists k :: 0 <= k < |cs| && !Skipped(v, cs[k]) && cs[k].wantsUpdate
  }

  /**
   * The scroll-bar position get_aligment_pos gives: bottom puts the bar's
   * bottom edge on the screen's, top and left the screen's own edges, and
   * right the bar's right edge at the display width past the screen's x.
   */
  function AlignmentPos(v: View, align: Alignment, barW: int, barH: int): int {
    match align
    case Bottom => (v.h + v.y) - barH
    case Top => v.y
    case Left => v.x
    case Right => (SCREEN_WIDTH + v.x) - barW
  }

  /**
   * A bar no taller than the screen that is aligned to the bottom or the
   * top lies within the screen's vertical extent; a right-aligned bar ends
   * at SCREEN_WIDTH + x whatever the screen's width, so it ends at the
   * screen's right edge only on a full-width screen.
   */
  lemma AlignedBarPlacement(v: View, barW: int, barH: int)
    ensures 0 <= barH <= v.h ==> v.y <= AlignmentPos(v, Bottom, barW, barH) && AlignmentPos(v, Bottom, barW, barH) + barH == v.y + v.h
    ensures 0 <= barH <= v.h ==> AlignmentPos(v, Top, barW, barH) == v.y && AlignmentPos(v, Top, barW, barH) + barH <= v.y + v.h
    ensures AlignmentPos(v, Left, barW, barH) == v.x
    ensures AlignmentPos(v, Right, barW, barH) + barW == v.x + v.w <==> v.w == SCREEN_WIDTH
  {
  }

  // ----------------------------------------------------------------- screen

  class Screen {
    var x: int
    var y: int
    var w: int
    var h: int
    var scrollDir: ScrollDirection
    var components: seq<Component>
    var idToIndex: map<int, int>
    var removalIds: seq<int>
    var removalScheduled: bool
    var needsRenderUpdate: bool
    var scrollBar: Option<Box>
    const idExceptions: bool

    function TableOf(): Table
      reads this
    {
      Table(components, idToIndex)
    }

    function ViewOf(): View
      reads this
    {
      View(x, y, w, h, scrollDir, idExceptions)
    }

    /** The map is sound: the table invariant every operation keeps. */
    ghost predicate Valid()
      reads this
    {
      Sound(TableOf())
    }

    /**
     * The answer needs_update gives in the current state: a redraw is due
     * when one was noted, when a removal is scheduled, or when a component
     * that is not skipped, of those left after the removal, asks for one.
     */
    ghost predicate PendingRedraw()
      requires Valid()
      reads this
    {
      var left := if removalScheduled then RemoveAll(TableOf(), removalIds).components else components;
      needsRenderUpdate || removalScheduled || SomeWantsUpdate(ViewOf(), left)
    }

    /** screen(x, y, w, h): store the box and check its bounds (a screen that aborts is never built). */
    constructor (x: int, y: int, w: int, h: int, idExceptions: bool)
      requires CheckBounds(x, y, w, h, NoScroll).Some?
      ensures this.x == x && this.y == y && this.w == w && this.h == h && this.idExceptions == idExceptions
      ensures scrollDir == CheckBounds(x, y, w, h, NoScroll).value
      ensures components == [] && idToIndex == map[] && !removalScheduled && !needsRenderUpdate && scrollBar == None
      ensures Valid() && Complete(TableOf())
    {
      this.x, this.y, this.w, this.h := x, y, w, h;
      this.idExceptions := idExceptions;
      scrollDir := CheckBounds(x, y, w, h, NoScroll).value;
      components, idToIndex, removalIds := [], map[], [];
      removalScheduled, needsRenderUpdate := false, false;
      scrollBar := None;
    }

    /** set_width: store the width and re-check the bounds; `aborted` when the program would exit. */
    method SetWidth(newW: int) returns (aborted: bool)
      modifies this`w, this`scrollDir
      ensures w == newW
      ensures var r := CheckBounds(x, y, newW, h, old(scrollDir));
              aborted == r.None? && scrollDir == (if r.Some? then r.value else old(scrollDir))
    {
      w := newW;
      var r := CheckBounds(x, y, w, h, scrollDir);
      aborted := r.None?;
      if r.Some? {
        scrollDir := r.value;
      }
    }

    /** set_height: as set_width, for the height. */
    method SetHeight(newH: int) returns (aborted: bool)
      modifies this`h, this`scrollDir
      ensures h == newH
      ensures var r := CheckBounds(x, y, w, newH, old(scrollDir));
              aborted == r.None? && scrollDir == (if r.Some? then r.value else old(scrollDir))
    {
      h := newH;
      var r := CheckBounds(x, y, w, h, scrollDir);
      aborted := r.None?;
      if r.Some? {
        scrollDir := r.value;
      }
    }

    /**
     * set_x_pos: store x, then move every component by the new x and the
     * current y (the full coordinates, not the change in them).
     */
    method SetXPos(newX: int)
      requires Valid()
      modifies this`x, this`components
      ensures x == newX && components == ShiftAll(old(components), newX, y)
      ensures Valid()
    {
      x := newX;
      ShiftComponents(x, y);
      ShiftAllKeepsTable(old(TableOf()), newX, y);
    }

    /** set_y_pos: store y, then move every component by the current x and the new y. */
    method SetYPos(newY: int)
      requires Valid()
      modifies this`y, this`components
      ensures y == newY && components == ShiftAll(old(components), x, newY)
      ensures Valid()
    {
      y := newY;
      ShiftComponents(x, y);
      ShiftAllKeepsTable(old(TableOf()), x, newY);
    }

    /** The loop of set_x_pos and set_y_pos. */
    method ShiftComponents(dx: int, dy: int)
      modifies this`components
      ensures components == ShiftAll(old(components), dx, dy)
    {
      for i := 0 to |components|
        invariant |components| == |old(components)|
        invariant forall k :: 0 <= k < i ==> components[k] == Offset(old(components)[k], dx, dy)
        invariant forall k :: i <= k < |components| ==> components[k] == old(components)[k]
      {
        components := components[i := Offset(components[i], dx, dy)];
      }
    }

    /** add_scroll_bar: a bar wider or taller than the screen aborts; otherwise it is stored. */
    method AddScrollBar(bar: Box) returns (aborted: bool)
      modifies this`scrollBar
      ensures aborted <==> w < bar.w || h < bar.h
      ensures scrollBar == if aborted then old(scrollBar) else Some(bar)
    {
      aborted := w < bar.w || h < bar.h;
      if !aborted {
        scrollBar := Some(bar);
      }
    }

    /** add_scroll_bar with an alignment: the aligned position is used for both x and y. */
    method AddAlignedScrollBar(bar: Box, align: Alignment) returns (aborted: bool)
      modifies this`scrollBar
      ensures var pos := AlignmentPos(ViewOf(), align, bar.w, bar.h);
              && (aborted <==> w < bar.w || h < bar.h)
              && scrollBar == if aborted then old(scrollBar) else Some(bar.(x := pos, y := pos))
    {
      var pos := AlignmentPos(ViewOf(), align, bar.w, bar.h);
      aborted := AddScrollBar(bar.(x := pos, y := pos));
    }

    /** add_UI_component: move the component by the screen's position and append it. */
    method AddComponent(c: Component)
      requires Valid()
      modifies this`components, this`idToIndex
      ensures TableOf() == Append(old(TableOf()), Offset(c, x, y))
      ensures components == old(components) + [Offset(c, x, y)] && idToIndex[c.id] == |components| - 1
      ensures Valid()
    {
      var t := Append(TableOf(), Offset(c, x, y));
      AppendSound(TableOf(), Offset(c, x, y));
      components, idToIndex := t.components, t.index;
    }

    /** add_UI_components: add_UI_component for each component, in order. */
    method AddComponents(cs: seq<Component>)
      requires Valid()
      modifies this`components, this`idToIndex
      ensures TableOf() == AppendAll(old(TableOf()), cs, x, y)
      ensures Valid()
    {
      ghost var goal := AppendAll(TableOf(), cs, x, y);
      AppendAllSound(TableOf(), cs, x, y);
      for i := 0 to |cs|
        invariant AppendAll(TableOf(), cs[i..], x, y) == goal
      {
        assert cs[i..][1..] == cs[i + 1..];
        var t := Append(TableOf(), Offset(cs[i], x, y));
        components, idToIndex := t.components, t.index;
      }
      assert cs[|cs|..] == [];
    }

    /** remove_UI_component: only record the ids; the table changes at the next update poll. */
    method RemoveComponents(ids: seq<int>)
      modifies this`removalIds, this`removalScheduled
      ensures removalIds == ids && removalScheduled
    {
      removalIds := ids;
      removalScheduled := true;
    }

    /** execute_removal: swap-and-pop each listed id that is mapped. */
    method ExecuteRemoval()
      requires Valid()
      modifies this`components, this`idToIndex
      ensures TableOf() == RemoveAll(old(TableOf()), removalIds)
      ensures Valid()
    {
      ghost var goal := RemoveAll(TableOf(), removalIds);
      for i := 0 to |removalIds|
        invariant Valid()
        invariant RemoveAll(TableOf(), removalIds[i..]) == goal
      {
        assert removalIds[i..][1..] == removalIds[i + 1..];
        var t := SwapPop(TableOf(), removalIds[i]);
        components, idToIndex := t.components, t.index;
      }
      assert removalIds[|removalIds|..] == [];
    }

    /**
     * needs_update: carry out a scheduled removal (which forces a redraw),
     * then note whether some component that is not skipped asks to be
     * redrawn; report a redraw and clear the flag.
     */
    method NeedsUpdate() returns (redraw: bool)
      requires Valid()
      modifies this`components, this`idToIndex, this`removalScheduled, this`needsRenderUpdate
      ensures TableOf() == if old(removalScheduled) then RemoveAll(old(TableOf()), removalIds) else old(TableOf())
      ensures redraw == (old(needsRenderUpdate) || old(removalScheduled) || SomeWantsUpdate(ViewOf(), components))
      ensures redraw == old(PendingRedraw())
      ensures !removalScheduled && !needsRenderUpdate
      ensures Valid()
      ensures !redraw ==> !PendingRedraw()
    {
      if removalScheduled {
        ExecuteRemoval();
        removalScheduled := false;
        needsRenderUpdate := true;
      }
      ghost var before := needsRenderUpdate;
      ghost var table := TableOf();
      for i := 0 to |components|
        invariant TableOf() == table && !removalScheduled
        invariant needsRenderUpdate == (before || exists k :: 0 <= k < i && !Skipped(ViewOf(), components[k]) && components[k].wantsUpdate)
      {
        if !Skipped(ViewOf(), components[i]) && components[i].wantsUpdate {
          needsRenderUpdate := true;
        }
      }
      redraw := needsRenderUpdate;
      needsRenderUpdate := false;
    }

    /** render: the components drawn, in table order, skipping those the rule skips. */
    method Render() returns (drawn: seq<Component>)
      ensures drawn == Visible(ViewOf(), components)
    {
      drawn := [];
      for i := 0 to |components|
        invariant drawn == Visible(ViewOf(), components[..i])
      {
        assert components[..i + 1][..i] == components[..i];
        if !Skipped(ViewOf(), components[i]) {
          drawn := drawn + [components[i]];
        }
      }
      assert components[..|components|] == components;
    }
  }
}
