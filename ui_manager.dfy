/**
 * The UI manager (src/654-Template/654-UI/UI_manager.cpp): a render queue
 * of screens with a double buffer for swapping them, and the exclusivity
 * rule of a group of selector toggles.
 *
 * The three globals become the fields of one object; one pass of the
 * endless render loop is one call of RenderStep.
 */
module UiManager {
  import opened UiIds
  import opened Screens

  /** What a toggle component keeps that the selector rule touches; toggle.cpp is not part of this model. */
  class Toggle {
    const id: int
    var pressed: bool
    var locked: bool

    constructor (id: int)
      ensures this.id == id && !pressed && !locked
    {
      this.id := id;
      pressed, locked := false, false;
    }

    /** unpress: taken to clear both the pressed state and the lock. */
    method Unpress()
      modifies this
      ensures !pressed && !locked
    {
      pressed, locked := false, false;
    }

    method Lock()
      modifies this`locked
      ensures locked
    {
      locked := true;
    }
  }

  /** The group a component belongs to in the selector rule: the two toggle-group digits of its id. */
  function GroupOf(id: int): int {
    DecodeToggleGroup(id)
  }

  /**
   * UI_execute_selector_toggles: for a toggle of a positive group, lock it
   * when it is pressed and locking is asked for, and unpress every other
   * component of the screen in the same group. A group of zero or below
   * (every negative id) changes nothing.
   */
  method ExecuteSelectorToggles(tgl: Toggle, components: seq<Toggle>, lockToggles: bool)
    modifies tgl, set c | c in components
    ensures var group := GroupOf(tgl.id);
            && tgl.pressed == old(tgl.pressed)
            && tgl.locked == (old(tgl.locked) || (group > 0 && old(tgl.pressed) && lockToggles))
            && forall c :: c in components && c != tgl ==>
                 if group > 0 && GroupOf(c.id) == group then !c.pressed && !c.locked
                 else c.pressed == old(c.pressed) && c.locked == old(c.locked)
  {
    var group := GroupOf(tgl.id);
    if group <= 0 {
      return;
    }
    if tgl.pressed && lockToggles {
      tgl.Lock();
    }
    ghost var tglLocked := tgl.locked;
    for i := 0 to |components|
      invariant tgl.pressed == old(tgl.pressed) && tgl.locked == tglLocked
      invariant forall c :: c in components[..i] && c != tgl && GroupOf(c.id) == group ==> !c.pressed && !c.locked
      invariant forall c :: c in components && c != tgl && GroupOf(c.id) != group ==>
                  c.pressed == old(c.pressed) && c.locked == old(c.locked)
      invariant forall c :: c in components && c != tgl && c !in components[..i] ==>
                  c.pressed == old(c.pressed) && c.locked == old(c.locked)
    {
      var c := components[i];
      assert components[..i + 1] == components[..i] + [c];
      if c != tgl && group == GroupOf(c.id) {
        c.Unpress();
      }
    }
    assert components[..|components|] == components;
  }

  /** A toggle with a non-positive group, such as any negative id, is left alone with all its peers. */
  lemma NegativeIdsSelectNothing(id: int)
    requires id < 0
    ensures GroupOf(id) <= 0
  {
    DecodeBounds(id);
  }

  class Manager {
    var renderQueue: seq<Screen>
    var renderBuffer: seq<Screen>
    var screenSwapping: bool

    constructor ()
      ensures renderQueue == [] && renderBuffer == [] && !screenSwapping
    {
      renderQueue, renderBuffer, screenSwapping := [], [], false;
    }

    /** UI_swap_screens: park the screens in the buffer and raise the swap flag. */
    method SwapScreens(screens: seq<Screen>)
      modifies this
      ensures renderBuffer == screens && screenSwapping && renderQueue == old(renderQueue)
    {
      renderBuffer := screens;
      screenSwapping := true;
    }

    /** The swap at the head of a render pass: the buffer becomes the queue and is cleared. */
    method TakeSwap() returns (swapped: bool)
      modifies this
      ensures swapped == old(screenSwapping) && !screenSwapping
      ensures swapped ==> renderQueue == old(renderBuffer) && renderBuffer == []
      ensures !swapped ==> renderQueue == old(renderQueue) && renderBuffer == old(renderBuffer)
    {
      swapped := screenSwapping;
      if screenSwapping {
        screenSwapping := false;
        renderQueue := renderBuffer;
        renderBuffer := [];
      }
    }

    /**
     * One pass of UI_render: take a pending swap (which forces a redraw),
     * poll the queued screens in order until one reports an update, and
     * render every queued screen when a redraw is due. `reports` are the
     * answers of the screens polled, `frames` what each rendered screen drew.
     */
    method RenderStep() returns (reports: seq<bool>, frames: seq<seq<Component>>)
      requires forall s :: s in renderQueue || s in renderBuffer ==> s.Valid()
      modifies this, set s | s in renderQueue || s in renderBuffer
      ensures old(screenSwapping) ==> renderQueue == old(renderBuffer) && renderBuffer == []
      ensures !old(screenSwapping) ==> renderQueue == old(renderQueue) && renderBuffer == old(renderBuffer)
      ensures !screenSwapping
      ensures PolledInOrder(reports, |renderQueue|)
      ensures var queue := renderQueue;
              forall k :: 0 <= k < |reports| ==> reports[k] == old(queue[k].PendingRedraw())
      ensures var queue := renderQueue;
              forall k :: |reports| <= k < |queue| && queue[k] !in queue[..|reports|] ==> unchanged(queue[k])
      ensures var queue := renderQueue;
              var redraw := old(screenSwapping) || exists k :: 0 <= k < |queue| && old(queue[k].PendingRedraw());
              && (redraw ==> frames == Frames(renderQueue))
              && (!redraw ==> frames == [])
      ensures forall s :: s in renderQueue ==> s.Valid()
    {
      var swapped := TakeSwap();
      var queue := renderQueue;
      reports := PollUntilUpdate(queue);
      frames := [];
      if swapped || true in reports {
        frames := RenderAll(queue);
      }
    }
  }

  /** The answers of a poll that stops at the first screen reporting an update. */
  ghost predicate PolledInOrder(reports: seq<bool>, queued: nat) {
    && |reports| <= queued
    && (forall k :: 0 <= k < |reports| - 1 ==> !reports[k])
    && (|reports| < queued ==> |reports| >= 1 && reports[|reports| - 1])
  }

  /** What rendering the queue draws: each screen's visible components, screen by screen. */
  ghost function Frames(queue: seq<Screen>): seq<seq<Component>>
    reads set s | s in queue
  {
    seq(|queue|, k requires 0 <= k < |queue| reads queue => Visible(queue[k].ViewOf(), queue[k].components))
  }

  /**
   * The polling loop of UI_render: needs_update on each screen until one
   * answers yes. Each answer is the one the screen had pending when the
   * pass began (a screen listed twice answers no the second time too, as it
   * did the first), some screen answers yes exactly when some screen had a
   * redraw pending, and the screens after the stop are not touched.
   */
  method PollUntilUpdate(queue: seq<Screen>) returns (reports: seq<bool>)
    requires forall s :: s in queue ==> s.Valid()
    modifies set s | s in queue
    ensures PolledInOrder(reports, |queue|)
    ensures forall k :: 0 <= k < |reports| ==> reports[k] == old(queue[k].PendingRedraw())
    ensures true in reports <==> exists k :: 0 <= k < |queue| && old(queue[k].PendingRedraw())
    ensures forall k :: |reports| <= k < |queue| && queue[k] !in queue[..|reports|] ==> unchanged(queue[k])
    ensures forall s :: s in queue ==> s.Valid()
  {
    reports := [];
    var i := 0;
    while i < |queue|
      invariant i <= |queue| && |reports| == i
      invariant forall s :: s in queue ==> s.Valid()
      invariant forall k :: 0 <= k < i ==> !reports[k] && !old(queue[k].PendingRedraw()) && !queue[k].PendingRedraw()
      invariant forall k :: i <= k < |queue| && queue[k] !in queue[..i] ==> unchanged(queue[k])
    {
      var screen := queue[i];
      ghost var polled := screen in queue[..i];
      assert polled ==> !screen.PendingRedraw() && !old(screen.PendingRedraw());
      assert !polled ==> screen.PendingRedraw() == old(screen.PendingRedraw());
      var update := screen.NeedsUpdate();
      reports := reports + [update];
      if update {
        return;
      }
      assert queue[..i + 1] == queue[..i] + [screen];
      i := i + 1;
    }
  }

  /** The rendering loop of UI_render: render each queued screen in order. */
  method RenderAll(queue: seq<Screen>) returns (frames: seq<seq<Component>>)
    ensures frames == Frames(queue)
  {
    frames := [];
    for k := 0 to |queue|
      invariant |frames| == k
      invariant forall m :: 0 <= m < k ==> frames[m] == Visible(queue[m].ViewOf(), queue[m].components)
    {
      var drawn := queue[k].Render();
      frames := frames + [drawn];
    }
  }
}
