/**
 * Client walk-throughs of the render node: each builds a small tree and shows,
 * from the contracts alone, what the frame passes do.
 */
module Scenarios {
  import opened Wrappers
  import opened Geometry
  import opened Effects
  import opened Nodes

  const Plain := StyleRule(0.0, 0.0, 2.0, 0.0, 1.0, 1.0, 1.0, 1.0)

  /** Hooks that report a 10 by 4 content box at offset zero. */
  function FixedHooks(): LayoutHooks
  {
    LayoutHooks(ls => Some(Plain), ls => 10.0, ls => 4.0, ls => 0.0, ls => 0.0)
  }

  /** A node built with z-index 1 whose element moves to 5 is removed from and re-added to its parent. */
  method ZOrderResort()
  {
    var p := new ParentRenderNode(0.0, 0.0);
    var e := new UiElement("button", 1, Visible);
    var n := new RenderNode(p, e);
    assert p.calls == [ChildDirty(true)];
    e.zIndex := 5;
    var r := n.Layout(LayoutState(false), FixedHooks());
    assert r == Pass;
    assert p.calls == [ChildDirty(true), Removed(n, 1), Added(n, 5)];
    assert n.zIndex == 5 && !n.dirty && n.initialLayoutOccurred;
  }

  /** A second layout of a clean node on an unchanged screen recomputes nothing. */
  method DirtySuppression()
  {
    var p := new ParentRenderNode(0.0, 0.0);
    var e := new UiElement("label", 0, Visible);
    var n := new RenderNode(p, e);
    var r := n.Layout(LayoutState(false), FixedHooks());
    assert n.preferredContentWidth == 10.0;
    var other := LayoutHooks(ls => None, ls => 99.0, ls => 99.0, ls => 9.0, ls => 9.0);
    r := n.Layout(LayoutState(false), other);
    assert n.preferredContentWidth == 10.0 && n.style == Some(Plain);
  }

  /** A HIDDEN element is laid out to zero and stays dirty and not laid out. */
  method HiddenZeroing()
  {
    var e := new UiElement("panel", 0, Hidden);
    var n := new RenderNode(null, e);
    var r := n.Layout(LayoutState(false), FixedHooks());
    assert r == Pass && n.preferredContentWidth == 0.0 && n.xOffset == 0.0;
    assert n.dirty && !n.initialLayoutOccurred;
    var u := n.Update(EffectBehaviour(f => false, (f, c, t) => EffectStep(c, false)));
    assert u == Success(NotLaidOut);
  }

  /** Snap to the target area, then hover in and out of it. */
  method HoverInAndOut()
  {
    var p := new ParentRenderNode(100.0, 50.0);
    var e := new UiElement("button", 0, Visible);
    var n := new RenderNode(p, e);
    var r := n.Layout(LayoutState(false), FixedHooks());
    var u := n.Update(EffectBehaviour(f => false, (f, c, t) => EffectStep(c, false)));
    assert n.targetArea == Rect(102.0, 50.0, 12.0, 6.0);
    assert n.currentArea == n.targetArea;
    var handled := n.MouseMoved(105, 52);
    assert handled && n.state == Hover && e.hoverNotifications == [OnBeginHover];
    handled := n.MouseMoved(0, 0);
    assert !handled && n.state == Normal && e.hoverNotifications == [OnBeginHover, OnEndHover];
    handled := n.MouseMoved(0, 0);
    assert e.hoverNotifications == [OnBeginHover, OnEndHover];
  }

  /** An effect that is finished at its first check is reaped and has no hooks in the next render. */
  method ReapThenRender()
  {
    var e := new UiElement("fade", 0, Visible);
    var n := new RenderNode(null, e);
    var r := n.Layout(LayoutState(true), FixedHooks());
    var done, live := UiEffect(1), UiEffect(2);
    n.ApplyEffect(done);
    n.ApplyEffect(live);
    var b := EffectBehaviour(f => f == done, (f, c, t) => EffectStep(t, true));
    assert n.initialLayoutOccurred && n.style.Some? && n.effects == [done, live];
    var u := n.Update(b);
    assert [done, live][1..] == [live] && [live][1..] == [];
    assert n.effects == Unfinished([done, live], b.isFinished) == [live];
    assert u.Success? && u.value.updated == [live];
    var calls := n.Render();
    assert calls == [PreRender(live), RenderElement, PostRender(live)];
  }
}
