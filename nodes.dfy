/**
 * The render node of the UI toolkit: one UI element's on-screen representation.
 * It lays itself out when dirty, composes its target area with its parent's
 * position, reaps and runs its effects, renders itself wrapped in their hooks and
 * runs a NORMAL/HOVER state machine for pointer movement.
 */
module Nodes {
  import opened Wrappers
  import opened Geometry
  import opened Effects

  datatype Visibility = Visible | Hidden | NoRender

  datatype NodeState = Normal | Hover

  /** A notification the node sends to the element's hover listeners. */
  datatype HoverNotification = OnBeginHover | OnEndHover

  /** The spacing part of a resolved style rule. */
  datatype StyleRule = StyleRule(
    marginTop: real, marginBottom: real, marginLeft: real, marginRight: real,
    paddingTop: real, paddingBottom: real, paddingLeft: real, paddingRight: real)

  /** The ambient parameters of one layout pass. */
  datatype LayoutState = LayoutState(screenSizeChanged: bool)

  /**
   * The abstract hooks a concrete node kind supplies to the layout pass, as the
   * kind answers them in its current state; determineStyleRule may give no style.
   */
  datatype LayoutHooks = LayoutHooks(
    determineStyleRule: LayoutState -> Option<StyleRule>,
    determinePreferredContentWidth: LayoutState -> real,
    determinePreferredContentHeight: LayoutState -> real,
    determineXOffset: LayoutState -> real,
    determineYOffset: LayoutState -> real)

  /** The node's failures: the missing style update reports, and the null parent layout dereferences. */
  datatype NodeError = NoStyleFound(elementId: string) | NullParent

  /** What an update pass did: nothing before the first layout, or which effects it updated and the visibility it computed. */
  datatype UpdateReport = NotLaidOut | Advanced(visible: bool, updated: seq<UiEffect>)

  /** The notifications one state change sends: begin on entering HOVER, end on leaving it, none when the state stays. */
  function HoverChange(from: NodeState, to: NodeState): (r: seq<HoverNotification>)
    ensures |r| <= 1
    ensures from == to ==> r == []
    ensures r == [OnBeginHover] <==> from != Hover && to == Hover
    ensures r == [OnEndHover] <==> from == Hover && to != Hover
  {
    if from == to then []
    else if to == Hover then [OnBeginHover]
    else if from == Hover then [OnEndHover]
    else []
  }

  /** The UI element a node represents, reduced to what the node reads and the hover notifications it receives. */
  class UiElement {
    var id: string
    var zIndex: int
    var visibility: Visibility
    var hoverNotifications: seq<HoverNotification>

    constructor (id: string, zIndex: int, visibility: Visibility)
      ensures this.id == id && this.zIndex == zIndex && this.visibility == visibility
      ensures hoverNotifications == []
    {
      this.id := id;
      this.zIndex := zIndex;
      this.visibility := visibility;
      hoverNotifications := [];
    }

    method NotifyHoverListenersOnBeginHover()
      modifies this`hoverNotifications
      ensures hoverNotifications == old(hoverNotifications) + [OnBeginHover]
    {
      hoverNotifications := hoverNotifications + [OnBeginHover];
    }

    method NotifyHoverListenersOnEndHover()
      modifies this`hoverNotifications
      ensures hoverNotifications == old(hoverNotifications) + [OnEndHover]
    {
      hoverNotifications := hoverNotifications + [OnEndHover];
    }
  }

  /**
   * A call a child node makes on its parent. Removal and insertion record the
   * child's z-index at the time of the call: the parent orders its children by it.
   */
  datatype ParentCall = Removed(child: RenderNode, zIndex: int) | Added(child: RenderNode, zIndex: int) | ChildDirty(dirty: bool)

  /**
   * The parent node as its children see it: its position and the calls it has
   * received. Its child ordering and its own dirty handling are outside this model.
   */
  class ParentRenderNode {
    var x: real
    var y: real
    var calls: seq<ParentCall>

    constructor (x: real, y: real)
      ensures this.x == x && this.y == y && calls == []
    {
      this.x := x;
      this.y := y;
      calls := [];
    }

    method RemoveChild(child: RenderNode)
      modifies this`calls
      ensures calls == old(calls) + [Removed(child, child.zIndex)]
    {
      calls := calls + [Removed(child, child.zIndex)];
    }

    method AddChild(child: RenderNode)
      modifies this`calls
      ensures calls == old(calls) + [Added(child, child.zIndex)]
    {
      calls := calls + [Added(child, child.zIndex)];
    }

    method SetChildDirty(dirty: bool)
      modifies this`calls
      ensures calls == old(calls) + [ChildDirty(dirty)]
    {
      calls := calls + [ChildDirty(dirty)];
    }
  }

  class RenderNode {
    const parent: ParentRenderNode?
    const element: UiElement

    var effects: seq<UiEffect>
    var currentArea: Rect
    var targetArea: Rect
    var style: Option<StyleRule>
    var preferredContentWidth: real
    var preferredContentHeight: real
    var xOffset: real
    var yOffset: real
    var zIndex: int
    var hiddenByLayoutRule: bool
    var initialLayoutOccurred: bool
    var relativeX: real
    var relativeY: real
    var dirty: bool
    var state: NodeState

    /** The parent, as a frame: empty for a root node. */
    function ParentFrame(): set<ParentRenderNode>
    {
      if parent == null then {} else {parent}
    }

    /** A new node is dirty, not laid out, NORMAL, mirrors the element's z-index and has told its parent it is dirty. */
    constructor (parent: ParentRenderNode?, element: UiElement)
      modifies (if parent == null then {} else {parent})`calls
      ensures this.parent == parent && this.element == element
      ensures dirty && !initialLayoutOccurred && state == Normal
      ensures zIndex == element.zIndex
      ensures effects == [] && style == None && !hiddenByLayoutRule
      ensures relativeX == 0.0 && relativeY == 0.0
      ensures parent != null ==> parent.calls == old(parent.calls) + [ChildDirty(true)]
    {
      this.parent := parent;
      this.element := element;
      effects := [];
      currentArea := Rect(0.0, 0.0, 0.0, 0.0);
      targetArea := Rect(0.0, 0.0, 0.0, 0.0);
      style := None;
      preferredContentWidth, preferredContentHeight := 0.0, 0.0;
      xOffset, yOffset := 0.0, 0.0;
      zIndex := element.zIndex;
      hiddenByLayoutRule := false;
      initialLayoutOccurred := false;
      relativeX, relativeY := 0.0, 0.0;
      dirty := false;
      state := Normal;
      new;
      SetDirty(true);
    }

    function PreferredInnerWidth(): real
      reads this`preferredContentWidth, this`style
      requires style.Some?
    {
      preferredContentWidth + style.value.paddingLeft + style.value.paddingRight
    }

    function PreferredInnerHeight(): real
      reads this`preferredContentHeight, this`style
      requires style.Some?
    {
      preferredContentHeight + style.value.paddingTop + style.value.paddingBottom
    }

    /** The outer width adds the horizontal margins to the inner width. */
    function PreferredOuterWidth(): (w: real)
      reads this
      requires style.Some?
      ensures w == PreferredInnerWidth() + style.value.marginLeft + style.value.marginRight
    {
      preferredContentWidth + style.value.paddingLeft + style.value.paddingRight
        + style.value.marginLeft + style.value.marginRight
    }

    /** The outer height adds the vertical margins to the inner height. */
    function PreferredOuterHeight(): (h: real)
      reads this
      requires style.Some?
      ensures h == PreferredInnerHeight() + style.value.marginTop + style.value.marginBottom
    {
      preferredContentHeight + style.value.paddingTop + style.value.paddingBottom
        + style.value.marginTop + style.value.marginBottom
    }

    /** The absolute position the node's relative position is composed with. */
    function ParentOrigin(): Point
      reads parent
    {
      if parent == null then Origin else Point(parent.x, parent.y)
    }

    /**
     * Where the node should be this frame: its relative position plus its left and
     * top margins, moved by the parent's absolute position, sized by the inner size.
     */
    function TargetArea(): (t: Rect)
      reads this`relativeX, this`relativeY, this`style, this`preferredContentWidth, this`preferredContentHeight, parent
      requires style.Some?
      ensures t == Translate(Rect(relativeX + style.value.marginLeft, relativeY + style.value.marginTop,
                                  PreferredInnerWidth(), PreferredInnerHeight()), ParentOrigin())
    {
      var s := style.value;
      if parent == null then
        Rect(relativeX + s.marginLeft, relativeY + s.marginTop, PreferredInnerWidth(), PreferredInnerHeight())
      else
        Rect(parent.x + relativeX + s.marginLeft, parent.y + s.marginTop + relativeY,
             PreferredInnerWidth(), PreferredInnerHeight())
    }

    /**
     * Whether the node takes part in layout. The size test reads the style, so a
     * node that is neither hidden by a rule nor HIDDEN needs one.
     */
    function IsIncludedInLayout(): (r: bool)
      reads this, element
      requires hiddenByLayoutRule || element.visibility == Hidden || style.Some?
      ensures hiddenByLayoutRule || element.visibility == Hidden ==> !r
      ensures r ==> PreferredInnerWidth() > 0.0 || PreferredInnerHeight() > 0.0
    {
      if hiddenByLayoutRule then false
      else if element.visibility == Hidden then false
      else PreferredInnerWidth() > 0.0 || PreferredInnerHeight() > 0.0
    }

    /** Whether the node is drawn: stricter than layout inclusion. */
    function IsIncludedInRender(): (r: bool)
      reads this, element
      ensures r ==> initialLayoutOccurred && style.Some? && element.visibility == Visible
      ensures r ==> IsIncludedInLayout()
    {
      if !initialLayoutOccurred then false
      else if hiddenByLayoutRule then false
      else if style.None? then false
      else if element.visibility != Visible then false
      else PreferredInnerWidth() > 0.0 || PreferredInnerHeight() > 0.0
    }

    /** This node when the element's id is `id`, otherwise none. */
    function GetElementById(id: string): (r: Option<RenderNode>)
      reads this, element
      ensures r.Some? <==> element.id == id
      ensures r.Some? ==> r.value == this
    {
      if element.id == id then Some(this) else None
    }

    /**
     * The layout pass. A clean node on an unchanged screen does nothing. Otherwise
     * the style is resolved, a drifted z-index is re-sorted into the parent, and the
     * sizes and offsets are zeroed for a HIDDEN element (leaving the node dirty and
     * its layout flag as it was) or taken from the hooks (making the node clean and
     * laid out). A root node whose z-index drifted fails on its null parent.
     */
    method Layout(ls: LayoutState, hooks: LayoutHooks) returns (r: Outcome<NodeError>)
      modifies this`style, this`zIndex, this`preferredContentWidth, this`preferredContentHeight
      modifies this`xOffset, this`yOffset, this`dirty, this`initialLayoutOccurred, ParentFrame()`calls
      ensures r == Pass || r == Fail(NullParent)
      ensures !old(dirty) && !ls.screenSizeChanged ==> r == Pass && unchanged(this) && unchanged(ParentFrame())
      ensures old(dirty) || ls.screenSizeChanged ==> style == hooks.determineStyleRule(ls)
      ensures old(dirty) || ls.screenSizeChanged ==>
        (r == Fail(NullParent) <==> parent == null && old(zIndex) != element.zIndex)
      ensures r.Fail? ==>
        zIndex == old(zIndex) && preferredContentWidth == old(preferredContentWidth)
        && preferredContentHeight == old(preferredContentHeight) && xOffset == old(xOffset)
        && yOffset == old(yOffset) && dirty == old(dirty) && initialLayoutOccurred == old(initialLayoutOccurred)
      ensures (old(dirty) || ls.screenSizeChanged) && old(zIndex) == element.zIndex ==>
        unchanged(ParentFrame())
      ensures (old(dirty) || ls.screenSizeChanged) && old(zIndex) != element.zIndex && parent != null ==>
        parent.calls == old(parent.calls) + [Removed(this, old(zIndex)), Added(this, element.zIndex)]
      ensures (old(dirty) || ls.screenSizeChanged) && r == Pass ==>
        zIndex == element.zIndex
      ensures (old(dirty) || ls.screenSizeChanged) && r == Pass && element.visibility == Hidden ==>
        preferredContentWidth == 0.0 && preferredContentHeight == 0.0 && xOffset == 0.0 && yOffset == 0.0
        && dirty == old(dirty) && initialLayoutOccurred == old(initialLayoutOccurred)
      ensures (old(dirty) || ls.screenSizeChanged) && r == Pass && element.visibility != Hidden ==>
        preferredContentWidth == hooks.determinePreferredContentWidth(ls)
        && preferredContentHeight == hooks.determinePreferredContentHeight(ls)
        && xOffset == hooks.determineXOffset(ls) && yOffset == hooks.determineYOffset(ls)
        && !dirty && initialLayoutOccurred
    {
      if !dirty && !ls.screenSizeChanged {
        return Pass;
      }
      style := hooks.determineStyleRule(ls);

      if zIndex != element.zIndex {
        if parent == null {
          return Fail(NullParent);
        }
        parent.RemoveChild(this);
        zIndex := element.zIndex;
        parent.AddChild(this);
      }

      if element.visibility == Hidden {
        preferredContentWidth := 0.0;
        preferredContentHeight := 0.0;
        xOffset := 0.0;
        yOffset := 0.0;
        return Pass;
      }
      preferredContentWidth := hooks.determinePreferredContentWidth(ls);
      preferredContentHeight := hooks.determinePreferredContentHeight(ls);
      xOffset := hooks.determineXOffset(ls);
      yOffset := hooks.determineYOffset(ls);
      dirty := false;
      initialLayoutOccurred := true;
      return Pass;
    }

    /**
     * The update pass. Before the first layout it does nothing; without a style it
     * fails. Otherwise it sets the target area, and then either snaps the current
     * area to it (no effects) or runs the effect pass: finished effects are removed
     * from the list in place, the others are updated in order and their visibility
     * is or-ed into the render-inclusion baseline.
     */
    method Update(b: EffectBehaviour) returns (r: Result<UpdateReport, NodeError>)
      modifies this`targetArea, this`currentArea, this`effects
      ensures !old(initialLayoutOccurred) ==> r == Success(NotLaidOut) && unchanged(this)
      ensures old(initialLayoutOccurred) && old(style).None? ==>
        r == Failure(NoStyleFound(element.id)) && unchanged(this)
      ensures old(initialLayoutOccurred) && old(style).Some? ==>
        targetArea == TargetArea()
      ensures old(initialLayoutOccurred) && old(style).Some? && old(effects) == [] ==>
        currentArea == targetArea && effects == [] && r == Success(Advanced(IsIncludedInRender(), []))
      ensures old(initialLayoutOccurred) && old(style).Some? && old(effects) != [] ==>
        var p := ReapEffects(old(effects), b, old(currentArea), targetArea, IsIncludedInRender());
        effects == p.survivors && effects == Unfinished(old(effects), b.isFinished)
        && currentArea == p.area && r == Success(Advanced(p.visible, effects))
    {
      if !initialLayoutOccurred {
        return Success(NotLaidOut);
      }
      if style.None? {
        return Failure(NoStyleFound(element.id));
      }
      targetArea := TargetArea();
      var visible := IsIncludedInRender();
      var updated: seq<UiEffect> := [];
      if |effects| == 0 {
        currentArea := targetArea;
        return Success(Advanced(visible, updated));
      }
      visible, updated := ReapInPlace(b, visible);
      return Success(Advanced(visible, updated));
    }

    /**
     * The effect loop of the update pass: the list is compacted in place, a
     * finished effect being removed without advancing the index; every other
     * effect is updated on the current area and its visibility or-ed into the flag.
     */
    method ReapInPlace(b: EffectBehaviour, baseline: bool) returns (visible: bool, updated: seq<UiEffect>)
      modifies this`effects, this`currentArea
      ensures var p := ReapEffects(old(effects), b, old(currentArea), targetArea, baseline);
        effects == p.survivors && updated == p.survivors && currentArea == p.area && visible == p.visible
      ensures effects == Unfinished(old(effects), b.isFinished)
    {
      ghost var original, area := effects, currentArea;
      ghost var j := 0;
      visible, updated := baseline, [];
      var i := 0;
      while i < |effects|
        invariant 0 <= i <= |effects| && 0 <= j <= |original|
        invariant effects[i..] == original[j..]
        invariant var p := ReapEffects(original[..j], b, area, targetArea, baseline);
          effects[..i] == p.survivors && updated == p.survivors
          && currentArea == p.area && visible == p.visible
        decreases |effects| - i
      {
        var effect := effects[i];
        assert original[j] == effect && original[..j + 1][..j] == original[..j];
        if b.isFinished(effect) {
          effects := effects[..i] + effects[i + 1..];
        } else {
          var step := b.update(effect, currentArea, targetArea);
          currentArea := step.area;
          visible := visible || step.visible;
          updated := updated + [effect];
          i := i + 1;
        }
        j := j + 1;
      }
      assert original[..j] == original;
      ReapKeepsUnfinished(original, b, area, targetArea, baseline);
    }

    /**
     * The render pass, as the calls it makes: none when the node is not included
     * in rendering; otherwise every effect's pre-render hook in list order, the
     * node's own drawing, and every effect's post-render hook in list order.
     */
    method Render() returns (calls: seq<RenderCall>)
      ensures calls == if IsIncludedInRender() then RenderSequence(effects) else []
    {
      if !IsIncludedInRender() {
        return [];
      }
      calls := [];
      var i := 0;
      while i < |effects|
        invariant 0 <= i <= |effects|
        invariant calls == PreRenders(effects[..i])
      {
        assert PreRenders(effects[..i + 1]) == PreRenders(effects[..i]) + [PreRender(effects[i])];
        calls := calls + [PreRender(effects[i])];
        i := i + 1;
      }
      assert effects[..i] == effects;
      calls := calls + [RenderElement];
      i := 0;
      while i < |effects|
        invariant 0 <= i <= |effects|
        invariant calls == PreRenders(effects) + [RenderElement] + PostRenders(effects[..i])
      {
        assert PostRenders(effects[..i + 1]) == PostRenders(effects[..i]) + [PostRender(effects[i])];
        calls := calls + [PostRender(effects[i])];
        i := i + 1;
      }
      assert effects[..i] == effects;
    }

    /**
     * Pointer movement: inside the current area the node begins hovering (notifying
     * even when it already hovered) and reports the event handled; outside, a node
     * that is not NORMAL ends hovering, and the event is not handled.
     */
    method MouseMoved(screenX: int, screenY: int) returns (handled: bool)
      modifies this`state, element`hoverNotifications
      ensures handled == Contains(currentArea, screenX as real, screenY as real)
      ensures handled ==> state == Hover && element.hoverNotifications == old(element.hoverNotifications) + [OnBeginHover]
      ensures !handled && old(state) != Normal ==>
        state == Normal && element.hoverNotifications == old(element.hoverNotifications) + [OnEndHover]
      ensures !handled && old(state) == Normal ==>
        state == Normal && element.hoverNotifications == old(element.hoverNotifications)
    {
      if Contains(currentArea, screenX as real, screenY as real) {
        BeginHover();
        return true;
      } else if state != Normal {
        EndHover();
      }
      return false;
    }

    method BeginHover()
      modifies this`state, element`hoverNotifications
      ensures state == Hover
      ensures element.hoverNotifications == old(element.hoverNotifications) + [OnBeginHover]
    {
      state := Hover;
      element.NotifyHoverListenersOnBeginHover();
    }

    method EndHover()
      modifies this`state, element`hoverNotifications
      ensures state == Normal
      ensures element.hoverNotifications == old(element.hoverNotifications) + [OnEndHover]
    {
      state := Normal;
      element.NotifyHoverListenersOnEndHover();
    }

    /** Sets the state, notifying the listeners only when the state actually changes. */
    method SetState(newState: NodeState)
      modifies this`state, element`hoverNotifications
      ensures state == newState
      ensures element.hoverNotifications == old(element.hoverNotifications) + HoverChange(old(state), newState)
    {
      var previousState := state;
      state := newState;
      if previousState != newState {
        if newState == Hover {
          element.NotifyHoverListenersOnBeginHover();
        } else if previousState == Hover {
          element.NotifyHoverListenersOnEndHover();
        }
      }
    }

    /** Stores the flag and forwards the same flag to the parent, if there is one. */
    method SetDirty(d: bool)
      modifies this`dirty, ParentFrame()`calls
      ensures dirty == d
      ensures parent != null ==> parent.calls == old(parent.calls) + [ChildDirty(d)]
    {
      dirty := d;
      if parent == null {
        return;
      }
      parent.SetChildDirty(d);
    }

    /** Appends an effect; it is applied after those already in the list. */
    method ApplyEffect(effect: UiEffect)
      modifies this`effects
      ensures effects == old(effects) + [effect]
    {
      effects := effects + [effect];
    }

    method SetRelativeX(x: real)
      modifies this`relativeX
      ensures relativeX == x
    {
      relativeX := x;
    }

    method SetRelativeY(y: real)
      modifies this`relativeY
      ensures relativeY == y
    {
      relativeY := y;
    }
  }
}
