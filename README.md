# RenderNode: a verified model of mini2Dx's UI scene-graph node

This project models `RenderNode`, the base class of mini2Dx's retained-mode UI tree. A
render node is one UI element's on-screen rectangle. Each frame it goes through four
passes:

- a **layout** pass, which runs only when the node is dirty or the screen size changed;
- an **update** pass, which composes the target area with the parent's position and runs
  the node's effects, dropping the finished ones;
- an interpolation pass;
- a **render** pass, which wraps the node's own drawing in the effects' pre- and
  post-render hooks.

Pointer movement drives a NORMAL/HOVER state machine. Dirtiness is forwarded upward to
the parent.

Files:

- `wrappers.dfy`: `Option`, `Result` and `Outcome`. They stand in for Java's `null` and
  for thrown exceptions.
- `geometry.dfy`: rectangles and points over `real`, point containment, translation.
- `effects.dfy`: the effect list as values. `ReapEffects` is the update pass's scan as a
  left fold. `Unfinished` is an independent reference filter. `RenderSequence` gives the
  order of the render hooks. The lemmas connecting them are here.
- `nodes.dfy`: the `RenderNode` class with the source's fields and methods. It also holds
  two small stand-ins for the node's collaborators:
  - `UiElement`: id, z-index, visibility, and a log of the hover notifications it receives;
  - `ParentRenderNode`: position, and a log of the calls it receives.
  The mutating methods state their whole new state with `old(...)`. `Render` returns the
  hook calls it makes. The effect loop is `ReapInPlace`, which compacts `effects` in place
  and is proved equal to `ReapEffects` and to `Unfinished`.
- `scenarios.dfy`: client methods that use only the contracts. They cover the z-order
  re-sort, dirty suppression, hidden zeroing, hover in and out, and a reaped effect that
  is absent from the next render.

The node kind's abstract hooks are parameters:

- `determineStyleRule` and the four sizing hooks are a `LayoutHooks` record of functions
  of the `LayoutState`;
- each effect's `isFinished` and `update` in one pass are an `EffectBehaviour`;
- `renderElement` and the effect render hooks are the `RenderCall` values that `Render`
  returns.

Two behaviours of the code are modelled as written:

- **Root node with a z-index change.** A root node whose z-index changed is not
  re-sorted: the code dereferences `parent` unconditionally (RenderNode.java:177-181),
  so layout fails with a null dereference, after `style` was assigned. The model
  returns `Fail(NullParent)` on that path.
- **Clearing `dirty`.** Besides a successful non-hidden layout, `setDirty(false)` also
  clears the flag (lines 231-237), and the model allows that.

The parent stand-in logs each removal and insertion with the child's z-index at that
moment, so `Layout`'s contract shows that the node is removed under its old z-index
and re-added under the element's new one.

## Model

| member | source | states |
|---|---|---|
| Nodes.RenderNode.constructor | ui/src/main/java/org/mini2Dx/ui/render/RenderNode.java:49-55 | a new node is dirty, not laid out, NORMAL, has no effects and no style, copies the element's z-index, and sends `setChildDirty(true)` to a parent if it has one |
| Nodes.RenderNode.Layout | ui/src/main/java/org/mini2Dx/ui/render/RenderNode.java:171-199 | a clean node on an unchanged screen changes no field and sends nothing to the parent. Otherwise: the style is the hook's; a drifted z-index sends exactly a removal under the old z-index, then an insertion under the element's new z-index, to the parent, and the node's z-index then equals the element's; an unchanged z-index sends nothing. HIDDEN zeroes both sizes and both offsets and keeps `dirty` and `initialLayoutOccurred`. Any other visibility takes the four hook results, clears `dirty` and sets `initialLayoutOccurred`. A root node with a drifted z-index fails and changes nothing but the style |
| Nodes.RenderNode.Update | ui/src/main/java/org/mini2Dx/ui/render/RenderNode.java:57-90 | changes nothing before the first layout. Fails with the element's id when there is no style. Otherwise sets the target area to `TargetArea()`. With no effects the current area becomes the target area and the reported visibility is `IsIncludedInRender()`. With effects, the list becomes `Unfinished(old list)`, the updated effects are exactly those, in order, and the visibility and current area are those of `ReapEffects` from the render-inclusion baseline |
| Nodes.RenderNode.ReapInPlace | ui/src/main/java/org/mini2Dx/ui/render/RenderNode.java:80-89 | the in-place compaction loop leaves the list equal to the fold `ReapEffects` and to the reference filter `Unfinished`; it updates the surviving effects, once each and in order, threading the current area through them and or-ing their results into the flag |
| Nodes.RenderNode.TargetArea | ui/src/main/java/org/mini2Dx/ui/render/RenderNode.java:64-71 | the target area is the relative position plus the left and top margins, translated by the parent's position (by nothing for a root), sized by the preferred inner width and height |
| Nodes.RenderNode.Render | ui/src/main/java/org/mini2Dx/ui/render/RenderNode.java:107-126 | no calls when the node is not included in rendering; otherwise exactly `RenderSequence(effects)`: each effect's pre-render in list order, one drawing call, each effect's post-render in list order |
| Nodes.RenderNode.IsIncludedInLayout | ui/src/main/java/org/mini2Dx/ui/render/RenderNode.java:201-209 | a node hidden by a layout rule or whose element is HIDDEN is excluded; an included node has a positive inner width or height |
| Nodes.RenderNode.IsIncludedInRender | ui/src/main/java/org/mini2Dx/ui/render/RenderNode.java:211-225 | render inclusion needs a completed layout, a style and a VISIBLE element, and implies layout inclusion |
| Nodes.RenderNode.GetElementById | ui/src/main/java/org/mini2Dx/ui/render/RenderNode.java:345-350 | gives this node exactly when the element's id equals the one asked for, and no node otherwise |
| Nodes.RenderNode.MouseMoved | ui/src/main/java/org/mini2Dx/ui/render/RenderNode.java:128-136 | handled exactly when the point is inside the current area. Inside: HOVER plus one begin notification, even when already hovering. Outside: a non-NORMAL node becomes NORMAL with one end notification, and a NORMAL node sends nothing |
| Nodes.RenderNode.BeginHover | ui/src/main/java/org/mini2Dx/ui/render/RenderNode.java:149-152 | the state becomes HOVER and the element receives one begin notification |
| Nodes.RenderNode.EndHover | ui/src/main/java/org/mini2Dx/ui/render/RenderNode.java:154-157 | the state becomes NORMAL and the element receives one end notification |
| Nodes.RenderNode.SetState | ui/src/main/java/org/mini2Dx/ui/render/RenderNode.java:329-339 | the state becomes the new one and the element receives `HoverChange(old state, new state)` |
| Nodes.HoverChange | ui/src/main/java/org/mini2Dx/ui/render/RenderNode.java:332-338 | at most one notification and none when the state stays; begin exactly when entering HOVER, end exactly when leaving it |
| Nodes.RenderNode.SetDirty | ui/src/main/java/org/mini2Dx/ui/render/RenderNode.java:231-237 | stores the flag and forwards the same flag to the parent, if there is one |
| Nodes.RenderNode.ApplyEffect | ui/src/main/java/org/mini2Dx/ui/render/RenderNode.java:239-241 | the effect is appended after those already in the list |
| Nodes.RenderNode.SetRelativeX | ui/src/main/java/org/mini2Dx/ui/render/RenderNode.java:247-249 | stores the relative x position |
| Nodes.RenderNode.SetRelativeY | ui/src/main/java/org/mini2Dx/ui/render/RenderNode.java:255-257 | stores the relative y position |
| Effects.ReapEffects | ui/src/main/java/org/mini2Dx/ui/render/RenderNode.java:80-89 | the effect scan as a fold: there is one update result per surviving effect, and there are never more survivors than effects |
| Effects.Unfinished | ui/src/main/java/org/mini2Dx/ui/render/RenderNode.java:82-86 | the reference filter of unfinished effects never grows the list |
| Effects.ReapKeepsUnfinished | ui/src/main/java/org/mini2Dx/ui/render/RenderNode.java:80-89 | the fold keeps exactly the reference filter's effects, in the same order |
| Effects.UnfinishedMembers | ui/src/main/java/org/mini2Dx/ui/render/RenderNode.java:82-86 | an effect survives if and only if it was in the list and is not finished |
| Effects.UnfinishedIsSubsequence | ui/src/main/java/org/mini2Dx/ui/render/RenderNode.java:80-89 | the survivors keep their original relative order: they are a subsequence of the original list |
| Effects.UnfinishedIdempotent | ui/src/main/java/org/mini2Dx/ui/render/RenderNode.java:82-86 | reaping again with the same answers removes nothing more |
| Effects.UnfinishedKeepsAll | ui/src/main/java/org/mini2Dx/ui/render/RenderNode.java:82-86 | when no effect is finished, the list is kept whole |
| Effects.ReapVisibleIsOr | ui/src/main/java/org/mini2Dx/ui/render/RenderNode.java:76-89 | the computed visibility is the render-inclusion baseline or-ed with the results of the update calls made |
| Effects.RenderSequence | ui/src/main/java/org/mini2Dx/ui/render/RenderNode.java:119-125 | the sequence has `2n+1` calls. The drawing call is at position `n`, the only one there. Pre-render of effect `k` is at `k`, post-render at `n+1+k` |
| Effects.RenderSequenceMembers | ui/src/main/java/org/mini2Dx/ui/render/RenderNode.java:119-125 | an effect's pre- and post-render hooks are called if and only if it is in the list |
| Effects.ReapedEffectNotRendered | ui/src/main/java/org/mini2Dx/ui/render/RenderNode.java:80-125 | an effect reported finished during an update fires neither of its render hooks in the following render |
| Geometry.TranslateContains | ui/src/main/java/org/mini2Dx/ui/render/RenderNode.java:64-71 | composing with a parent position moves the set of contained points by that vector, and a root's composition with the origin leaves the box unchanged |

## Left out

- `interpolate` and the `CollisionBox` internals (`preUpdate`, interpolation, integer render coordinates, lines 72 and 100-105, 309-323). These are floating-point blending inside a library class. The current area is a plain `Rect` that can be set and hit-tested.
- `Geometry.Contains`: the box's own containment test is not part of this model. The model uses a closed axis-aligned rectangle.
- `element.syncWithRenderNode()` (line 74). It is an opaque call into the element, and the model assumes it changes nothing the node reads.
- Debug logging through `Gdx.app.log` (lines 94-97, 109-117). It is output only.
- `toString` (lines 364-369). It is output only.
- Nodes.RenderNode.PreferredOuterWidth and Nodes.RenderNode.PreferredOuterHeight (lines 267-270, 280-283): plain arithmetic. Their contracts only relate the outer size to the inner size by the margins, and no further property is stated.
- Nodes.RenderNode.IsIncludedInLayout: requires a style unless the node is hidden by a rule or HIDDEN. The code reads the style through the inner-size getters without a null check (lines 208, 264, 277), so a node without a style throws there. The inner and outer size getters (lines 264, 268, 277, 281) require a style for the same reason. The model does not represent that exception.
- Effects.ReapEffects: an effect's `isFinished` and `update` answers are fixed for the effect's identity during one pass. The code asks `isFinished()` again at every position (lines 81-82), after the earlier `update` calls. So when the same effect instance is in the list twice (`applyEffect` does not guard against that, line 240) and its first update finishes it, the code drops the second occurrence. The model does not capture that.
- The getters `getX`/`getY`/`getWidth`/`getHeight`, `getState`, `getStyle`, `getId`, `getZIndex`, `getParent`, `isDirty`, the inner-size getters and the relative-position getters. In the model these are plain field reads or function calls.
- `mouseDown` and `mouseUp` (lines 138-143). In the base class they do nothing and return nothing actionable.
- `contains` (lines 145-147). It is the same test that `MouseMoved` uses.
- Concrete node kinds. Their hooks are the parameters described above, and each sizing hook is a function of the `LayoutState` alone.
- The drawing behind `renderElement` and the effects' internals. The model keeps only the calls and their order.
- An effect's update also receives the target area object. The model assumes the effect does not change it; only the current area is threaded through the effects.
- The parent's child sorting, and the parent's own response to `setChildDirty`. `ParentRenderNode` here only records the calls, so propagation beyond the direct parent is not part of this model.
- Java float arithmetic. Margins, padding and positions are `real`.
- `Visibility.NO_RENDER`. The file does not name this third constant. It is modelled as `NoRender` and behaves like any other value that is neither VISIBLE nor HIDDEN.
- The visibility flag that `update` computes is unused in the source, where the assignment is commented out (lines 91-93). The model reports it in `Advanced(visible, ...)`.
- `PixmapLoader`. It is an asset-loading wrapper over the graphics back end and has no logic to state.
