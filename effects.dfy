/**
 * The effect list of a render node, seen as values: which effects the update pass
 * keeps, what their update calls report, and the order of the render hooks around
 * the node's own drawing.
 */
module Effects {
  import opened Geometry

  /** The identity of one effect instance in a node's effect list. */
  datatype UiEffect = UiEffect(id: nat)

  /**
   * What one call of an effect's update(tree, currentArea, targetArea, delta) does:
   * the current area it leaves behind and the visibility it reports.
   */
  datatype EffectStep = EffectStep(area: Rect, visible: bool)

  /**
   * How the effects answer during one update pass, for that pass's render tree and
   * delta: isFinished() and update(...). Their internals are not part of this model.
   */
  datatype EffectBehaviour = EffectBehaviour(
    isFinished: UiEffect -> bool,
    update: (UiEffect, Rect, Rect) -> EffectStep)

  /**
   * The outcome of scanning an effect list once: the effects kept (in the order
   * their update was called), the visibility each of those calls reported, the
   * current area the last of them left, and the accumulated visibility flag.
   */
  datatype EffectPass = EffectPass(survivors: seq<UiEffect>, results: seq<bool>, area: Rect, visible: bool)

  /** Reference definition of reaping: the effects that are not finished, in their original order. */
  function Unfinished(s: seq<UiEffect>, isFinished: UiEffect -> bool): (r: seq<UiEffect>)
    ensures |r| <= |s|
  {
    if s == [] then []
    else (if isFinished(s[0]) then [] else [s[0]]) + Unfinished(s[1..], isFinished)
  }

  /**
   * The update pass over the effect list, one effect after the other: a finished
   * effect is dropped and not updated; every other effect is updated on the current
   * area the previous ones left, and its reported visibility is or-ed into the flag
   * that starts at `baseline`.
   */
  function ReapEffects(s: seq<UiEffect>, b: EffectBehaviour, area: Rect, target: Rect, baseline: bool): (p: EffectPass)
    ensures |p.results| == |p.survivors| <= |s|
    decreases |s|
  {
    if s == [] then EffectPass([], [], area, baseline)
    else
      var prev := ReapEffects(s[..|s| - 1], b, area, target, baseline);
      var e := s[|s| - 1];
      if b.isFinished(e) then prev
      else
        var step := b.update(e, prev.area, target);
        EffectPass(prev.survivors + [e], prev.results + [step.visible], step.area, prev.visible || step.visible)
  }

  lemma {:induction false} UnfinishedAppend(a: seq<UiEffect>, c: seq<UiEffect>, f: UiEffect -> bool)
    ensures Unfinished(a + c, f) == Unfinished(a, f) + Unfinished(c, f)
  {
    if a == [] {
      assert a + c == c;
    } else {
      assert (a + c)[1..] == a[1..] + c;
      UnfinishedAppend(a[1..], c, f);
    }
  }

  /** The effects the update pass keeps are exactly the unfinished ones, in their original order. */
  lemma {:induction false} ReapKeepsUnfinished(s: seq<UiEffect>, b: EffectBehaviour, area: Rect, target: Rect, baseline: bool)
    ensures ReapEffects(s, b, area, target, baseline).survivors == Unfinished(s, b.isFinished)
    decreases |s|
  {
    if s != [] {
      var init, e := s[..|s| - 1], s[|s| - 1];
      ReapKeepsUnfinished(init, b, area, target, baseline);
      assert s == init + [e];
      UnfinishedAppend(init, [e], b.isFinished);
      assert [e][1..] == [];
    }
  }

  /** An effect survives reaping if and only if it was in the list and is not finished. */
  lemma {:induction false} UnfinishedMembers(s: seq<UiEffect>, f: UiEffect -> bool, e: UiEffect)
    ensures e in Unfinished(s, f) <==> e in s && !f(e)
  {
    if s != [] {
      UnfinishedMembers(s[1..], f, e);
      assert s == [s[0]] + s[1..];
    }
  }

  /** Reaping twice with the same answers removes nothing more. */
  lemma {:induction false} UnfinishedIdempotent(s: seq<UiEffect>, f: UiEffect -> bool)
    ensures Unfinished(Unfinished(s, f), f) == Unfinished(s, f)
  {
    if s != [] {
      UnfinishedIdempotent(s[1..], f);
      var head := if f(s[0]) then [] else [s[0]];
      UnfinishedAppend(head, Unfinished(s[1..], f), f);
      if !f(s[0]) {
        assert [s[0]][1..] == [];
      }
    }
  }

  /** When no effect reports finished, reaping keeps the whole list. */
  lemma {:induction false} UnfinishedKeepsAll(s: seq<UiEffect>, f: UiEffect -> bool)
    requires forall k :: 0 <= k < |s| ==> !f(s[k])
    ensures Unfinished(s, f) == s
  {
    if s != [] {
      UnfinishedKeepsAll(s[1..], f);
      assert s == [s[0]] + s[1..];
    }
  }

  /** Subsequence: `a` can be obtained from `c` by deleting elements, keeping the rest in order. */
  predicate IsSubsequence(a: seq<UiEffect>, c: seq<UiEffect>)
    decreases |c|
  {
    if a == [] then true
    else if c == [] then false
    else if a[0] == c[0] then IsSubsequence(a[1..], c[1..])
    else IsSubsequence(a, c[1..])
  }

  lemma {:induction false} SubsequenceOfTail(a: seq<UiEffect>, c: seq<UiEffect>)
    requires c != [] && IsSubsequence(a, c[1..])
    ensures IsSubsequence(a, c)
    decreases |a| + |c|, 1
  {
    if a != [] && a[0] == c[0] {
      SubsequenceDropHead(a, c[1..]);
    }
  }

  lemma {:induction false} SubsequenceDropHead(a: seq<UiEffect>, c: seq<UiEffect>)
    requires a != [] && IsSubsequence(a, c)
    ensures IsSubsequence(a[1..], c)
    decreases |a| + |c|, 0
  {
    if a[0] == c[0] {
      SubsequenceOfTail(a[1..], c);
    } else {
      SubsequenceDropHead(a, c[1..]);
      SubsequenceOfTail(a[1..], c);
    }
  }

  /** Reaping keeps the relative order of the effects it keeps. */
  lemma {:induction false} UnfinishedIsSubsequence(s: seq<UiEffect>, f: UiEffect -> bool)
    ensures IsSubsequence(Unfinished(s, f), s)
  {
    if s != [] {
      UnfinishedIsSubsequence(s[1..], f);
      if f(s[0]) {
        var t := Unfinished(s[1..], f);
        assert [] + t == t;
        assert Unfinished(s, f) == t;
        SubsequenceOfTail(t, s);
      } else {
        assert Unfinished(s, f)[1..] == Unfinished(s[1..], f);
      }
    }
  }

  /**
   * The visibility the pass reports is the baseline or-ed with the result of every
   * update call made, and there is one such result per surviving effect.
   */
  lemma {:induction false} ReapVisibleIsOr(s: seq<UiEffect>, b: EffectBehaviour, area: Rect, target: Rect, baseline: bool)
    ensures var p := ReapEffects(s, b, area, target, baseline);
      p.visible == (baseline || true in p.results)
    decreases |s|
  {
    if s != [] {
      var prev := ReapEffects(s[..|s| - 1], b, area, target, baseline);
      ReapVisibleIsOr(s[..|s| - 1], b, area, target, baseline);
      var e := s[|s| - 1];
      if !b.isFinished(e) {
        var v := b.update(e, prev.area, target).visible;
        assert true in prev.results + [v] <==> true in prev.results || v;
      }
    }
  }

  /** A call the node makes to an effect hook or to its own drawing hook while rendering. */
  datatype RenderCall = PreRender(effect: UiEffect) | RenderElement | PostRender(effect: UiEffect)

  function PreRenders(s: seq<UiEffect>): (r: seq<RenderCall>)
  {
    seq(|s|, k requires 0 <= k < |s| => PreRender(s[k]))
  }

  function PostRenders(s: seq<UiEffect>): (r: seq<RenderCall>)
  {
    seq(|s|, k requires 0 <= k < |s| => PostRender(s[k]))
  }

  /** The calls of one render of an included node: every pre-render hook, the drawing, every post-render hook. */
  function RenderSequence(s: seq<UiEffect>): (r: seq<RenderCall>)
    ensures |r| == 2 * |s| + 1
    ensures forall k :: 0 <= k < |r| ==> (r[k] == RenderElement <==> k == |s|)
    ensures forall k :: 0 <= k < |s| ==> r[k] == PreRender(s[k]) && r[|s| + 1 + k] == PostRender(s[k])
  {
    PreRenders(s) + [RenderElement] + PostRenders(s)
  }

  /** An effect's hooks are called during a render if and only if it is in the effect list. */
  lemma {:induction false} RenderSequenceMembers(s: seq<UiEffect>, e: UiEffect)
    ensures PreRender(e) in RenderSequence(s) <==> e in s
    ensures PostRender(e) in RenderSequence(s) <==> e in s
  {
    var r := RenderSequence(s);
    if PreRender(e) in r {
      var k :| 0 <= k < |r| && r[k] == PreRender(e);
      assert k < |s| && s[k] == e;
    }
    if PostRender(e) in r {
      var k :| 0 <= k < |r| && r[k] == PostRender(e);
      assert |s| < k && s[k - |s| - 1] == e;
    }
    if e in s {
      var k :| 0 <= k < |s| && s[k] == e;
      assert r[k] == PreRender(e) && r[|s| + 1 + k] == PostRender(e);
    }
  }

  /**
   * An effect that reports finished during an update pass fires none of its render
   * hooks in the next render.
   */
  lemma {:induction false} ReapedEffectNotRendered(s: seq<UiEffect>, b: EffectBehaviour, area: Rect, target: Rect, baseline: bool, e: UiEffect)
    requires b.isFinished(e)
    ensures var kept := ReapEffects(s, b, area, target, baseline).survivors;
      PreRender(e) !in RenderSequence(kept) && PostRender(e) !in RenderSequence(kept)
  {
    var kept := ReapEffects(s, b, area, target, baseline).survivors;
    ReapKeepsUnfinished(s, b, area, target, baseline);
    UnfinishedMembers(s, b.isFinished, e);
    RenderSequenceMembers(kept, e);
  }
}
