/** What RayMarch3DCompute.CreateScene computes, stated on the scene snapshot:
    the sort key, the flat emission order and the numChildren it writes
    (Assets/Scripts/RayMarch3DCompute.cs). */
module Flattening {
  import Wrappers
  import opened Shapes

  /** Every entry names a transform of the scene that carries a Shape. */
  ghost predicate ShapeIds(scene: Scene, s: seq<nat>)
  {
    forall k :: 0 <= k < |s| ==> s[k] < |scene.transforms| && HasShape(scene, s[k])
  }

  ghost predicate NoDuplicates(s: seq<nat>)
  {
    forall p, q :: 0 <= p < q < |s| ==> s[p] != s[q]
  }

  /** FindObjectsOfType<Shape>(): every Shape of the scene, each once, in any order. */
  ghost predicate IsShapeList(scene: Scene, s: seq<nat>)
  {
    && ShapeIds(scene, s)
    && NoDuplicates(s)
    && (forall i :: 0 <= i < |scene.transforms| && HasShape(scene, i) ==> i in s)
  }

  /** The comparison key of the sort: the ordinal of the shape's operation. */
  function OpKey(scene: Scene, id: nat): int
  {
    if id < |scene.transforms| && scene.transforms[id].shape.Some?
    then OperationOrdinal(scene.transforms[id].shape.value.operation)
    else 0
  }

  ghost predicate SortedByOperation(scene: Scene, s: seq<nat>)
  {
    forall p, q :: 0 <= p < q < |s| ==> OpKey(scene, s[p]) <= OpKey(scene, s[q])
  }

  /** The children of a list that carry a Shape, in list order. */
  function ShapeChildren(scene: Scene, cs: seq<nat>): (kids: seq<nat>)
    requires forall k :: 0 <= k < |cs| ==> cs[k] < |scene.transforms|
    ensures |kids| <= |cs|
  {
    if cs == [] then []
    else
      var last := cs[|cs| - 1];
      ShapeChildren(scene, cs[..|cs| - 1]) + (if HasShape(scene, last) then [last] else [])
  }

  /** A top-level shape followed by its Shape-bearing direct children. */
  function Group(scene: Scene, r: nat): (g: seq<nat>)
    requires WellFormed(scene) && r < |scene.transforms|
    ensures |g| > 0 && g[0] == r
  {
    [r] + ShapeChildren(scene, scene.transforms[r].children)
  }

  /** The emission order of CreateScene for the sorted list s: each top-level
      shape of s, in s's order, with its group; other entries are skipped. */
  function Flatten(scene: Scene, s: seq<nat>): (out: seq<nat>)
    requires WellFormed(scene) && ShapeIds(scene, s)
    ensures ShapeIds(scene, out)
  {
    if s == [] then []
    else
      var last := s[|s| - 1];
      var prefix := Flatten(scene, s[..|s| - 1]);
      if IsRoot(scene, last) then
        ShapeChildrenAreShapes(scene, scene.transforms[last].children);
        prefix + Group(scene, last)
      else prefix
  }

  /** The numChildren CreateScene writes on an emitted shape: the transform's
      childCount for a top-level shape, 0 for a child. */
  function ExpectedNumChildren(scene: Scene, id: nat): (n: int)
    requires id < |scene.transforms|
    ensures n >= 0 && (n > 0 ==> IsRoot(scene, id))
  {
    if IsRoot(scene, id) then |scene.transforms[id].children| else 0
  }

  lemma {:induction false} ShapeChildrenAreShapes(scene: Scene, cs: seq<nat>)
    requires forall k :: 0 <= k < |cs| ==> cs[k] < |scene.transforms|
    ensures ShapeIds(scene, ShapeChildren(scene, cs))
  {
    if cs != [] {
      ShapeChildrenAreShapes(scene, cs[..|cs| - 1]);
    }
  }

  /** A child list's Shape children are exactly its members that carry a Shape. */
  lemma {:induction false} ShapeChildrenMembers(scene: Scene, cs: seq<nat>, x: nat)
    requires forall k :: 0 <= k < |cs| ==> cs[k] < |scene.transforms|
    ensures x in ShapeChildren(scene, cs) <==>
      x in cs && x < |scene.transforms| && HasShape(scene, x)
  {
    if cs != [] {
      ShapeChildrenMembers(scene, cs[..|cs| - 1], x);
      assert cs == cs[..|cs| - 1] + [cs[|cs| - 1]];
    }
  }

  lemma {:induction false} ShapeChildrenNoDuplicates(scene: Scene, cs: seq<nat>)
    requires forall k :: 0 <= k < |cs| ==> cs[k] < |scene.transforms|
    requires NoDuplicates(cs)
    ensures NoDuplicates(ShapeChildren(scene, cs))
  {
    if cs != [] {
      var init := cs[..|cs| - 1];
      ShapeChildrenNoDuplicates(scene, init);
      ShapeChildrenMembers(scene, init, cs[|cs| - 1]);
    }
  }

  /** In a well-formed scene, x is a direct child of r exactly when r is x's parent. */
  lemma ChildIffParent(scene: Scene, r: nat, x: nat)
    requires WellFormed(scene) && r < |scene.transforms| && x < |scene.transforms|
    ensures x in scene.transforms[r].children <==> scene.transforms[x].parent == Wrappers.Some(r)
  {
    var t := scene.transforms;
    if x in t[r].children {
      var k :| 0 <= k < |t[r].children| && t[r].children[k] == x;
    }
  }

  /** Which shapes the flattening of any list of shapes emits: the top-level
      shapes of the list, and the Shape children of the top-level shapes of the list. */
  lemma {:induction false} FlattenMembers(scene: Scene, s: seq<nat>, x: nat)
    requires WellFormed(scene) && ShapeIds(scene, s) && x < |scene.transforms|
    ensures x in Flatten(scene, s) <==>
      (x in s && IsRoot(scene, x)) ||
      (HasShape(scene, x) && scene.transforms[x].parent.Some? &&
       scene.transforms[x].parent.value in s && IsRoot(scene, scene.transforms[x].parent.value))
  {
    if s != [] {
      var init, last := s[..|s| - 1], s[|s| - 1];
      FlattenMembers(scene, init, x);
      assert s == init + [last];
      if IsRoot(scene, last) {
        ShapeChildrenMembers(scene, scene.transforms[last].children, x);
        ChildIffParent(scene, last, x);
      }
    }
  }

  /** The top-level shapes of the scene, whatever the order they are found in. */
  ghost function TopLevelShapes(scene: Scene): set<nat>
  {
    set x: nat | x < |scene.transforms| && HasShape(scene, x) && IsRoot(scene, x)
  }

  /** The Shapes whose parent is a top-level Shape. */
  ghost function GroupedChildShapes(scene: Scene): set<nat>
  {
    set x: nat | x < |scene.transforms| && HasShape(scene, x) &&
      scene.transforms[x].parent.Some? &&
      scene.transforms[x].parent.value < |scene.transforms| &&
      HasShape(scene, scene.transforms[x].parent.value) &&
      IsRoot(scene, scene.transforms[x].parent.value)
  }

  /** On the full list of shapes, a shape is emitted exactly when it is top-level
      or its parent is a top-level Shape. */
  lemma EmittedIff(scene: Scene, s: seq<nat>, x: nat)
    requires WellFormed(scene) && IsShapeList(scene, s)
    ensures x in Flatten(scene, s) <==> x in TopLevelShapes(scene) || x in GroupedChildShapes(scene)
  {
    var out := Flatten(scene, s);
    if x in out {
      var k :| 0 <= k < |out| && out[k] == x;
      assert x < |scene.transforms|;
    }
    if x < |scene.transforms| {
      FlattenMembers(scene, s, x);
      var t := scene.transforms;
      if t[x].parent.Some? {
        assert t[x].parent.value < |t|;
      }
    }
  }

  /** A grandchild of a top-level transform, and a Shape under a top-level
      transform that carries no Shape, are never emitted. */
  lemma NotEmitted(scene: Scene, s: seq<nat>, x: nat)
    requires WellFormed(scene) && IsShapeList(scene, s)
    requires x < |scene.transforms| && scene.transforms[x].parent.Some?
    requires var p := scene.transforms[x].parent.value;
      !IsRoot(scene, p) || !HasShape(scene, p)
    ensures x !in Flatten(scene, s)
  {
    EmittedIff(scene, s, x);
  }

  lemma NoDuplicatesConcat(a: seq<nat>, b: seq<nat>)
    requires NoDuplicates(a) && NoDuplicates(b)
    requires forall x :: x in a ==> x !in b
    ensures NoDuplicates(a + b)
  {
    var c := a + b;
    forall p, q | 0 <= p < q < |c| ensures c[p] != c[q] {
      if p < |a| && q >= |a| {
        assert c[p] in a && c[q] == b[q - |a|];
      }
    }
  }

  /** No shape is emitted twice when the input lists each shape once. */
  lemma {:induction false} FlattenNoDuplicates(scene: Scene, s: seq<nat>)
    requires WellFormed(scene) && ShapeIds(scene, s) && NoDuplicates(s)
    ensures NoDuplicates(Flatten(scene, s))
  {
    if s != [] {
      var init, last := s[..|s| - 1], s[|s| - 1];
      FlattenNoDuplicates(scene, init);
      if IsRoot(scene, last) {
        var t := scene.transforms;
        var cs := t[last].children;
        assert NoDuplicates(cs);
        ShapeChildrenNoDuplicates(scene, cs);
        forall x | x in ShapeChildren(scene, cs) ensures x != last {
          ShapeChildrenMembers(scene, cs, x);
          ChildIffParent(scene, last, x);
        }
        NoDuplicatesConcat([last], ShapeChildren(scene, cs));
        forall x | x in Flatten(scene, init) ensures x !in Group(scene, last) {
          assert x < |t|;
          FlattenMembers(scene, init, x);
          ShapeChildrenMembers(scene, cs, x);
          ChildIffParent(scene, last, x);
          assert last !in init;
        }
        NoDuplicatesConcat(Flatten(scene, init), Group(scene, last));
      }
    }
  }

  lemma {:induction false} DistinctCardinality(s: seq<nat>)
    requires NoDuplicates(s)
    ensures |set x: nat | x in s| == |s|
  {
    if s != [] {
      var init := s[..|s| - 1];
      var last := s[|s| - 1];
      assert NoDuplicates(init);
      DistinctCardinality(init);
      var before := set x: nat | x in init;
      assert last !in before;
      assert s == init + [last];
      assert (set x: nat | x in s) == before + {last};
    } else {
      assert (set x: nat | x in s) == {};
    }
  }

  /** Output length: the number of top-level shapes plus the number of Shapes
      directly under a top-level Shape. */
  lemma FlattenLength(scene: Scene, s: seq<nat>)
    requires WellFormed(scene) && IsShapeList(scene, s)
    ensures |Flatten(scene, s)| == |TopLevelShapes(scene)| + |GroupedChildShapes(scene)|
  {
    var out := Flatten(scene, s);
    FlattenNoDuplicates(scene, s);
    DistinctCardinality(out);
    forall x ensures x in out <==> x in TopLevelShapes(scene) + GroupedChildShapes(scene) {
      EmittedIff(scene, s, x);
    }
    assert (set x: nat | x in out) == TopLevelShapes(scene) + GroupedChildShapes(scene);
    assert TopLevelShapes(scene) * GroupedChildShapes(scene) == {};
  }

  /** The top-level entries of a list of shapes are in non-decreasing operation order. */
  ghost predicate TopLevelOrderedByOperation(scene: Scene, out: seq<nat>)
    requires ShapeIds(scene, out)
  {
    forall p, q :: 0 <= p < q < |out| && IsRoot(scene, out[p]) && IsRoot(scene, out[q]) ==>
      OpKey(scene, out[p]) <= OpKey(scene, out[q])
  }

  /** Top-level shapes are emitted in non-decreasing operation order when the
      list is sorted by operation; children do not take part in the order. */
  lemma {:induction false} RootsInOperationOrder(scene: Scene, s: seq<nat>)
    requires WellFormed(scene) && ShapeIds(scene, s) && SortedByOperation(scene, s)
    ensures TopLevelOrderedByOperation(scene, Flatten(scene, s))
  {
    if s != [] {
      var init, last := s[..|s| - 1], s[|s| - 1];
      RootsInOperationOrder(scene, init);
      var pre := Flatten(scene, init);
      var out := Flatten(scene, s);
      if IsRoot(scene, last) {
        var g := Group(scene, last);
        GroupTailNotRoots(scene, last);
        assert out == pre + g;
        forall p, q | 0 <= p < q < |out| && IsRoot(scene, out[p]) && IsRoot(scene, out[q])
          ensures OpKey(scene, out[p]) <= OpKey(scene, out[q])
        {
          if q < |pre| {
            assert out[p] == pre[p] && out[q] == pre[q];
          } else {
            assert out[q] == g[q - |pre|];
            assert q == |pre| && out[q] == last;
            var x := out[p];
            assert x == pre[p];
            FlattenMembers(scene, init, x);
            var k :| 0 <= k < |init| && init[k] == x;
            assert s[k] == x && k < |s| - 1;
            assert OpKey(scene, s[k]) <= OpKey(scene, s[|s| - 1]);
          }
        }
      }
    }
  }

  /** Within a group only the head is a top-level shape. */
  lemma GroupTailNotRoots(scene: Scene, r: nat)
    requires WellFormed(scene) && r < |scene.transforms| && IsRoot(scene, r)
    ensures var g := Group(scene, r);
      forall k :: 1 <= k < |g| ==> g[k] < |scene.transforms| && !IsRoot(scene, g[k])
  {
    var g := Group(scene, r);
    var cs := scene.transforms[r].children;
    forall k | 1 <= k < |g| ensures g[k] < |scene.transforms| && !IsRoot(scene, g[k]) {
      var x := g[k];
      assert x in ShapeChildren(scene, cs);
      ShapeChildrenMembers(scene, cs, x);
      ChildIffParent(scene, r, x);
    }
  }

  /** Entry p of out is followed at once by exactly its Shape children, in
      child-index order, and then by a top-level shape or the end of out. */
  ghost predicate GroupAt(scene: Scene, out: seq<nat>, p: nat)
    requires WellFormed(scene) && ShapeIds(scene, out) && p < |out|
  {
    var kids := ShapeChildren(scene, scene.transforms[out[p]].children);
    && p + 1 + |kids| <= |out|
    && out[p + 1 .. p + 1 + |kids|] == kids
    && (p + 1 + |kids| == |out| || IsRoot(scene, out[p + 1 + |kids|]))
  }

  /** Each emitted top-level shape is immediately followed by exactly its
      Shape children in child-index order, and then by a top-level shape or
      the end of the output. */
  lemma {:induction false} RootFollowedByItsChildren(scene: Scene, s: seq<nat>, p: nat)
    requires WellFormed(scene) && ShapeIds(scene, s)
    requires p < |Flatten(scene, s)| && IsRoot(scene, Flatten(scene, s)[p])
    ensures GroupAt(scene, Flatten(scene, s), p)
  {
    var init, last := s[..|s| - 1], s[|s| - 1];
    var pre := Flatten(scene, init);
    var tail := if IsRoot(scene, last) then Group(scene, last) else [];
    assert Flatten(scene, s) == pre + tail;
    if p < |pre| {
      RootFollowedByItsChildren(scene, init, p);
      assert ShapeIds(scene, tail) by {
        if IsRoot(scene, last) {
          ShapeChildrenAreShapes(scene, scene.transforms[last].children);
        }
      }
      ExtendKeepsGroup(scene, pre, tail, p);
    } else {
      assert tail != [] && IsRoot(scene, last);
      GroupTailNotRoots(scene, last);
      assert (pre + tail)[p] == tail[p - |pre|];
      GroupAtEnd(scene, pre, last, p);
    }
  }

  /** A group that is complete in pre stays complete when a list that is
      empty or starts with a top-level shape is appended. */
  lemma ExtendKeepsGroup(scene: Scene, pre: seq<nat>, tail: seq<nat>, p: nat)
    requires WellFormed(scene) && ShapeIds(scene, pre) && ShapeIds(scene, tail) && p < |pre|
    requires GroupAt(scene, pre, p)
    requires tail == [] || IsRoot(scene, tail[0])
    ensures GroupAt(scene, pre + tail, p)
  {
    var out := pre + tail;
    var kids := ShapeChildren(scene, scene.transforms[pre[p]].children);
    var e := p + 1 + |kids|;
    assert e <= |pre| && pre[p + 1 .. e] == kids;
    assert out[p] == pre[p];
    SliceOfPrefix(pre, tail, p + 1, e);
    if e < |pre| {
      assert out[e] == pre[e];
    } else if e < |out| {
      assert out[e] == tail[0];
    }
  }

  lemma SliceOfPrefix(a: seq<nat>, b: seq<nat>, i: nat, j: nat)
    requires i <= j <= |a|
    ensures (a + b)[i .. j] == a[i .. j]
  {
    assert forall k :: i <= k < j ==> (a + b)[k] == a[k];
  }

  /** A group appended at the end: its head is followed by exactly its Shape
      children, which run to the end. */
  lemma GroupAtEnd(scene: Scene, pre: seq<nat>, last: nat, p: nat)
    requires WellFormed(scene) && last < |scene.transforms| && HasShape(scene, last)
    requires ShapeIds(scene, pre) && IsRoot(scene, last) && p == |pre|
    ensures ShapeIds(scene, pre + Group(scene, last))
    ensures GroupAt(scene, pre + Group(scene, last), p)
  {
    ShapeChildrenAreShapes(scene, scene.transforms[last].children);
    var out := pre + Group(scene, last);
    assert out[p] == last;
    assert out[p + 1 ..] == Group(scene, last)[1..];
  }

  /** The numChildren written on a top-level shape counts every child transform,
      with or without a Shape, so it exceeds the number of children emitted
      after it exactly when some child carries no Shape. */
  lemma {:induction false} HeaderCountsShapelessChildren(scene: Scene, cs: seq<nat>)
    requires forall k :: 0 <= k < |cs| ==> cs[k] < |scene.transforms|
    ensures |ShapeChildren(scene, cs)| <= |cs|
    ensures |ShapeChildren(scene, cs)| == |cs| <==>
      forall k :: 0 <= k < |cs| ==> HasShape(scene, cs[k])
  {
    if cs != [] {
      var init := cs[..|cs| - 1];
      HeaderCountsShapelessChildren(scene, init);
      if forall k :: 0 <= k < |cs| ==> HasShape(scene, cs[k]) {
        assert forall k :: 0 <= k < |init| ==> HasShape(scene, init[k]) by {
          forall k | 0 <= k < |init| ensures HasShape(scene, init[k]) {
            assert init[k] == cs[k];
          }
        }
      }
    }
  }

  lemma {:induction false} DistinctMultiplicity(s: seq<nat>, x: nat)
    requires NoDuplicates(s)
    ensures multiset(s)[x] <= 1
  {
    if s != [] {
      var init := s[..|s| - 1];
      assert NoDuplicates(init);
      DistinctMultiplicity(init, x);
      assert s == init + [s[|s| - 1]];
      assert s[|s| - 1] !in init;
    }
  }

  /** Sorting keeps the list a list of every shape, each once. */
  lemma ShapeListPermutation(scene: Scene, a: seq<nat>, b: seq<nat>)
    requires IsShapeList(scene, a) && multiset(a) == multiset(b)
    ensures IsShapeList(scene, b)
  {
    forall k | 0 <= k < |b| ensures b[k] < |scene.transforms| && HasShape(scene, b[k]) {
      assert b[k] in multiset(b);
    }
    forall p, q | 0 <= p < q < |b| ensures b[p] != b[q] {
      DistinctMultiplicity(a, b[p]);
      assert b == b[..q] + b[q..];
      assert b[p] in multiset(b[..q]);
    }
    forall i | 0 <= i < |scene.transforms| && HasShape(scene, i) ensures i in b {
      assert i in multiset(a);
    }
  }

  /** One more entry of the sorted list adds its group if it is top-level. */
  lemma FlattenStep(scene: Scene, s: seq<nat>, i: nat)
    requires WellFormed(scene) && ShapeIds(scene, s) && i < |s|
    ensures Flatten(scene, s[..i + 1]) ==
      Flatten(scene, s[..i]) + (if IsRoot(scene, s[i]) then Group(scene, s[i]) else [])
  {
    assert s[..i + 1][..i] == s[..i];
  }

  /** The children of any transform are in range and are not top-level. */
  lemma ChildrenAreNotRoots(scene: Scene, id: nat)
    requires WellFormed(scene) && id < |scene.transforms|
    ensures forall k :: 0 <= k < |scene.transforms[id].children| ==>
      scene.transforms[id].children[k] < |scene.transforms| &&
      !IsRoot(scene, scene.transforms[id].children[k])
  {
  }

  /** A scene without Shapes emits nothing. */
  lemma NoShapesNoOutput(scene: Scene, s: seq<nat>)
    requires WellFormed(scene) && IsShapeList(scene, s)
    requires forall i :: 0 <= i < |scene.transforms| ==> !HasShape(scene, i)
    ensures Flatten(scene, s) == []
  {
    FlattenLength(scene, s);
    assert TopLevelShapes(scene) == {};
    assert GroupedChildShapes(scene) == {};
  }

  /** The shape of the worked example: a top-level Blend shape (transform 0)
      whose one child (transform 1) is a None shape, and a separate top-level
      Cut shape (transform 2). */
  ghost predicate IsExample(scene: Scene)
  {
    var t := scene.transforms;
    && |t| == 3
    && t[0].parent.None? && t[0].children == [1]
    && t[0].shape.Some? && t[0].shape.value.operation == Blend
    && t[1].parent == Wrappers.Some(0) && t[1].children == []
    && t[1].shape.Some? && t[1].shape.value.operation == None
    && t[2].parent.None? && t[2].children == []
    && t[2].shape.Some? && t[2].shape.value.operation == Cut
  }

  /** A sphere with a cube child, and a torus: an instance of the example. */
  function ExampleScene(): (scene: Scene)
    ensures IsExample(scene) && WellFormed(scene)
  {
    var v := Vec3(0.0, 0.0, 0.0);
    Scene([
      Transform(Wrappers.None, [1], v, One, Wrappers.Some(Shape(Sphere, Blend, White, 0.5, 0))),
      Transform(Wrappers.Some(0), [], v, One, Wrappers.Some(Shape(Cube, None, White, 0.5, 0))),
      Transform(Wrappers.None, [], v, One, Wrappers.Some(Shape(Torus, Cut, White, 0.5, 0)))])
  }

  /** The only order the sort can produce for the example: the None child,
      the Blend parent, the Cut shape. */
  lemma ExampleSortOrder(scene: Scene, sorted: seq<nat>)
    requires IsExample(scene)
    requires IsShapeList(scene, sorted) && SortedByOperation(scene, sorted)
    ensures sorted == [1, 0, 2]
  {
    assert |sorted| == 3 by {
      DistinctCardinality(sorted);
      assert 0 in sorted && 1 in sorted && 2 in sorted;
      assert (set x: nat | x in sorted) == {0, 1, 2};
    }
    assert OpKey(scene, 0) == 1 && OpKey(scene, 1) == 0 && OpKey(scene, 2) == 2;
    assert sorted[0] < 3 && sorted[1] < 3 && sorted[2] < 3;
    assert OpKey(scene, sorted[0]) <= OpKey(scene, sorted[1]) <= OpKey(scene, sorted[2]);
    assert sorted[0] != sorted[1] && sorted[1] != sorted[2] && sorted[0] != sorted[2];
  }

  /** The example's groups: the Blend parent with its child, the Cut shape alone. */
  lemma ExampleGroups(scene: Scene)
    requires WellFormed(scene) && IsExample(scene)
    ensures Group(scene, 0) == [0, 1] && Group(scene, 2) == [2]
  {
    assert [1][..0] == [];
    assert ShapeChildren(scene, [1]) == [1];
  }

  /** Flattening the sorted example list, one entry at a time. */
  lemma ExampleEmission(scene: Scene)
    requires WellFormed(scene) && IsExample(scene)
    ensures Flatten(scene, [1, 0, 2]) == [0, 1, 2]
  {
    ExampleGroups(scene);
    var s: seq<nat> := [1, 0, 2];
    assert s[..2] == [1, 0] && [1, 0][..1] == [1] && [1][..0] == [];
    assert Flatten(scene, [1]) == [];
    assert Flatten(scene, [1, 0]) == [0, 1];
    assert Flatten(scene, s) == [0, 1] + [2];
  }

  /** The example flattens to the Blend parent, its child, then the Cut
      shape, with numChildren 1, 0 and 0; the child comes right after its
      parent although its operation sorts first. */
  lemma ExampleFlattening(scene: Scene, sorted: seq<nat>)
    requires WellFormed(scene) && IsExample(scene)
    requires IsShapeList(scene, sorted) && SortedByOperation(scene, sorted)
    ensures Flatten(scene, sorted) == [0, 1, 2]
    ensures ExpectedNumChildren(scene, 0) == 1
    ensures ExpectedNumChildren(scene, 1) == 0 && ExpectedNumChildren(scene, 2) == 0
  {
    ExampleSortOrder(scene, sorted);
    ExampleEmission(scene);
  }
}
