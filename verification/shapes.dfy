/** The Shape component (Assets/Scripts/Shape.cs) and the immutable per-frame
    snapshot of the transform hierarchy it lives in. */
module Shapes {
  import Wrappers

  /** A Vector3, with real components (float rounding is not modelled). */
  datatype Vec3 = Vec3(x: real, y: real, z: real)

  /** Vector3.one */
  const One: Vec3 := Vec3(1.0, 1.0, 1.0)

  /** Vector3.Scale: the componentwise product. */
  function ScaleBy(a: Vec3, b: Vec3): Vec3
  {
    Vec3(a.x * b.x, a.y * b.y, a.z * b.z)
  }

  /** A Color with its alpha channel. */
  datatype Color = Color(r: real, g: real, b: real, a: real)

  /** Color.white */
  const White: Color := Color(1.0, 1.0, 1.0, 1.0)

  datatype ShapeType = Sphere | Cube | Torus

  datatype Operation = None | Blend | Cut | Mask

  /** The integer a ShapeType is cast to: its position in the declaration. */
  function ShapeTypeOrdinal(t: ShapeType): (n: int)
    ensures 0 <= n < 3
  {
    match t
    case Sphere => 0
    case Cube => 1
    case Torus => 2
  }

  /** The integer an Operation is cast to, and the key the flattener sorts by. */
  function OperationOrdinal(op: Operation): (n: int)
    ensures 0 <= n < 4
  {
    match op
    case None => 0
    case Blend => 1
    case Cut => 2
    case Mask => 3
  }

  /** Casting to int loses nothing: distinct variants get distinct ordinals,
      and the Operation ordinals follow None < Blend < Cut < Mask. */
  lemma OrdinalsAreFaithful()
    ensures forall s, t :: ShapeTypeOrdinal(s) == ShapeTypeOrdinal(t) ==> s == t
    ensures forall o, p :: OperationOrdinal(o) == OperationOrdinal(p) ==> o == p
    ensures OperationOrdinal(None) < OperationOrdinal(Blend) < OperationOrdinal(Cut) < OperationOrdinal(Mask)
  {
  }

  /** The serialized fields of a Shape component. `numChildren` is written by
      the flattener every frame; `blendStrength` carries the editor range [0,1]. */
  datatype Shape = Shape(
    shapeType: ShapeType,
    operation: Operation,
    colour: Color,
    blendStrength: real,
    numChildren: int)

  /** A freshly added Shape component: its field initialisers and C# defaults. */
  function NewShape(): (s: Shape)
    ensures s.colour == White && s.blendStrength == 0.0 && s.numChildren == 0
    ensures ShapeTypeOrdinal(s.shapeType) == 0 && OperationOrdinal(s.operation) == 0
  {
    Shape(Sphere, None, White, 0.0, 0)
  }

  /** One Transform of the scene: parent link, ordered children, world position,
      local scale and the Shape component it carries, if any. */
  datatype Transform = Transform(
    parent: Wrappers.Option<nat>,
    children: seq<nat>,
    position: Vec3,
    localScale: Vec3,
    shape: Wrappers.Option<Shape>)

  /** A read-only snapshot of the transform hierarchy, indexed by transform id. */
  datatype Scene = Scene(transforms: seq<Transform>)

  /** The snapshot is a finite forest: parent and child links agree, a child list
      holds no transform twice, and the ids are numbered so that a parent comes
      before its children (every finite forest can be numbered that way, and
      it rules out cycles in the parent chain). */
  ghost predicate WellFormed(scene: Scene)
  {
    var t := scene.transforms;
    && (forall i :: 0 <= i < |t| && t[i].parent.Some? ==>
          t[i].parent.value < i && i in t[t[i].parent.value].children)
    && (forall i, k :: 0 <= i < |t| && 0 <= k < |t[i].children| ==>
          t[i].children[k] < |t| && t[t[i].children[k]].parent == Wrappers.Some(i))
    && (forall i, k, l :: 0 <= i < |t| && 0 <= k < l < |t[i].children| ==>
          t[i].children[k] != t[i].children[l])
  }

  /** The editor's [Range(0,1)] on blendStrength, for every Shape of the scene. */
  ghost predicate BlendStrengthsInRange(scene: Scene)
  {
    forall i :: 0 <= i < |scene.transforms| && scene.transforms[i].shape.Some? ==>
      0.0 <= scene.transforms[i].shape.value.blendStrength <= 1.0
  }

  predicate HasShape(scene: Scene, i: nat)
    requires i < |scene.transforms|
  {
    scene.transforms[i].shape.Some?
  }

  /** `transform.parent == null` */
  predicate IsRoot(scene: Scene, i: nat)
    requires i < |scene.transforms|
  {
    scene.transforms[i].parent.None?
  }

  /** Shape.Position: the world position of the shape's transform. */
  function Position(scene: Scene, i: nat): (p: Vec3)
    requires i < |scene.transforms| && HasShape(scene, i)
    ensures p == scene.transforms[i].position
  {
    scene.transforms[i].position
  }

  /** Shape.Scale: the local scale times the parent's Scale while the parent
      carries a Shape, otherwise times Vector3.one. */
  function Scale(scene: Scene, i: nat): (s: Vec3)
    requires WellFormed(scene) && i < |scene.transforms| && HasShape(scene, i)
    ensures var t := scene.transforms;
      (t[i].parent.None? || !HasShape(scene, t[i].parent.value)) ==> s == t[i].localScale
    decreases i
  {
    var t := scene.transforms;
    var parentScale :=
      if t[i].parent.Some? && HasShape(scene, t[i].parent.value)
      then Scale(scene, t[i].parent.value)
      else One;
    ScaleBy(t[i].localScale, parentScale)
  }

  /** A Shape without a parent, or whose parent carries no Shape, has its own
      local scale as Scale; under a Shape parent it is the componentwise
      product with the parent's Scale. */
  lemma ScaleOneLevel(scene: Scene, i: nat)
    requires WellFormed(scene) && i < |scene.transforms| && HasShape(scene, i)
    ensures var t := scene.transforms;
      if t[i].parent.Some? && HasShape(scene, t[i].parent.value)
      then Scale(scene, i) == ScaleBy(t[i].localScale, Scale(scene, t[i].parent.value))
      else Scale(scene, i) == t[i].localScale
  {
  }

  /** The maximal chain of consecutive Shape ancestors, starting at i itself. */
  function ShapeChain(scene: Scene, i: nat): (chain: seq<nat>)
    requires WellFormed(scene) && i < |scene.transforms| && HasShape(scene, i)
    ensures |chain| >= 1 && chain[0] == i
    ensures forall k :: 0 <= k < |chain| ==>
      chain[k] < |scene.transforms| && HasShape(scene, chain[k])
    ensures forall k :: 0 <= k < |chain| - 1 ==>
      scene.transforms[chain[k]].parent == Wrappers.Some(chain[k + 1])
    ensures var last := scene.transforms[chain[|chain| - 1]];
      last.parent.None? || !HasShape(scene, last.parent.value)
    decreases i
  {
    var t := scene.transforms;
    if t[i].parent.Some? && HasShape(scene, t[i].parent.value)
    then [i] + ShapeChain(scene, t[i].parent.value)
    else [i]
  }

  /** The local scales of the transforms of a chain, in chain order. */
  function LocalScales(scene: Scene, chain: seq<nat>): (scales: seq<Vec3>)
    requires forall k :: 0 <= k < |chain| ==> chain[k] < |scene.transforms|
    ensures |scales| == |chain|
  {
    seq(|chain|, k requires 0 <= k < |chain| => scene.transforms[chain[k]].localScale)
  }

  /** The componentwise product of a list of vectors. */
  function Product(vs: seq<Vec3>): Vec3
  {
    if vs == [] then One else ScaleBy(vs[0], Product(vs[1..]))
  }

  /** Scale is the product of the local scales along the whole chain of
      consecutive Shape ancestors, not only the immediate parent. */
  lemma {:induction false} ScaleIsChainProduct(scene: Scene, i: nat)
    requires WellFormed(scene) && i < |scene.transforms| && HasShape(scene, i)
    ensures Scale(scene, i) == Product(LocalScales(scene, ShapeChain(scene, i)))
    decreases i
  {
    var t := scene.transforms;
    var chain := ShapeChain(scene, i);
    var scales := LocalScales(scene, chain);
    if t[i].parent.Some? && HasShape(scene, t[i].parent.value) {
      var p := t[i].parent.value;
      ScaleIsChainProduct(scene, p);
      assert chain == [i] + ShapeChain(scene, p);
      assert scales[1..] == LocalScales(scene, ShapeChain(scene, p));
    } else {
      assert scales == [t[i].localScale];
      assert Product(scales[1..]) == One;
    }
  }
}
