/** The ray-marching compute asset (Assets/Scripts/RayMarch3DCompute.cs):
    it flattens the scene's shapes, packs them into a GPU buffer and sets the
    camera and light uniforms of the compute shader. */
module RayMarch {
  import Wrappers
  import opened Shapes
  import opened Flattening

  /** One packed record of the GPU buffer (the ShapeData struct). */
  datatype ShapeData = ShapeData(
    position: Vec3,
    scale: Vec3,
    colour: Vec3,
    shapeType: int,
    operation: int,
    blendStrength: real,
    numChildren: int)

  const SizeOfFloat: nat := 4
  const SizeOfInt: nat := 4

  /** The ten float slots of a record, in field order. */
  function FloatSlots(d: ShapeData): seq<real>
  {
    [d.position.x, d.position.y, d.position.z,
     d.scale.x, d.scale.y, d.scale.z,
     d.colour.x, d.colour.y, d.colour.z,
     d.blendStrength]
  }

  /** The three int slots of a record, in field order. */
  function IntSlots(d: ShapeData): seq<int>
  {
    [d.shapeType, d.operation, d.numChildren]
  }

  /** ShapeData.GetSize: the stride of the shape buffer in bytes. */
  function GetSize(): (bytes: nat)
    ensures bytes == 52
  {
    SizeOfFloat * 10 + SizeOfInt * 3
  }

  /** The stride covers every field of every record, whatever its values. */
  lemma StrideCoversRecord(d: ShapeData)
    ensures GetSize() == SizeOfFloat * |FloatSlots(d)| + SizeOfInt * |IntSlots(d)|
  {
  }

  /** The record CreateScene builds for one shape, given the numChildren the
      shape holds when the record is built. */
  function Pack(scene: Scene, id: nat, numChildren: int): (d: ShapeData)
    requires WellFormed(scene) && id < |scene.transforms| && HasShape(scene, id)
    ensures d.position == scene.transforms[id].position && d.scale == Scale(scene, id)
    ensures 0 <= d.shapeType <= 2 && 0 <= d.operation <= 3
    ensures d.operation == OpKey(scene, id)
    ensures d.numChildren == numChildren
  {
    var s := scene.transforms[id].shape.value;
    ShapeData(
      Position(scene, id),
      Scale(scene, id),
      Vec3(s.colour.r, s.colour.g, s.colour.b),
      ShapeTypeOrdinal(s.shapeType),
      OperationOrdinal(s.operation),
      s.blendStrength * 3.0,
      numChildren)
  }

  /** The records of an emission order, one per shape, in the same order. */
  function PackAll(scene: Scene, out: seq<nat>): (records: seq<ShapeData>)
    requires WellFormed(scene) && ShapeIds(scene, out)
    ensures |records| == |out|
  {
    seq(|out|, k requires 0 <= k < |out| => Pack(scene, out[k], ExpectedNumChildren(scene, out[k])))
  }

  /** Record k carries shape k's position, scale, rgb colour, enum ordinals and
      numChildren, and three times its blend strength. */
  lemma PackedFields(scene: Scene, out: seq<nat>, k: nat)
    requires WellFormed(scene) && ShapeIds(scene, out) && k < |out|
    ensures var d := PackAll(scene, out)[k];
      var s := scene.transforms[out[k]].shape.value;
      && d.position == scene.transforms[out[k]].position
      && d.scale == Scale(scene, out[k])
      && d.colour == Vec3(s.colour.r, s.colour.g, s.colour.b)
      && d.shapeType == ShapeTypeOrdinal(s.shapeType)
      && d.operation == OperationOrdinal(s.operation)
      && d.blendStrength == 3.0 * s.blendStrength
      && d.numChildren == ExpectedNumChildren(scene, out[k])
  {
  }

  /** With blend strengths in the editor range [0,1], every packed blend
      strength lies in [0,3]. */
  lemma PackedBlendStrengthRange(scene: Scene, out: seq<nat>)
    requires WellFormed(scene) && ShapeIds(scene, out) && BlendStrengthsInRange(scene)
    ensures forall k :: 0 <= k < |out| ==> 0.0 <= PackAll(scene, out)[k].blendStrength <= 3.0
  {
  }

  /** In the packed buffer of a sorted list, the records of top-level shapes
      carry non-decreasing operation ordinals. */
  lemma PackedOperationsOrdered(scene: Scene, s: seq<nat>, p: nat, q: nat)
    requires WellFormed(scene) && ShapeIds(scene, s) && SortedByOperation(scene, s)
    requires p < q < |Flatten(scene, s)|
    requires IsRoot(scene, Flatten(scene, s)[p]) && IsRoot(scene, Flatten(scene, s)[q])
    ensures PackAll(scene, Flatten(scene, s))[p].operation <= PackAll(scene, Flatten(scene, s))[q].operation
  {
    RootsInOperationOrder(scene, s);
  }

  /** The header record of a group holds the transform's childCount, which is
      at least the number of child records that follow it; those records are
      the Shape children in child order, each with numChildren 0. */
  lemma PackedGroupLayout(scene: Scene, s: seq<nat>, p: nat)
    requires WellFormed(scene) && ShapeIds(scene, s)
    requires p < |Flatten(scene, s)| && IsRoot(scene, Flatten(scene, s)[p])
    ensures var out := Flatten(scene, s);
      var records := PackAll(scene, out);
      var kids := ShapeChildren(scene, scene.transforms[out[p]].children);
      && p + 1 + |kids| <= |out|
      && records[p].numChildren == |scene.transforms[out[p]].children| >= |kids|
      && out[p + 1 .. p + 1 + |kids|] == kids
      && (forall k :: p < k <= p + |kids| ==> records[k].numChildren == 0)
  {
    RootFollowedByItsChildren(scene, s, p);
    PackedGroupRecords(scene, Flatten(scene, s), p);
  }

  /** The records of one group, wherever the group sits in the output. */
  lemma PackedGroupRecords(scene: Scene, out: seq<nat>, p: nat)
    requires WellFormed(scene) && ShapeIds(scene, out) && p < |out|
    requires IsRoot(scene, out[p]) && GroupAt(scene, out, p)
    ensures var records := PackAll(scene, out);
      var kids := ShapeChildren(scene, scene.transforms[out[p]].children);
      && p + 1 + |kids| <= |out|
      && records[p].numChildren == |scene.transforms[out[p]].children| >= |kids|
      && out[p + 1 .. p + 1 + |kids|] == kids
      && (forall k :: p < k <= p + |kids| ==> records[k].numChildren == 0)
  {
    HeaderCountsShapelessChildren(scene, scene.transforms[out[p]].children);
    GroupSlotsNotRoots(scene, out, p);
  }

  /** The slots a group's children occupy hold no top-level shape. */
  lemma GroupSlotsNotRoots(scene: Scene, out: seq<nat>, p: nat)
    requires WellFormed(scene) && ShapeIds(scene, out) && p < |out|
    requires IsRoot(scene, out[p]) && GroupAt(scene, out, p)
    ensures var kids := ShapeChildren(scene, scene.transforms[out[p]].children);
      forall k :: p < k <= p + |kids| ==> !IsRoot(scene, out[k])
  {
    var children := scene.transforms[out[p]].children;
    var kids := ShapeChildren(scene, children);
    forall k | p < k <= p + |kids| ensures !IsRoot(scene, out[k]) {
      var x := out[k];
      assert x == kids[k - p - 1];
      ShapeChildrenMembers(scene, children, x);
      ChildIffParent(scene, out[p], x);
    }
  }

  /** A GPU ComputeBuffer: element count and stride fixed at creation, and the
      contents last uploaded with SetData. */
  class ComputeBuffer {
    const count: nat
    const stride: nat
    var data: seq<ShapeData>

    constructor(count: nat, stride: nat)
      ensures this.count == count && this.stride == stride && data == []
    {
      this.count := count;
      this.stride := stride;
      data := [];
    }

    method SetData(d: seq<ShapeData>)
      requires |d| <= count
      modifies this
      ensures data == d
    {
      data := d;
    }
  }

  /** An opaque 4x4 matrix handed to the shader unchanged. */
  datatype Matrix4x4 = Matrix4x4(elements: seq<real>)

  /** A camera: its pixel size and the two matrices the shader needs (the
      inverse of the projection is computed by the engine). */
  datatype Camera = Camera(
    pixelWidth: nat,
    pixelHeight: nat,
    cameraToWorldMatrix: Matrix4x4,
    projectionMatrixInverse: Matrix4x4)

  datatype LightType = Spot | Directional | Point | Rectangle | Disc

  /** A light: its type, its transform's forward vector and world position. */
  datatype Light = Light(lightType: LightType, forward: Vec3, position: Vec3)

  /** The `_Light` vector and the `positionLight` flag: a directional light is
      sent as its forward direction, any other light as its position, and the
      flag tells the kernel which of the two it got. */
  function LightUniforms(light: Light): (u: (Vec3, bool))
    ensures u.1 <==> light.lightType != Directional
    ensures u.1 ==> u.0 == light.position
    ensures !u.1 ==> u.0 == light.forward
  {
    var lightIsDirectional := light.lightType == Directional;
    (if lightIsDirectional then light.forward else light.position, !lightIsDirectional)
  }

  /** One call made on the compute shader, in the order it was made. */
  datatype ShaderCall =
    | BufferParam(kernel: int, name: string, buffer: ComputeBuffer)
    | IntParam(name: string, intValue: int)
    | MatrixParam(name: string, matrix: Matrix4x4)
    | VectorParam(name: string, vector: Vec3)
    | BoolParam(name: string, flag: bool)

  /** A compute shader: the index of its CSMain kernel and the log of the
      parameters set on it. */
  class ComputeShader {
    const csMainKernel: int
    var calls: seq<ShaderCall>

    constructor(csMainKernel: int)
      ensures this.csMainKernel == csMainKernel && calls == []
    {
      this.csMainKernel := csMainKernel;
      calls := [];
    }

    method SetBuffer(kernel: int, name: string, buffer: ComputeBuffer)
      modifies this
      ensures calls == old(calls) + [BufferParam(kernel, name, buffer)]
    {
      calls := calls + [BufferParam(kernel, name, buffer)];
    }

    method SetInt(name: string, value: int)
      modifies this
      ensures calls == old(calls) + [IntParam(name, value)]
    {
      calls := calls + [IntParam(name, value)];
    }

    method SetMatrix(name: string, value: Matrix4x4)
      modifies this
      ensures calls == old(calls) + [MatrixParam(name, value)]
    {
      calls := calls + [MatrixParam(name, value)];
    }

    method SetVector(name: string, value: Vec3)
      modifies this
      ensures calls == old(calls) + [VectorParam(name, value)]
    {
      calls := calls + [VectorParam(name, value)];
    }

    method SetBool(name: string, value: bool)
      modifies this
      ensures calls == old(calls) + [BoolParam(name, value)]
    {
      calls := calls + [BoolParam(name, value)];
    }
  }

  /** The calls CreateScene makes on the shader for a buffer of n records. */
  function SceneCalls(buffer: ComputeBuffer, n: int): (calls: seq<ShaderCall>)
    ensures |calls| == 2 && calls[0].BufferParam? && calls[0].buffer == buffer
    ensures calls[0].kernel == 0 && calls[1] == IntParam("numShapes", n)
  {
    [BufferParam(0, "shapes", buffer), IntParam("numShapes", n)]
  }

  /** The calls SetParameters makes on the shader. */
  function ParameterCalls(cam: Camera, light: Light): (calls: seq<ShaderCall>)
    ensures |calls| == 4
    ensures light.lightType == Directional ==>
      calls[2] == VectorParam("_Light", light.forward) && calls[3] == BoolParam("positionLight", false)
    ensures light.lightType != Directional ==>
      calls[2] == VectorParam("_Light", light.position) && calls[3] == BoolParam("positionLight", true)
  {
    [MatrixParam("_CameraToWorld", cam.cameraToWorldMatrix),
     MatrixParam("_CameraInverseProjection", cam.projectionMatrixInverse),
     VectorParam("_Light", LightUniforms(light).0),
     BoolParam("positionLight", LightUniforms(light).1)]
  }

  /** Why Render stops early: SetParameters dereferences a missing light or camera. */
  datatype RenderError = MissingLight | MissingCamera

  /** List.Sort with the comparison of operations: the list ends up ordered by
      operation ordinal and holds the same shapes. The order among shapes with
      equal operations is not promised. */
  method SortByOperation(scene: Scene, a: array<nat>)
    modifies a
    ensures SortedByOperation(scene, a[..])
    ensures multiset(a[..]) == old(multiset(a[..]))
  {
    var i := 0;
    while i < a.Length
      invariant 0 <= i <= a.Length
      invariant SortedPrefix(scene, a, i)
      invariant multiset(a[..]) == old(multiset(a[..]))
    {
      InsertAt(scene, a, i);
      i := i + 1;
    }
  }

  ghost predicate SortedPrefix(scene: Scene, a: array<nat>, n: int)
    requires 0 <= n <= a.Length
    reads a
  {
    SortedByOperation(scene, a[..n])
  }

  /** One insertion step: a[i] moves left past every larger key. */
  method InsertAt(scene: Scene, a: array<nat>, i: nat)
    requires i < a.Length && SortedPrefix(scene, a, i)
    modifies a
    ensures SortedPrefix(scene, a, i + 1)
    ensures multiset(a[..]) == old(multiset(a[..]))
  {
    var j := i;
    while j > 0 && OpKey(scene, a[j - 1]) > OpKey(scene, a[j])
      invariant 0 <= j <= i
      invariant forall p, q :: 0 <= p < q <= i && p != j && q != j ==>
        OpKey(scene, a[p]) <= OpKey(scene, a[q])
      invariant forall q :: j < q <= i ==> OpKey(scene, a[j]) <= OpKey(scene, a[q])
      invariant 0 < j < i ==> OpKey(scene, a[j - 1]) <= OpKey(scene, a[j + 1])
      invariant multiset(a[..]) == old(multiset(a[..]))
    {
      Swap(a, j - 1, j);
      j := j - 1;
    }
  }

  method Swap(a: array<nat>, i: nat, j: nat)
    requires i < j < a.Length
    modifies a
    ensures a[i] == old(a[j]) && a[j] == old(a[i])
    ensures forall k :: 0 <= k < a.Length && k != i && k != j ==> a[k] == old(a[k])
    ensures multiset(a[..]) == old(multiset(a[..]))
  {
    a[i], a[j] := a[j], a[i];
  }

  /** The numChildren each Shape component holds before CreateScene runs. */
  function StoredNumChildren(scene: Scene): (m: map<nat, int>)
    ensures forall id: nat :: id in m <==> id < |scene.transforms| && HasShape(scene, id)
  {
    map id: nat | id < |scene.transforms| && HasShape(scene, id) ::
      scene.transforms[id].shape.value.numChildren
  }

  /** The numChildren map covers exactly the Shapes; an emitted shape holds
      the value CreateScene writes, every other shape its stored value. */
  ghost predicate NumChildrenWritten(scene: Scene, numChildren: map<nat, int>, emitted: seq<nat>)
  {
    forall id: nat ::
      (id in numChildren <==> id < |scene.transforms| && HasShape(scene, id)) &&
      (id in numChildren ==>
        numChildren[id] ==
          if id in emitted then ExpectedNumChildren(scene, id)
          else scene.transforms[id].shape.value.numChildren)
  }

  /** Emitting a shape and writing its numChildren keeps the map in step. */
  lemma WriteNumChildren(scene: Scene, numChildren: map<nat, int>, emitted: seq<nat>, x: nat)
    requires NumChildrenWritten(scene, numChildren, emitted)
    requires x < |scene.transforms| && HasShape(scene, x)
    ensures NumChildrenWritten(scene, numChildren[x := ExpectedNumChildren(scene, x)], emitted + [x])
  {
    var m := numChildren[x := ExpectedNumChildren(scene, x)];
    forall id: nat
      ensures (id in m <==> id < |scene.transforms| && HasShape(scene, id))
      ensures id in m ==>
        m[id] == if id in emitted + [x] then ExpectedNumChildren(scene, id)
                 else scene.transforms[id].shape.value.numChildren
    {
      assert id in emitted + [x] <==> id in emitted || id == x;
    }
  }

  /** The nested loops of CreateScene: each top-level shape of the sorted
      array, then its Shape children in child order; numChildren is written on
      every emitted shape. */
  method EmitGroups(scene: Scene, allShapes: array<nat>)
    returns (orderedShapes: seq<nat>, numChildren: map<nat, int>)
    requires WellFormed(scene) && ShapeIds(scene, allShapes[..])
    ensures orderedShapes == Flatten(scene, allShapes[..])
    ensures NumChildrenWritten(scene, numChildren, orderedShapes)
  {
    ghost var sorted := allShapes[..];
    orderedShapes := [];
    numChildren := StoredNumChildren(scene);
    var i := 0;
    while i < allShapes.Length
      invariant 0 <= i <= allShapes.Length
      invariant orderedShapes == Flatten(scene, sorted[..i])
      invariant NumChildrenWritten(scene, numChildren, orderedShapes)
    {
      var id := allShapes[i];
      FlattenStep(scene, sorted, i);
      if scene.transforms[id].parent.None? {
        orderedShapes, numChildren := EmitGroup(scene, id, orderedShapes, numChildren);
      }
      i := i + 1;
    }
    assert sorted[..i] == sorted;
  }

  /** One pass of the outer loop for a top-level shape id: id itself, with
      numChildren set to its child count, then its Shape children. */
  method EmitGroup(scene: Scene, id: nat, orderedShapes0: seq<nat>, numChildren0: map<nat, int>)
    returns (orderedShapes: seq<nat>, numChildren: map<nat, int>)
    requires WellFormed(scene) && id < |scene.transforms| && HasShape(scene, id) && IsRoot(scene, id)
    requires NumChildrenWritten(scene, numChildren0, orderedShapes0)
    ensures orderedShapes == orderedShapes0 + Group(scene, id)
    ensures NumChildrenWritten(scene, numChildren, orderedShapes)
  {
    var parentShape := scene.transforms[id];
    assert ExpectedNumChildren(scene, id) == |parentShape.children|;
    WriteNumChildren(scene, numChildren0, orderedShapes0, id);
    ChildrenAreNotRoots(scene, id);
    orderedShapes := orderedShapes0 + [id];
    numChildren := numChildren0[id := |parentShape.children|];
    orderedShapes, numChildren := EmitChildren(scene, id, orderedShapes, numChildren);
  }

  /** The Shape children of one more child: the filter extends by that child
      when it carries a Shape. */
  lemma ShapeChildrenStep(scene: Scene, cs: seq<nat>, j: nat)
    requires forall k :: 0 <= k < |cs| ==> cs[k] < |scene.transforms|
    requires j < |cs|
    ensures ShapeChildren(scene, cs[..j + 1]) ==
      ShapeChildren(scene, cs[..j]) + (if HasShape(scene, cs[j]) then [cs[j]] else [])
  {
    assert cs[..j + 1][..j] == cs[..j];
  }

  /** One pass of the inner loop: a child carrying a Shape is emitted and
      its numChildren set to 0; any other child is passed over. */
  method EmitChild(scene: Scene, child: nat, orderedShapes0: seq<nat>, numChildren0: map<nat, int>)
    returns (orderedShapes: seq<nat>, numChildren: map<nat, int>)
    requires child < |scene.transforms| && !IsRoot(scene, child)
    requires NumChildrenWritten(scene, numChildren0, orderedShapes0)
    ensures orderedShapes == orderedShapes0 + (if HasShape(scene, child) then [child] else [])
    ensures NumChildrenWritten(scene, numChildren, orderedShapes)
  {
    orderedShapes, numChildren := orderedShapes0, numChildren0;
    if scene.transforms[child].shape.Some? {
      WriteNumChildren(scene, numChildren, orderedShapes, child);
      orderedShapes := orderedShapes + [child];
      numChildren := numChildren[child := 0];
    }
  }

  /** The inner loop of CreateScene: the children of the top-level shape id
      that carry a Shape are appended in child order, each with numChildren 0. */
  method EmitChildren(scene: Scene, id: nat, orderedShapes0: seq<nat>, numChildren0: map<nat, int>)
    returns (orderedShapes: seq<nat>, numChildren: map<nat, int>)
    requires id < |scene.transforms|
    requires forall k :: 0 <= k < |scene.transforms[id].children| ==>
      scene.transforms[id].children[k] < |scene.transforms| &&
      !IsRoot(scene, scene.transforms[id].children[k])
    requires NumChildrenWritten(scene, numChildren0, orderedShapes0)
    ensures orderedShapes == orderedShapes0 + ShapeChildren(scene, scene.transforms[id].children)
    ensures NumChildrenWritten(scene, numChildren, orderedShapes)
  {
    var parentShape := scene.transforms[id];
    orderedShapes, numChildren := orderedShapes0, numChildren0;
    var j := 0;
    while j < |parentShape.children|
      invariant 0 <= j <= |parentShape.children|
      invariant orderedShapes == orderedShapes0 + ShapeChildren(scene, parentShape.children[..j])
      invariant NumChildrenWritten(scene, numChildren, orderedShapes)
    {
      ShapeChildrenStep(scene, parentShape.children, j);
      orderedShapes, numChildren := EmitChild(scene, parentShape.children[j], orderedShapes, numChildren);
      j := j + 1;
    }
    assert parentShape.children[..j] == parentShape.children;
  }

  /** The part of CreateScene that works on the shapes alone: copy the found
      list into an array, sort it by operation, emit the groups with their
      numChildren writes, and pack the records. */
  method BuildShapeData(scene: Scene, found: seq<nat>)
    returns (ghost sorted: seq<nat>, ghost ordered: seq<nat>,
             shapeData: array<ShapeData>, numChildren: map<nat, int>)
    requires WellFormed(scene) && IsShapeList(scene, found)
    ensures multiset(sorted) == multiset(found) && SortedByOperation(scene, sorted)
    ensures IsShapeList(scene, sorted) && ordered == Flatten(scene, sorted)
    ensures fresh(shapeData) && shapeData[..] == PackAll(scene, ordered)
    ensures NumChildrenWritten(scene, numChildren, ordered)
  {
    var allShapes := new nat[|found|](k requires 0 <= k < |found| => found[k]);
    assert allShapes[..] == found;
    SortByOperation(scene, allShapes);
    sorted := allShapes[..];
    ShapeListPermutation(scene, found, sorted);

    var orderedShapes;
    orderedShapes, numChildren := EmitGroups(scene, allShapes);
    ordered := orderedShapes;
    shapeData := PackShapes(scene, orderedShapes, numChildren);
  }

  /** The packing loop of CreateScene: record k is built from shape k of the
      emission order and the numChildren it now holds. */
  method PackShapes(scene: Scene, orderedShapes: seq<nat>, numChildren: map<nat, int>)
    returns (shapeData: array<ShapeData>)
    requires WellFormed(scene) && ShapeIds(scene, orderedShapes)
    requires NumChildrenWritten(scene, numChildren, orderedShapes)
    ensures fresh(shapeData) && shapeData[..] == PackAll(scene, orderedShapes)
  {
    shapeData := new ShapeData[|orderedShapes|];
    for k := 0 to |orderedShapes|
      invariant forall m :: 0 <= m < k ==>
        shapeData[m] == Pack(scene, orderedShapes[m], ExpectedNumChildren(scene, orderedShapes[m]))
    {
      var s := orderedShapes[k];
      assert s in orderedShapes;
      shapeData[k] := Pack(scene, s, numChildren[s]);
    }
  }

  class RayMarch3DCompute {
    var shader: ComputeShader?
    var cam: Wrappers.Option<Camera>
    var lightSource: Wrappers.Option<Light>
    var buffersToDispose: seq<ComputeBuffer>

    /** The asset as created in the editor, with its compute shader assigned. */
    constructor(shader: ComputeShader?)
      ensures this.shader == shader && cam.None? && lightSource.None? && buffersToDispose == []
    {
      this.shader := shader;
      cam := Wrappers.None;
      lightSource := Wrappers.None;
      buffersToDispose := [];
    }

    /** Setup: remembers the current camera and the light found in the scene
        (either may be missing). */
    method Setup(current: Wrappers.Option<Camera>, light: Wrappers.Option<Light>)
      modifies this`cam, this`lightSource
      ensures cam == current && lightSource == light
    {
      cam := current;
      lightSource := light;
    }

    /** CreateScene: sorts the shapes found by operation, emits each top-level
        shape followed by its Shape children, writes numChildren on the emitted
        shapes, packs the records into a new buffer and hands it to the shader.
        `sorted` is the order the sort produced; `ordered` the emission order;
        `numChildren` the value each Shape component holds afterwards. */
    method CreateScene(scene: Scene, found: seq<nat>)
      returns (ghost sorted: seq<nat>, ghost ordered: seq<nat>,
               shapeBuffer: ComputeBuffer, numChildren: map<nat, int>)
      requires WellFormed(scene) && IsShapeList(scene, found)
      requires shader != null
      modifies this`buffersToDispose, shader
      ensures multiset(sorted) == multiset(found) && SortedByOperation(scene, sorted)
      ensures IsShapeList(scene, sorted) && ordered == Flatten(scene, sorted)
      ensures fresh(shapeBuffer)
      ensures shapeBuffer.count == |ordered| && shapeBuffer.stride == GetSize()
      ensures shapeBuffer.count * shapeBuffer.stride == 52 * |ordered|
      ensures shapeBuffer.data == PackAll(scene, ordered)
      ensures shader.calls == old(shader.calls) + SceneCalls(shapeBuffer, |ordered|)
      ensures buffersToDispose == old(buffersToDispose) + [shapeBuffer]
      ensures NumChildrenWritten(scene, numChildren, ordered)
    {
      var shapeData;
      sorted, ordered, shapeData, numChildren := BuildShapeData(scene, found);
      shapeBuffer := new ComputeBuffer(shapeData.Length, GetSize());
      shapeBuffer.SetData(shapeData[..]);
      shader.SetBuffer(0, "shapes", shapeBuffer);
      shader.SetInt("numShapes", shapeData.Length);
      buffersToDispose := buffersToDispose + [shapeBuffer];
    }

    /** SetParameters: the camera matrices, the light vector and the light-kind
        flag. The light is read first, then the camera; a missing one ends the
        call before anything is set. */
    method SetParameters() returns (outcome: Wrappers.Outcome<RenderError>)
      requires shader != null
      modifies shader
      ensures lightSource.None? ==>
        outcome == Wrappers.Fail(MissingLight) && shader.calls == old(shader.calls)
      ensures lightSource.Some? && cam.None? ==>
        outcome == Wrappers.Fail(MissingCamera) && shader.calls == old(shader.calls)
      ensures lightSource.Some? && cam.Some? ==>
        outcome == Wrappers.Pass &&
        shader.calls == old(shader.calls) + ParameterCalls(cam.value, lightSource.value)
    {
      if lightSource.None? {
        return Wrappers.Fail(MissingLight);
      }
      var light := lightSource.value;
      var lightIsDirectional := light.lightType == Directional;
      if cam.None? {
        return Wrappers.Fail(MissingCamera);
      }
      shader.SetMatrix("_CameraToWorld", cam.value.cameraToWorldMatrix);
      shader.SetMatrix("_CameraInverseProjection", cam.value.projectionMatrixInverse);
      shader.SetVector("_Light", if lightIsDirectional then light.forward else light.position);
      shader.SetBool("positionLight", !lightIsDirectional);
      outcome := Wrappers.Pass;
    }

    /** Render: a fresh dispose list, then CreateScene, then SetParameters. */
    method Render(scene: Scene, found: seq<nat>)
      returns (outcome: Wrappers.Outcome<RenderError>, ghost ordered: seq<nat>,
               shapeBuffer: ComputeBuffer)
      requires WellFormed(scene) && IsShapeList(scene, found)
      requires shader != null
      modifies this`buffersToDispose, shader
      ensures exists sorted: seq<nat> :: IsShapeList(scene, sorted) && SortedByOperation(scene, sorted) &&
        multiset(sorted) == multiset(found) && ordered == Flatten(scene, sorted)
      ensures fresh(shapeBuffer) && shapeBuffer.data == PackAll(scene, ordered)
      ensures shapeBuffer.count == |ordered| && shapeBuffer.stride == GetSize()
      ensures buffersToDispose == [shapeBuffer]
      ensures outcome.Pass? <==> lightSource.Some? && cam.Some?
      ensures shader.calls == old(shader.calls) + SceneCalls(shapeBuffer, |ordered|) +
        (if outcome.Pass? then ParameterCalls(cam.value, lightSource.value) else [])
    {
      buffersToDispose := [];
      ghost var sorted;
      var numChildren;
      sorted, ordered, shapeBuffer, numChildren := CreateScene(scene, found);
      outcome := SetParameters();
    }
  }
}
