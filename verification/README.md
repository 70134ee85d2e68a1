# Ray-marching scene flattening and compute pass

This project models the host side of a signed-distance-field ray marcher for
Unity's Universal Render Pipeline. The model has three parts.

- **Shapes** (`shapes.dfy`) holds the `Shape` component: its shape and
  operation enums with their integer ordinals, its serialized fields, its
  `Position`, and its recursive `Scale`. A `Shape` lives in an immutable
  snapshot of the transform hierarchy. The snapshot is a finite forest
  numbered so that a parent comes before its children.
- **Flattening and RayMarch** (`flattening.dfy`, `raymarch.dfy`) hold the
  `RayMarch3DCompute` asset.
  - `CreateScene` sorts the shapes by operation. It then emits every
    top-level shape followed by those of its direct children that carry a
    `Shape`.
  - It writes `numChildren` on every shape it emits, and packs the shapes
    into 52-byte `ShapeData` records.
  - It hands the buffer and its length to the compute shader.
  - `SetParameters` sets the camera matrices and the light uniforms.
  - `Render` runs `CreateScene` and then `SetParameters`.
  - `Flattening` states the emission order as a function on the sorted
    list. The imperative methods of `RayMarch` (an in-place sort, nested
    emission loops, a packing loop) are proved against that function.
- **Passes** (`compute_pass.dfy`) holds `ComputePass`. It is modelled as
  a command trace: every engine call the pass makes on a command buffer is
  recorded as an abstract command.
  - `Execute` does nothing without an asset or a shader.
  - Otherwise it lets the asset render, then queues two temporaries and a
    snapshot blit of the camera colour. It then queues the `Source` and
    `Destination` bindings, the dispatch, and the compositing.
  - It submits, clears and releases the command buffer.
  - `OnCameraCleanup` queues the release of the three temporaries.

Unity's scene queries become parameters:
- `FindObjectsOfType<Shape>()` is a list `found` that holds every `Shape`
  once, in any order.
- `Camera.current`, the light found by `FindObjectOfType<Light>()`, the
  frame camera, and `Screen.width`/`Screen.height` are arguments.

A missing light or camera makes `SetParameters` dereference null. This is
modelled as an `Outcome` failure that propagates out of `Render` and
`Execute`. The light is read first, so a missing light stops the call
before any shader parameter is set.

Three behaviours of the code are easy to misread:
- `Shape.Scale` recurses through every consecutive `Shape` ancestor
  (Assets/Scripts/Shape.cs:31-32), not just the immediate parent.
  `Shapes.ScaleIsChainProduct` states the product along the whole chain.
- The dispatch size is `Mathf.CeilToInt(Screen.width / 8)` over integers
  (Assets/Scripts/ComputePass.cs:54). This is the integer division rounded
  down, not a ceiling. It is taken from the screen size, while the
  temporaries are sized to the camera's pixel size.
  `Passes.GroupCount` and `Passes.GroupCountLeavesPartialTile` state the
  floor.
- On the material path, `convergedBuffer` is written by a blit although no
  `GetTemporaryRT` ever allocates it. `Passes.AcquiredBeforeUse` states
  this. The path is unreachable, because no code ever assigns a material.

## Model

| member | source | states |
|---|---|---|
| Shapes.ShapeTypeOrdinal | Assets/Scripts/Shape.cs:11 | a shape kind is cast to an integer in 0..2 |
| Shapes.OperationOrdinal | Assets/Scripts/Shape.cs:12 | an operation is cast to an integer in 0..3 |
| Shapes.OrdinalsAreFaithful | Assets/Scripts/Shape.cs:11-12 | distinct enum variants get distinct ordinals, and None < Blend < Cut < Mask |
| Shapes.NewShape | Assets/Scripts/Shape.cs:14-20 | a new Shape is white, with blend strength 0, numChildren 0 and the first variant of each enum |
| Shapes.Position | Assets/Scripts/Shape.cs:22-26 | Position is the transform's world position, unchanged |
| Shapes.Scale | Assets/Scripts/Shape.cs:28-36 | a Shape with no parent, or whose parent carries no Shape, has its own local scale as Scale |
| Shapes.ScaleOneLevel | Assets/Scripts/Shape.cs:28-36 | without a Shape parent, Scale is the local scale; under a Shape parent, it is the componentwise product with the parent's Scale |
| Shapes.ShapeChain | Assets/Scripts/Shape.cs:30-33 | the chain starts at the shape, links each entry to its parent, holds only Shapes, and stops where the next parent is missing or carries no Shape |
| Shapes.ScaleIsChainProduct | Assets/Scripts/Shape.cs:28-36 | Scale is the product of the local scales along the maximal chain of consecutive Shape ancestors |
| Flattening.ShapeChildren | Assets/Scripts/RayMarch3DCompute.cs:56-60 | the Shape children of a child list are never more than the children themselves |
| Flattening.Group | Assets/Scripts/RayMarch3DCompute.cs:53-60 | a top-level shape's group starts with that shape |
| Flattening.ExpectedNumChildren | Assets/Scripts/RayMarch3DCompute.cs:54-59 | the numChildren CreateScene writes is never negative, and only a top-level shape gets a nonzero value |
| Flattening.Flatten | Assets/Scripts/RayMarch3DCompute.cs:48-64 | every emitted entry is a transform that carries a Shape |
| Flattening.ShapeChildrenMembers | Assets/Scripts/RayMarch3DCompute.cs:56-60 | the inner loop appends exactly the children that carry a Shape |
| Flattening.FlattenMembers | Assets/Scripts/RayMarch3DCompute.cs:48-61 | a shape is emitted iff it is a top-level entry of the list, or a Shape whose parent is a top-level entry of the list |
| Flattening.EmittedIff | Assets/Scripts/RayMarch3DCompute.cs:48-61 | on the full list of shapes, a shape is emitted iff it is top-level or its parent is a top-level Shape |
| Flattening.NotEmitted | Assets/Scripts/RayMarch3DCompute.cs:55-61 | a grandchild, or a Shape under a top-level transform without a Shape, is never emitted |
| Flattening.FlattenNoDuplicates | Assets/Scripts/RayMarch3DCompute.cs:48-61 | no shape is emitted twice when each shape is found once |
| Flattening.FlattenLength | Assets/Scripts/RayMarch3DCompute.cs:48-61 | output length = number of top-level shapes + number of Shapes whose parent is a top-level Shape |
| Flattening.NoShapesNoOutput | Assets/Scripts/RayMarch3DCompute.cs:43-48 | a scene without Shapes emits nothing |
| Flattening.RootsInOperationOrder | Assets/Scripts/RayMarch3DCompute.cs:44-53 | after the sort, the top-level shapes of the output are in non-decreasing operation order |
| Flattening.GroupTailNotRoots | Assets/Scripts/RayMarch3DCompute.cs:52-60 | within a group, only the head is top-level |
| Flattening.RootFollowedByItsChildren | Assets/Scripts/RayMarch3DCompute.cs:53-60 | each top-level shape is followed at once by exactly its Shape children in child order, then by a top-level shape or the end, whatever the children's own operations |
| Flattening.HeaderCountsShapelessChildren | Assets/Scripts/RayMarch3DCompute.cs:54-57 | the childCount written on a top-level shape is at least its number of Shape children, with equality iff every child carries a Shape |
| Flattening.ShapeListPermutation | Assets/Scripts/RayMarch3DCompute.cs:43-44 | a permutation of the found list still holds every Shape exactly once |
| Flattening.ExampleScene | Assets/Scripts/RayMarch3DCompute.cs:48-61 | the example of a sphere with a cube child plus a separate torus is a well-formed forest |
| Flattening.ExampleSortOrder | Assets/Scripts/RayMarch3DCompute.cs:44 | for any scene shaped like the example, the only order the sort can produce is cube, sphere, torus |
| Flattening.ExampleGroups | Assets/Scripts/RayMarch3DCompute.cs:53-60 | in the example, the sphere's group is the sphere then the cube, the torus's group is the torus alone |
| Flattening.ExampleEmission | Assets/Scripts/RayMarch3DCompute.cs:48-61 | emitting the sorted example list cube, sphere, torus skips the cube at first and yields sphere, cube, torus |
| Flattening.ExampleFlattening | Assets/Scripts/RayMarch3DCompute.cs:48-61 | for any scene shaped like the example and any sorted shape list, emission gives sphere, cube, torus, with numChildren 1, 0 and 0 |
| RayMarch.GetSize | Assets/Scripts/RayMarch3DCompute.cs:111-113 | the record stride is 52 bytes |
| RayMarch.StrideCoversRecord | Assets/Scripts/RayMarch3DCompute.cs:100-113 | the stride is 4 bytes for each of the ten float slots and each of the three int slots, whatever the values |
| RayMarch.Pack | Assets/Scripts/RayMarch3DCompute.cs:68-77 | a record holds the shape's world position and its Scale, ordinals in 0..2 and 0..3, the operation ordinal equal to the sort key, and the numChildren the shape holds |
| RayMarch.PackAll | Assets/Scripts/RayMarch3DCompute.cs:66-78 | one record per emitted shape |
| RayMarch.PackedFields | Assets/Scripts/RayMarch3DCompute.cs:66-77 | record k copies shape k's position, Scale, rgb colour, enum ordinals and written numChildren, and 3 × its blend strength |
| RayMarch.PackedBlendStrengthRange | Assets/Scripts/RayMarch3DCompute.cs:75 | with blend strengths in the editor range [0,1], packed blend strengths lie in [0,3] |
| RayMarch.PackedOperationsOrdered | Assets/Scripts/RayMarch3DCompute.cs:44-74 | the records of top-level shapes carry non-decreasing operation ordinals |
| RayMarch.PackedGroupLayout | Assets/Scripts/RayMarch3DCompute.cs:53-76 | a header record holds childCount, which is at least the number of child records that follow it; those records are the Shape children, each with numChildren 0 |
| RayMarch.ComputeBuffer.SetData | Assets/Scripts/RayMarch3DCompute.cs:81 | the buffer holds exactly the records given |
| RayMarch.SceneCalls | Assets/Scripts/RayMarch3DCompute.cs:82-83 | the shape buffer is bound to kernel 0, and then `numShapes` is set to the record count |
| RayMarch.ParameterCalls | Assets/Scripts/RayMarch3DCompute.cs:94-97 | four calls; `_Light` is the forward vector with `positionLight` false for a directional light, and the position with `positionLight` true for any other |
| RayMarch.LightUniforms | Assets/Scripts/RayMarch3DCompute.cs:93-97 | a directional light sends its forward vector with positionLight false; any other light sends its position with positionLight true |
| RayMarch.SortByOperation | Assets/Scripts/RayMarch3DCompute.cs:44 | the array ends up ordered by operation ordinal and is a permutation of its old contents |
| RayMarch.InsertAt | Assets/Scripts/RayMarch3DCompute.cs:44 | one insertion step extends the sorted prefix by one and keeps the contents |
| RayMarch.WriteNumChildren | Assets/Scripts/RayMarch3DCompute.cs:54-59 | writing the expected numChildren on a newly emitted shape keeps the numChildren map in step with the emitted list |
| RayMarch.EmitGroups | Assets/Scripts/RayMarch3DCompute.cs:48-64 | the nested loops emit exactly the flattening of the sorted array; every emitted shape holds its written numChildren and every other shape keeps its stored value |
| RayMarch.EmitGroup | Assets/Scripts/RayMarch3DCompute.cs:50-61 | one top-level shape appends its group and sets its numChildren to its childCount |
| RayMarch.EmitChildren | Assets/Scripts/RayMarch3DCompute.cs:56-61 | the inner loop appends the Shape children in child order and sets each one's numChildren to 0 |
| RayMarch.PackShapes | Assets/Scripts/RayMarch3DCompute.cs:66-78 | the packing loop fills a new array with the records of the emitted shapes, in order |
| RayMarch.RayMarch3DCompute.Setup | Assets/Scripts/RayMarch3DCompute.cs:23-28 | the asset keeps the current camera and the light found, either of which may be missing |
| RayMarch.BuildShapeData | Assets/Scripts/RayMarch3DCompute.cs:43-78 | the found list sorted into a permutation ordered by operation, emitted as the flattening of that order with numChildren written, and packed into one record per emitted shape |
| RayMarch.RayMarch3DCompute.CreateScene | Assets/Scripts/RayMarch3DCompute.cs:42-86 | sorted permutation, emission = flattening, buffer of the packed records with 52-byte stride, `shapes` then `numShapes` = record count set on the shader, buffer appended to the dispose list, numChildren written |
| RayMarch.RayMarch3DCompute.SetParameters | Assets/Scripts/RayMarch3DCompute.cs:91-98 | a missing light, then a missing camera, fails before any call; otherwise the two matrices, `_Light` and `positionLight` are set in that order |
| RayMarch.RayMarch3DCompute.Render | Assets/Scripts/RayMarch3DCompute.cs:33-37 | a fresh dispose list holding exactly the new buffer; the scene calls come before the parameter calls; the outcome succeeds iff light and camera are present |
| Passes.GroupCount | Assets/Scripts/ComputePass.cs:54 | the group count g satisfies 8g <= extent < 8g + 8 |
| Passes.GroupCountExamples | Assets/Scripts/ComputePass.cs:54 | 1920 gives 240 and 1080 gives 135; 1921 still gives 240 |
| Passes.GroupCountLeavesPartialTile | Assets/Scripts/ComputePass.cs:54 | an extent that is not a multiple of 8 leaves its last extent % 8 pixels without a group |
| Passes.CompositeCommands | Assets/Scripts/ComputePass.cs:55-64 | one blit without a material, two with one; the last blit goes to the camera, from targetBuffer without a material and from convergedBuffer with one |
| Passes.PassCommands | Assets/Scripts/ComputePass.cs:48-64 | six commands then the compositing; the sixth is the dispatch over screen width / 8 by screen height / 8 groups; the last writes the camera |
| Passes.ActiveCommands | Assets/Scripts/ComputePass.cs:47-64 | the asset's Render comes first and only once, followed by the pass commands |
| Passes.CleanupCommands | Assets/Scripts/ComputePass.cs:78-80 | only releases, and each of the three temporaries is released |
| Passes.ActiveOrder | Assets/Scripts/ComputePass.cs:47-64 | Render first, the temporaries next, then the snapshot blit, then the bindings, then the single dispatch; only the last command writes the camera |
| Passes.TemporariesSizedToCamera | Assets/Scripts/ComputePass.cs:48-49 | both temporaries take the camera's pixel size; only targetBuffer allows random writes |
| Passes.BindingsOfTheKernel | Assets/Scripts/ComputePass.cs:52-54 | Destination is bound to targetBuffer and Source to temporaryBuffer, for the dispatched kernel, whose groups are the screen size divided by 8 |
| Passes.CompositingBranch | Assets/Scripts/ComputePass.cs:55-64 | without a material, one blit from target to camera; with one, target through the material into converged, then converged to camera |
| Passes.AcquiredBeforeUse | Assets/Scripts/ComputePass.cs:48-64 | without a material, every texture is acquired before it is used; with one, convergedBuffer is used but never acquired |
| Passes.CleanupReleasesAcquired | Assets/Scripts/ComputePass.cs:75-81 | the cleanup releases each of the three textures exactly once, covering every texture the pass acquires |
| Passes.ComputePass.constructor | Assets/Scripts/ComputePass.cs:18-25 | the pass keeps its tag, asset and event, with sample count 0 and no material, and sets up the asset |
| Passes.ComputePass.Active | Assets/Scripts/ComputePass.cs:29 | the pass does work only when the asset and its shader are both assigned |
| Passes.ComputePass.Execute | Assets/Scripts/ComputePass.cs:27-70 | with no asset or no shader, nothing is taken, uploaded or submitted and the asset is untouched; otherwise the camera and light are kept, the outcome succeeds iff both were present, the asset's dispose list is exactly a fresh buffer holding the packed flattening of a sorted permutation of the found shapes, the shader receives the scene calls then (on success) the parameter calls, the active trace is submitted and the buffer cleared and given back; a failing Render leaves the buffer lent and submits nothing |
| Passes.ComputePass.ExecuteActive | Assets/Scripts/ComputePass.cs:36-69 | the active path: the same outcome, upload, shader calls and submission as Execute, once the asset and shader are known |
| Passes.ComputePass.BeginPass | Assets/Scripts/ComputePass.cs:36-47 | a fresh lent buffer holding only the Render marker, with the asset's Render effects on the dispose list and the shader |
| Passes.ComputePass.RecordPass | Assets/Scripts/ComputePass.cs:48-64 | queues the temporaries, snapshot, bindings, dispatch and the compositing branch chosen by the material |
| Passes.ComputePass.OnCameraCleanup | Assets/Scripts/ComputePass.cs:75-81 | appends the releases of targetBuffer, convergedBuffer and temporaryBuffer |

## Left out

- MetaballRender2D (a separate 2D post-effect), ComputeFeature (render-feature glue with null guards only), RenderTextureManager (texture creation and camera wiring) and the empty virtuals of the abstract ComputeAsset: these are not part of this model; the pass holds the ray-marching asset directly.
- Unity's scene queries, component lookups and inactive objects: replaced by the immutable snapshot and the `found` list.
- Floating point: vectors, colours and blend strengths are reals; rounding and NaN are not modelled.
- Camera matrices and the projection inverse: opaque values passed through unchanged.
- GPU upload and kernel execution: buffer data and shader parameters are recorded, not executed. The byte layout of a record beyond its 52-byte stride is not modelled.
- RayMarch.ComputeBuffer.constructor: the engine's check that the count is positive is not modelled, so an empty scene gets a zero-length buffer.
- Disposal of the shape buffers: the dispose list is filled but never disposed, and no release guarantee is stated.
- RayMarch.SortByOperation: does not fix the order of shapes with equal operations, because List.Sort is not stable.
- RayMarch.RayMarch3DCompute.Render: does not return the numChildren values that CreateScene writes. CreateScene returns them.
- Passes.ComputePass.Execute: the shader is taken to have a CSMain kernel; the ArgumentException FindKernel throws for a missing kernel (after the buffer has been taken from the pool) is not modelled.
- Passes.ComputePass.Execute: the ProfilingScope begin/end samples and the Debug.Log message are not recorded. The depth, filter mode, format and other GetTemporaryRT arguments are not recorded either.
- Passes.CommandBufferPool.Get: always hands out a new buffer, not a pooled one.
- `currentSample` is set and never read. The `renderPassEvent` is stored but scheduling is not modelled.
- `Dispose` (Material.Destroy on the material) is not modelled.
