/** The render pass that runs the ray-marching asset (Assets/Scripts/ComputePass.cs).
    Every engine call the pass makes on a command buffer is recorded as an
    abstract command, so what the pass queues, in which order, is a sequence
    the lemmas below can talk about. */
module Passes {
  import opened Wrappers
  import Shapes
  import Flattening
  import RayMarch

  /** The three temporary textures the pass names by shader property id. */
  datatype TextureId = TemporaryBuffer | TargetBuffer | ConvergedBuffer

  /** A blit endpoint: a temporary texture or the camera's colour target. */
  datatype RenderTarget = Temp(id: TextureId) | CameraColor

  /** A material used for compositing, known by the shader it wraps. */
  datatype Material = Material(shaderName: string)

  /** One command queued on a command buffer. `RenderAsset` stands for the
      call of the asset's Render with the buffer; the ray-marching asset
      queues nothing itself but sets its shader's parameters at that point. */
  datatype Command =
    | RenderAsset(kernel: int)
    | GetTemporaryRT(id: TextureId, width: nat, height: nat, randomWrite: bool)
    | Blit(source: RenderTarget, dest: RenderTarget, material: Option<Material>)
    | SetComputeTextureParam(kernel: int, name: string, texture: TextureId)
    | DispatchCompute(kernel: int, groupsX: nat, groupsY: nat, groupsZ: nat)
    | ReleaseTemporaryRT(id: TextureId)

  /** The size of the screen in pixels (Unity's Screen.width/height). */
  datatype ScreenSize = ScreenSize(width: nat, height: nat)

  /** A command buffer: its name and the commands queued on it so far. */
  class CommandBuffer {
    const name: string
    var commands: seq<Command>

    constructor(name: string)
      ensures this.name == name && commands == []
    {
      this.name := name;
      commands := [];
    }

    method GetTemporaryRT(id: TextureId, width: nat, height: nat, randomWrite: bool)
      modifies this
      ensures commands == old(commands) + [Command.GetTemporaryRT(id, width, height, randomWrite)]
    {
      commands := commands + [Command.GetTemporaryRT(id, width, height, randomWrite)];
    }

    method Blit(source: RenderTarget, dest: RenderTarget, material: Option<Material>)
      modifies this
      ensures commands == old(commands) + [Command.Blit(source, dest, material)]
    {
      commands := commands + [Command.Blit(source, dest, material)];
    }

    method SetComputeTextureParam(kernel: int, name: string, texture: TextureId)
      modifies this
      ensures commands == old(commands) + [Command.SetComputeTextureParam(kernel, name, texture)]
    {
      commands := commands + [Command.SetComputeTextureParam(kernel, name, texture)];
    }

    method DispatchCompute(kernel: int, groupsX: nat, groupsY: nat, groupsZ: nat)
      modifies this
      ensures commands == old(commands) + [Command.DispatchCompute(kernel, groupsX, groupsY, groupsZ)]
    {
      commands := commands + [Command.DispatchCompute(kernel, groupsX, groupsY, groupsZ)];
    }

    method ReleaseTemporaryRT(id: TextureId)
      modifies this
      ensures commands == old(commands) + [Command.ReleaseTemporaryRT(id)]
    {
      commands := commands + [Command.ReleaseTemporaryRT(id)];
    }

    /** Marks the point where the asset's Render ran with this buffer. */
    method MarkAssetRendered(kernel: int)
      modifies this
      ensures commands == old(commands) + [RenderAsset(kernel)]
    {
      commands := commands + [RenderAsset(kernel)];
    }

    method Clear()
      modifies this
      ensures commands == []
    {
      commands := [];
    }
  }

  /** The engine's pool of command buffers; `lent` are the buffers handed
      out and not given back. */
  class CommandBufferPool {
    var lent: set<CommandBuffer>

    constructor()
      ensures lent == {}
    {
      lent := {};
    }

    method Get(name: string) returns (cmd: CommandBuffer)
      modifies this
      ensures fresh(cmd) && cmd.name == name && cmd.commands == []
      ensures lent == old(lent) + {cmd}
    {
      cmd := new CommandBuffer(name);
      lent := lent + {cmd};
    }

    method Release(cmd: CommandBuffer)
      requires cmd in lent
      modifies this
      ensures lent == old(lent) - {cmd}
    {
      lent := lent - {cmd};
    }
  }

  /** The render context: the commands submitted to the GPU so far. */
  class RenderContext {
    var submitted: seq<Command>

    constructor()
      ensures submitted == []
    {
      submitted := [];
    }

    /** ExecuteCommandBuffer copies the buffer's commands; the buffer itself
        is left as it is. */
    method ExecuteCommandBuffer(cmd: CommandBuffer)
      modifies this
      ensures submitted == old(submitted) + cmd.commands
    {
      submitted := submitted + cmd.commands;
    }
  }

  /** The thread-group count along one screen axis: the extent divided by
      the 8-pixel group width with integer division, so a partial last tile
      gets no group (the ceiling is taken after the division). */
  function GroupCount(extent: nat): (groups: nat)
    ensures 8 * groups <= extent < 8 * groups + 8
  {
    extent / 8
  }

  /** 1920 x 1080 gives 240 x 135 groups; one pixel more still gives 240. */
  lemma GroupCountExamples()
    ensures GroupCount(1920) == 240 && GroupCount(1080) == 135
    ensures GroupCount(1921) == 240
  {
  }

  /** When the extent is not a multiple of 8 the groups cover strictly less
      than the screen: the last extent % 8 pixels get no thread. */
  lemma GroupCountLeavesPartialTile(extent: nat)
    requires extent % 8 != 0
    ensures 8 * GroupCount(extent) == extent - extent % 8 < extent
  {
  }

  /** The compositing commands: straight from the target to the camera, or
      through the material into the converged buffer and from there to the
      camera. */
  function CompositeCommands(addMaterial: Option<Material>): (cmds: seq<Command>)
    ensures |cmds| == (if addMaterial.None? then 1 else 2)
    ensures cmds[|cmds| - 1] == Blit(Temp(if addMaterial.None? then TargetBuffer else ConvergedBuffer), CameraColor, None)
  {
    if addMaterial.None? then
      [Blit(Temp(TargetBuffer), CameraColor, None)]
    else
      [Blit(Temp(TargetBuffer), Temp(ConvergedBuffer), addMaterial),
       Blit(Temp(ConvergedBuffer), CameraColor, None)]
  }

  /** The commands Execute queues after the asset has rendered: the two
      temporaries, the snapshot, the bindings, the dispatch, the compositing. */
  function PassCommands(kernel: int, camera: RayMarch.Camera, screen: ScreenSize,
                        addMaterial: Option<Material>): (cmds: seq<Command>)
    ensures |cmds| == 6 + |CompositeCommands(addMaterial)|
    ensures cmds[5] == DispatchCompute(kernel, screen.width / 8, screen.height / 8, 1)
    ensures cmds[|cmds| - 1].Blit? && cmds[|cmds| - 1].dest == CameraColor
  {
    [GetTemporaryRT(TemporaryBuffer, camera.pixelWidth, camera.pixelHeight, false),
     GetTemporaryRT(TargetBuffer, camera.pixelWidth, camera.pixelHeight, true),
     Blit(CameraColor, Temp(TemporaryBuffer), None),
     SetComputeTextureParam(kernel, "Destination", TargetBuffer),
     SetComputeTextureParam(kernel, "Source", TemporaryBuffer),
     DispatchCompute(kernel, GroupCount(screen.width), GroupCount(screen.height), 1)]
    + CompositeCommands(addMaterial)
  }

  /** The commands Execute queues on its active path. */
  function ActiveCommands(kernel: int, camera: RayMarch.Camera, screen: ScreenSize,
                          addMaterial: Option<Material>): (cmds: seq<Command>)
    ensures |cmds| == 7 + |CompositeCommands(addMaterial)|
    ensures cmds[0] == RenderAsset(kernel)
    ensures forall p :: 0 <= p < |cmds| && cmds[p].RenderAsset? ==> p == 0
  {
    [RenderAsset(kernel)] + PassCommands(kernel, camera, screen, addMaterial)
  }

  /** The commands OnCameraCleanup queues. */
  function CleanupCommands(): (cmds: seq<Command>)
    ensures forall c :: c in cmds ==> c.ReleaseTemporaryRT?
    ensures ReleaseTemporaryRT(TargetBuffer) in cmds && ReleaseTemporaryRT(ConvergedBuffer) in cmds
    ensures ReleaseTemporaryRT(TemporaryBuffer) in cmds
  {
    [ReleaseTemporaryRT(TargetBuffer),
     ReleaseTemporaryRT(ConvergedBuffer),
     ReleaseTemporaryRT(TemporaryBuffer)]
  }

  /** The command allocates texture id. */
  predicate Acquires(c: Command, id: TextureId)
  {
    c.GetTemporaryRT? && c.id == id
  }

  /** The command reads or writes texture id. */
  predicate Uses(c: Command, id: TextureId)
  {
    (c.Blit? && (c.source == Temp(id) || c.dest == Temp(id))) ||
    (c.SetComputeTextureParam? && c.texture == id)
  }

  /** Commands that write to the camera's colour target. */
  predicate WritesCamera(c: Command)
  {
    c.Blit? && c.dest == CameraColor
  }

  /** Index of the dispatch in the active trace. */
  const DispatchIndex: nat := 6

  /** The recording order: Render first, then the two temporaries, the
      snapshot of the camera colour into temporaryBuffer, the bindings, the
      single dispatch, and the compositing after it. */
  lemma ActiveOrder(kernel: int, camera: RayMarch.Camera, screen: ScreenSize, m: Option<Material>)
    ensures var tr := ActiveCommands(kernel, camera, screen, m);
      DispatchIndex < |tr| && tr[0] == RenderAsset(kernel) &&
      tr[DispatchIndex].DispatchCompute? &&
      (forall p :: 0 <= p < |tr| && tr[p].DispatchCompute? ==> p == DispatchIndex) &&
      (forall p :: 0 <= p < |tr| && tr[p].GetTemporaryRT? ==> 0 < p < 3) &&
      (forall p :: 0 <= p < |tr| && tr[p].SetComputeTextureParam? ==> 3 < p < DispatchIndex) &&
      (forall p :: 0 <= p < |tr| && WritesCamera(tr[p]) ==> p == |tr| - 1) &&
      WritesCamera(tr[|tr| - 1]) &&
      tr[3] == Blit(CameraColor, Temp(TemporaryBuffer), None)
  {
  }

  /** Both temporaries take the camera's pixel size, and only targetBuffer,
      the one the kernel writes, allows random writes. */
  lemma TemporariesSizedToCamera(kernel: int, camera: RayMarch.Camera, screen: ScreenSize, m: Option<Material>)
    ensures var tr := ActiveCommands(kernel, camera, screen, m);
      forall p :: 0 <= p < |tr| && tr[p].GetTemporaryRT? ==>
        tr[p].width == camera.pixelWidth && tr[p].height == camera.pixelHeight &&
        (tr[p].randomWrite <==> tr[p].id == TargetBuffer)
  {
  }

  /** The kernel writes "Destination" = targetBuffer and reads "Source" =
      temporaryBuffer; each name is bound once, for the dispatched kernel. */
  lemma BindingsOfTheKernel(kernel: int, camera: RayMarch.Camera, screen: ScreenSize, m: Option<Material>)
    ensures var tr := ActiveCommands(kernel, camera, screen, m);
      (forall p :: 0 <= p < |tr| && tr[p].SetComputeTextureParam? ==>
        tr[p].kernel == kernel &&
        (tr[p].name == "Destination" || tr[p].name == "Source") &&
        (tr[p].name == "Destination" ==> tr[p].texture == TargetBuffer) &&
        (tr[p].name == "Source" ==> tr[p].texture == TemporaryBuffer)) &&
      SetComputeTextureParam(kernel, "Destination", TargetBuffer) in tr &&
      SetComputeTextureParam(kernel, "Source", TemporaryBuffer) in tr &&
      tr[DispatchIndex] == DispatchCompute(kernel, GroupCount(screen.width), GroupCount(screen.height), 1)
  {
  }

  /** Without a material the one compositing blit copies targetBuffer to the
      camera; with one, targetBuffer goes through the material into
      convergedBuffer, which is then copied to the camera. */
  lemma CompositingBranch(kernel: int, camera: RayMarch.Camera, screen: ScreenSize, m: Option<Material>)
    ensures var tr := ActiveCommands(kernel, camera, screen, m);
      m.None? ==>
        |tr| == DispatchIndex + 2 &&
        tr[DispatchIndex + 1] == Blit(Temp(TargetBuffer), CameraColor, None)
    ensures var tr := ActiveCommands(kernel, camera, screen, m);
      m.Some? ==>
        |tr| == DispatchIndex + 3 &&
        tr[DispatchIndex + 1] == Blit(Temp(TargetBuffer), Temp(ConvergedBuffer), m) &&
        tr[DispatchIndex + 2] == Blit(Temp(ConvergedBuffer), CameraColor, None)
  {
  }

  /** Without a material every texture is acquired before any command uses
      it; with one, convergedBuffer is used but never acquired. */
  lemma AcquiredBeforeUse(kernel: int, camera: RayMarch.Camera, screen: ScreenSize, m: Option<Material>)
    ensures var tr := ActiveCommands(kernel, camera, screen, m);
      m.None? ==>
        forall p, id :: 0 <= p < |tr| && Uses(tr[p], id) ==>
          exists q :: 0 <= q < p && Acquires(tr[q], id)
    ensures var tr := ActiveCommands(kernel, camera, screen, m);
      m.Some? ==>
        (exists p :: 0 <= p < |tr| && Uses(tr[p], ConvergedBuffer)) &&
        (forall q :: 0 <= q < |tr| ==> !Acquires(tr[q], ConvergedBuffer))
  {
    var tr := ActiveCommands(kernel, camera, screen, m);
    if m.None? {
      forall p, id | 0 <= p < |tr| && Uses(tr[p], id)
        ensures exists q :: 0 <= q < p && Acquires(tr[q], id)
      {
        if id == TemporaryBuffer {
          assert Acquires(tr[1], id);
        } else {
          assert Acquires(tr[2], id);
        }
      }
    } else {
      assert Uses(tr[DispatchIndex + 1], ConvergedBuffer);
    }
  }

  /** The cleanup releases each of the three textures exactly once, so every
      texture the active path acquires is released. */
  lemma CleanupReleasesAcquired(kernel: int, camera: RayMarch.Camera, screen: ScreenSize, m: Option<Material>)
    ensures forall id: TextureId ::
      |set p | 0 <= p < |CleanupCommands()| && CleanupCommands()[p] == ReleaseTemporaryRT(id)| == 1
    ensures var tr := ActiveCommands(kernel, camera, screen, m);
      forall p, id :: 0 <= p < |tr| && Acquires(tr[p], id) ==>
        ReleaseTemporaryRT(id) in CleanupCommands()
  {
    forall id: TextureId
      ensures |set p | 0 <= p < |CleanupCommands()| && CleanupCommands()[p] == ReleaseTemporaryRT(id)| == 1
    {
      var k := if id == TargetBuffer then 0 else if id == ConvergedBuffer then 1 else 2;
      assert (set p | 0 <= p < |CleanupCommands()| && CleanupCommands()[p] == ReleaseTemporaryRT(id)) == {k};
    }
  }

  /** What the pass is configured with (ComputeFeature.ComputeSettings). */
  datatype ComputeSettings = ComputeSettings(passEvent: int, computeAsset: RayMarch.RayMarch3DCompute?)

  class ComputePass {
    const profilerTag: string
    var computeAsset: RayMarch.RayMarch3DCompute?
    var addMaterial: Option<Material>
    var currentSample: int
    var renderPassEvent: int

    /** The pass keeps the asset and its event, and sets the asset up with
        the current camera and the light found in the scene. No material is
        ever assigned. */
    constructor(profilerTag: string, settings: ComputeSettings,
                current: Option<RayMarch.Camera>, light: Option<RayMarch.Light>)
      requires settings.computeAsset != null
      modifies settings.computeAsset
      ensures this.profilerTag == profilerTag && computeAsset == settings.computeAsset
      ensures renderPassEvent == settings.passEvent && currentSample == 0 && addMaterial.None?
      ensures computeAsset.cam == current && computeAsset.lightSource == light
      ensures computeAsset.shader == old(settings.computeAsset.shader)
      ensures computeAsset.buffersToDispose == old(settings.computeAsset.buffersToDispose)
    {
      this.profilerTag := profilerTag;
      computeAsset := settings.computeAsset;
      renderPassEvent := settings.passEvent;
      currentSample := 0;
      addMaterial := None;
      new;
      computeAsset.Setup(current, light);
    }

    /** The asset and its shader are both assigned. */
    predicate Active()
      reads this, computeAsset
    {
      computeAsset != null && computeAsset.shader != null
    }

    /** Execute: does nothing without an asset or shader. Otherwise takes a
        command buffer, lets the asset render, queues the temporaries, the
        snapshot, the bindings, the dispatch and the compositing, submits the
        buffer, clears it and gives it back. When the asset's Render fails on
        a missing light or camera, the failure leaves Execute before the
        submission: nothing is submitted and the buffer stays lent.
        `shapeBuffer` is the buffer the asset's Render uploaded and `ordered`
        the emission order it packed. */
    method Execute(context: RenderContext, pool: CommandBufferPool, camera: RayMarch.Camera,
                   screen: ScreenSize, scene: Shapes.Scene, found: seq<nat>)
      returns (outcome: Outcome<RayMarch.RenderError>, cmd: CommandBuffer?,
               shapeBuffer: RayMarch.ComputeBuffer?, ghost ordered: seq<nat>)
      requires Shapes.WellFormed(scene) && Flattening.IsShapeList(scene, found)
      modifies context, pool, if Active() then {computeAsset, computeAsset.shader} else {}
      ensures !old(Active()) ==>
        outcome == Pass && cmd == null && shapeBuffer == null &&
        context.submitted == old(context.submitted) && pool.lent == old(pool.lent)
      ensures old(Active()) ==>
        Active() && computeAsset.shader == old(computeAsset.shader) &&
        computeAsset.cam == old(computeAsset.cam) &&
        computeAsset.lightSource == old(computeAsset.lightSource) &&
        cmd != null && fresh(cmd) && cmd.name == profilerTag &&
        (outcome.Pass? <==> old(computeAsset.lightSource).Some? && old(computeAsset.cam).Some?)
      ensures old(Active()) ==>
        (exists sorted: seq<nat> :: Flattening.IsShapeList(scene, sorted) &&
           Flattening.SortedByOperation(scene, sorted) &&
           multiset(sorted) == multiset(found) && ordered == Flattening.Flatten(scene, sorted)) &&
        shapeBuffer != null && fresh(shapeBuffer) &&
        computeAsset.buffersToDispose == [shapeBuffer] &&
        shapeBuffer.data == RayMarch.PackAll(scene, ordered) &&
        shapeBuffer.count == |ordered| && shapeBuffer.stride == RayMarch.GetSize()
      ensures old(Active()) ==>
        computeAsset.shader.calls == old(computeAsset.shader.calls) +
          RayMarch.SceneCalls(shapeBuffer, |ordered|) +
          (if outcome.Pass?
           then RayMarch.ParameterCalls(computeAsset.cam.value, computeAsset.lightSource.value)
           else [])
      ensures old(Active()) && outcome.Fail? ==>
        cmd.commands == [RenderAsset(computeAsset.shader.csMainKernel)] &&
        context.submitted == old(context.submitted) &&
        pool.lent == old(pool.lent) + {cmd}
      ensures old(Active()) && outcome.Pass? ==>
        context.submitted == old(context.submitted) +
          ActiveCommands(computeAsset.shader.csMainKernel, camera, screen, addMaterial) &&
        cmd.commands == [] && pool.lent == old(pool.lent)
    {
      if computeAsset == null || computeAsset.shader == null {
        return Pass, null, null, [];
      }
      outcome, cmd, shapeBuffer, ordered := ExecuteActive(context, pool, camera, screen, scene, found);
    }

    /** The active path of Execute, once the asset and its shader are known. */
    method ExecuteActive(context: RenderContext, pool: CommandBufferPool, camera: RayMarch.Camera,
                         screen: ScreenSize, scene: Shapes.Scene, found: seq<nat>)
      returns (outcome: Outcome<RayMarch.RenderError>, cmd: CommandBuffer,
               shapeBuffer: RayMarch.ComputeBuffer, ghost ordered: seq<nat>)
      requires Shapes.WellFormed(scene) && Flattening.IsShapeList(scene, found)
      requires Active()
      modifies context, pool, computeAsset, computeAsset.shader
      ensures computeAsset.shader == old(computeAsset.shader)
      ensures computeAsset.cam == old(computeAsset.cam)
      ensures computeAsset.lightSource == old(computeAsset.lightSource)
      ensures fresh(cmd) && cmd.name == profilerTag
      ensures outcome.Pass? <==> computeAsset.lightSource.Some? && computeAsset.cam.Some?
      ensures exists sorted: seq<nat> ::
        Flattening.IsShapeList(scene, sorted) &&
        Flattening.SortedByOperation(scene, sorted) &&
        multiset(sorted) == multiset(found) && ordered == Flattening.Flatten(scene, sorted)
      ensures fresh(shapeBuffer) && computeAsset.buffersToDispose == [shapeBuffer]
      ensures shapeBuffer.data == RayMarch.PackAll(scene, ordered)
      ensures shapeBuffer.count == |ordered| && shapeBuffer.stride == RayMarch.GetSize()
      ensures computeAsset.shader.calls == old(computeAsset.shader.calls) +
        RayMarch.SceneCalls(shapeBuffer, |ordered|) +
        (if outcome.Pass?
         then RayMarch.ParameterCalls(computeAsset.cam.value, computeAsset.lightSource.value)
         else [])
      ensures outcome.Fail? ==>
        cmd.commands == [RenderAsset(computeAsset.shader.csMainKernel)] &&
        context.submitted == old(context.submitted) &&
        pool.lent == old(pool.lent) + {cmd}
      ensures outcome.Pass? ==>
        context.submitted == old(context.submitted) +
          ActiveCommands(computeAsset.shader.csMainKernel, camera, screen, addMaterial) &&
        cmd.commands == [] && pool.lent == old(pool.lent)
    {
      outcome, cmd, shapeBuffer, ordered := BeginPass(pool, scene, found);
      if outcome.Fail? {
        return;
      }
      var kernelHandle := computeAsset.shader.csMainKernel;
      RecordPass(cmd, kernelHandle, camera, screen);

      context.ExecuteCommandBuffer(cmd);
      cmd.Clear();
      pool.Release(cmd);
    }

    /** The start of the active path: a command buffer from the pool, then the
        asset renders (its scene upload and parameters go to the shader at
        once; the buffer only records where that happened). */
    method BeginPass(pool: CommandBufferPool, scene: Shapes.Scene, found: seq<nat>)
      returns (outcome: Outcome<RayMarch.RenderError>, cmd: CommandBuffer,
               shapeBuffer: RayMarch.ComputeBuffer, ghost ordered: seq<nat>)
      requires Shapes.WellFormed(scene) && Flattening.IsShapeList(scene, found)
      requires Active()
      modifies pool, computeAsset, computeAsset.shader
      ensures computeAsset.shader == old(computeAsset.shader)
      ensures computeAsset.cam == old(computeAsset.cam)
      ensures computeAsset.lightSource == old(computeAsset.lightSource)
      ensures fresh(cmd) && cmd.name == profilerTag
      ensures cmd.commands == [RenderAsset(computeAsset.shader.csMainKernel)]
      ensures pool.lent == old(pool.lent) + {cmd}
      ensures outcome.Pass? <==> computeAsset.lightSource.Some? && computeAsset.cam.Some?
      ensures exists sorted: seq<nat> ::
        Flattening.IsShapeList(scene, sorted) &&
        Flattening.SortedByOperation(scene, sorted) &&
        multiset(sorted) == multiset(found) && ordered == Flattening.Flatten(scene, sorted)
      ensures fresh(shapeBuffer) && computeAsset.buffersToDispose == [shapeBuffer]
      ensures shapeBuffer.data == RayMarch.PackAll(scene, ordered)
      ensures shapeBuffer.count == |ordered| && shapeBuffer.stride == RayMarch.GetSize()
      ensures computeAsset.shader.calls == old(computeAsset.shader.calls) +
        RayMarch.SceneCalls(shapeBuffer, |ordered|) +
        (if outcome.Pass?
         then RayMarch.ParameterCalls(computeAsset.cam.value, computeAsset.lightSource.value)
         else [])
    {
      cmd := pool.Get(profilerTag);
      cmd.MarkAssetRendered(computeAsset.shader.csMainKernel);
      outcome, ordered, shapeBuffer := computeAsset.Render(scene, found);
    }

    /** The commands queued inside the profiling scope once the asset has
        rendered; the compositing depends on whether a material is set. */
    method RecordPass(cmd: CommandBuffer, kernelHandle: int, camera: RayMarch.Camera, screen: ScreenSize)
      modifies cmd
      ensures cmd.commands == old(cmd.commands) + PassCommands(kernelHandle, camera, screen, addMaterial)
    {
      cmd.GetTemporaryRT(TemporaryBuffer, camera.pixelWidth, camera.pixelHeight, false);
      cmd.GetTemporaryRT(TargetBuffer, camera.pixelWidth, camera.pixelHeight, true);
      cmd.Blit(CameraColor, Temp(TemporaryBuffer), None);
      cmd.SetComputeTextureParam(kernelHandle, "Destination", TargetBuffer);
      cmd.SetComputeTextureParam(kernelHandle, "Source", TemporaryBuffer);
      cmd.DispatchCompute(kernelHandle, GroupCount(screen.width), GroupCount(screen.height), 1);
      if addMaterial.None? {
        cmd.Blit(Temp(TargetBuffer), CameraColor, None);
      } else {
        cmd.Blit(Temp(TargetBuffer), Temp(ConvergedBuffer), addMaterial);
        cmd.Blit(Temp(ConvergedBuffer), CameraColor, None);
      }
    }

    /** OnCameraCleanup: queues the release of the three temporaries. */
    method OnCameraCleanup(cmd: CommandBuffer)
      modifies cmd
      ensures cmd.commands == old(cmd.commands) + CleanupCommands()
    {
      cmd.ReleaseTemporaryRT(TargetBuffer);
      cmd.ReleaseTemporaryRT(ConvergedBuffer);
      cmd.ReleaseTemporaryRT(TemporaryBuffer);
    }
  }
}
