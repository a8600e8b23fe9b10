/**
 * SSAORenderSystem: the descriptor set layouts, pool and sets of the SSAO
 * and blur passes, the three pipelines (G-buffer, SSAO, blur) with their
 * layouts, and the commands that begin, draw and end the three offscreen
 * passes. The camera matrices pushed as constants are not modelled.
 */
module SSAORenderSystem {
  import opened VkTypes
  import Device
  import Pipeline
  import Mesh
  import Model
  import GBuffer
  import SSAO

  /** SSAO set: gPosition, gNormal and texNoise samplers, then the kernel uniform buffer. */
  const SSAO_SET_LAYOUT: seq<LayoutBinding> := [
    LayoutBinding(0, CombinedImageSampler, 1),
    LayoutBinding(1, CombinedImageSampler, 1),
    LayoutBinding(2, CombinedImageSampler, 1),
    LayoutBinding(3, UniformBuffer, 1)]

  /** Blur set: the SSAO input sampler. */
  const BLUR_SET_LAYOUT: seq<LayoutBinding> := [LayoutBinding(0, CombinedImageSampler, 1)]

  const POOL_SIZES: seq<PoolSize> := [PoolSize(CombinedImageSampler, 5), PoolSize(UniformBuffer, 1)]
  /** One SSAO set and one blur set. */
  const POOL_MAX_SETS: nat := 2

  /** sizeof(GBufferPushConstants): three mat4 (modelView, projection, normalMat). */
  const GBUFFER_PUSH_BYTES: nat := 3 * 64
  /** sizeof(SSAOPushConstants): a mat4, a vec2, two floats and an int, packed on 4 bytes. */
  const SSAO_PUSH_BYTES: nat := 64 + 8 + 4 + 4 + 4

  /** The SSAO set's writes: position, normal, noise, then the kernel buffer, at bindings 0 to 3. */
  function SSAOWrites(dset: Handle, position: ImageInfo, normal: ImageInfo, noise: ImageInfo,
                      kernel: BufferInfo): seq<DescriptorWrite>
  {
    [DescriptorWrite(dset, 0, 0, CombinedImageSampler, 1, ImagePayload([position])),
     DescriptorWrite(dset, 1, 0, CombinedImageSampler, 1, ImagePayload([normal])),
     DescriptorWrite(dset, 2, 0, CombinedImageSampler, 1, ImagePayload([noise])),
     DescriptorWrite(dset, 3, 0, UniformBuffer, 1, BufferPayload(kernel))]
  }

  /** The blur set's one write, at binding 0. */
  function BlurWrites(dset: Handle, input: ImageInfo): seq<DescriptorWrite>
  {
    [DescriptorWrite(dset, 0, 0, CombinedImageSampler, 1, ImagePayload([input]))]
  }

  /**
   * The four SSAO writes land one per binding of the SSAO layout, in the
   * layout's order, each with its binding's type and count, on the SSAO set.
   */
  lemma SSAOWritesMatchLayout(dset: Handle, position: ImageInfo, normal: ImageInfo, noise: ImageInfo,
                              kernel: BufferInfo)
    ensures var ws := SSAOWrites(dset, position, normal, noise, kernel);
      WritesFit(ws, SSAO_SET_LAYOUT)
      && |ws| == |SSAO_SET_LAYOUT|
      && (forall k :: 0 <= k < |ws| ==>
            ws[k].dstSet == dset && ws[k].binding == SSAO_SET_LAYOUT[k].binding
            && ws[k].kind == SSAO_SET_LAYOUT[k].kind && ws[k].count == SSAO_SET_LAYOUT[k].count
            && ws[k].arrayElement == 0)
  {
    var ws := SSAOWrites(dset, position, normal, noise, kernel);
    forall k | 0 <= k < |ws|
      ensures WriteFits(ws[k], SSAO_SET_LAYOUT)
    {
      assert SSAO_SET_LAYOUT[k].binding == ws[k].binding;
    }
  }

  /** The blur write fits the blur layout and binds exactly the image it is given. */
  lemma BlurWriteMatchesLayout(dset: Handle, input: ImageInfo)
    ensures WritesFit(BlurWrites(dset, input), BLUR_SET_LAYOUT)
    ensures BlurWrites(dset, input)[0].payload == ImagePayload([input])
  {
    assert WriteFits(BlurWrites(dset, input)[0], BLUR_SET_LAYOUT) by {
      assert BLUR_SET_LAYOUT[0].binding == 0;
    }
  }

  /**
   * The pool holds 5 combined image samplers and 1 uniform buffer in at
   * most 2 sets; the two sets allocated from it need 3 + 1 samplers and
   * 1 uniform buffer, and the writes fill no more than that.
   */
  lemma PoolCoversSets(sset: Handle, bset: Handle, position: ImageInfo, normal: ImageInfo, noise: ImageInfo,
                       kernel: BufferInfo, input: ImageInfo, t: DescriptorType)
    ensures LayoutDemand(SSAO_SET_LAYOUT, t) + LayoutDemand(BLUR_SET_LAYOUT, t) <= PoolCount(POOL_SIZES, t)
    ensures WriteDemand(SSAOWrites(sset, position, normal, noise, kernel) + BlurWrites(bset, input), t)
      == LayoutDemand(SSAO_SET_LAYOUT, t) + LayoutDemand(BLUR_SET_LAYOUT, t)
    ensures PoolCount(POOL_SIZES, CombinedImageSampler) == 5 && PoolCount(POOL_SIZES, UniformBuffer) == 1
    ensures LayoutDemand(SSAO_SET_LAYOUT, CombinedImageSampler) + LayoutDemand(BLUR_SET_LAYOUT, CombinedImageSampler) == 4
    ensures 2 <= POOL_MAX_SETS
  {
    var ws := SSAOWrites(sset, position, normal, noise, kernel);
    var bs := BlurWrites(bset, input);
    SSAOWritesMatchLayout(sset, position, normal, noise, kernel);
    WritesFillLayout(ws, SSAO_SET_LAYOUT, t);
    WritesFillLayout(bs, BLUR_SET_LAYOUT, t);
    WriteDemandAppend(ws, bs, t);
    DemandsOfConstants(t);
    DemandsOfConstants(CombinedImageSampler);
    DemandsOfConstants(UniformBuffer);
  }

  /** Writes that match a layout binding for binding fill exactly what a set of that layout holds. */
  lemma {:induction false} WritesFillLayout(ws: seq<DescriptorWrite>, layout: seq<LayoutBinding>, t: DescriptorType)
    requires |ws| == |layout|
    requires forall k :: 0 <= k < |ws| ==> ws[k].kind == layout[k].kind && ws[k].count == layout[k].count
    ensures WriteDemand(ws, t) == LayoutDemand(layout, t)
  {
    if ws != [] {
      WritesFillLayout(ws[1..], layout[1..], t);
    }
  }

  /** The pool's capacity and each layout's demand, per descriptor type. */
  lemma DemandsOfConstants(t: DescriptorType)
    ensures PoolCount(POOL_SIZES, t) == (if t == CombinedImageSampler then 5 else 0) + (if t == UniformBuffer then 1 else 0)
    ensures LayoutDemand(SSAO_SET_LAYOUT, t) == (if t == CombinedImageSampler then 3 else 0) + (if t == UniformBuffer then 1 else 0)
    ensures LayoutDemand(BLUR_SET_LAYOUT, t) == (if t == CombinedImageSampler then 1 else 0)
  {
    var p := POOL_SIZES;
    assert p[1..][1..] == [];
    assert PoolCount(p[1..], t) == (if t == UniformBuffer then 1 else 0);
    var l := SSAO_SET_LAYOUT;
    assert l[1..][1..][1..][1..] == [];
    assert LayoutDemand(l[1..][1..][1..], t) == (if t == UniformBuffer then 1 else 0);
    assert LayoutDemand(l[1..][1..], t) == (if t == CombinedImageSampler then 1 else 0) + LayoutDemand(l[1..][1..][1..], t);
    assert LayoutDemand(l[1..], t) == (if t == CombinedImageSampler then 1 else 0) + LayoutDemand(l[1..][1..], t);
    assert BLUR_SET_LAYOUT[1..] == [];
  }

  /** The G-buffer pass clears position and normal to zero and depth to the far plane. */
  const GBUFFER_CLEARS: seq<ClearValue> :=
    [ClearColor(Vec4(0.0, 0.0, 0.0, 0.0)), ClearColor(Vec4(0.0, 0.0, 0.0, 0.0)), ClearDepth(1.0, 0)]

  /** The SSAO and blur passes clear to 1, no occlusion. */
  const OCCLUSION_CLEARS: seq<ClearValue> := [ClearColor(Vec4(1.0, 1.0, 1.0, 1.0))]

  /**
   * One clear value per attachment of each pass: zero for the G-buffer's
   * colour attachments, depth 1.0 with stencil 0 for its depth attachment,
   * and full (no occlusion) for the SSAO and blur targets.
   */
  lemma ClearsMatchAttachments(depthFormat: Format)
    ensures var rp := GBuffer.GBufferRenderPass(depthFormat);
      |GBUFFER_CLEARS| == |rp.attachments|
      && (forall k :: 0 <= k < |rp.colorRefs| ==> GBUFFER_CLEARS[rp.colorRefs[k]] == ClearColor(Vec4(0.0, 0.0, 0.0, 0.0)))
      && rp.depthRef.Some? && GBUFFER_CLEARS[rp.depthRef.value] == ClearDepth(1.0, 0)
    ensures |OCCLUSION_CLEARS| == |SSAO.SSAO_RENDER_PASS.attachments| == |SSAO.BLUR_RENDER_PASS.attachments|
    ensures forall k :: 0 <= k < |OCCLUSION_CLEARS| ==> OCCLUSION_CLEARS[k] == ClearColor(Vec4(1.0, 1.0, 1.0, 1.0))
  {
  }

  /**
   * The G-buffer pipeline's config: the defaults, with the attachment
   * vector resized to two entries that both write all channels without
   * blending, and the colour blend state pointing at both.
   */
  function GBufferConfig(layout: Handle, renderPass: Handle): Pipeline.PipelineConfig
  {
    var c := Pipeline.DefaultPipelineConfigInfo(Pipeline.FRESH_CONFIG, false);
    var resized := c.colorBlendAttachments + seq(2 - |c.colorBlendAttachments|, _ => Pipeline.BlendAttachment({}, false));
    var first := resized[0 := Pipeline.BlendAttachment(Pipeline.RGBA, false)];
    var both := first[1 := first[0]];
    c.(colorBlendAttachments := both, blendAttachmentCount := 2, blendSource := Pipeline.AttachmentVector,
       renderPass := renderPass, pipelineLayout := layout)
  }

  /** The SSAO and blur pipelines' config: the defaults, no vertex input, no depth test or write. */
  function FullscreenConfig(layout: Handle, renderPass: Handle): Pipeline.PipelineConfig
  {
    var c := Pipeline.DefaultPipelineConfigInfo(Pipeline.FRESH_CONFIG, false);
    c.(bindingDescriptions := [], attributeDescriptions := [], depthTest := false, depthWrite := false,
       renderPass := renderPass, pipelineLayout := layout)
  }

  /**
   * Each pipeline blends exactly as many attachments as its render pass has
   * colour attachments, all without blending; the G-buffer pipeline tests
   * and writes depth, the full-screen ones do neither; all three draw
   * triangle lists and, their vertex lists being empty, get the Vertex layout.
   */
  lemma ConfigsMatchPasses(layout: Handle, renderPass: Handle, depthFormat: Format)
    ensures var g := GBufferConfig(layout, renderPass);
      Pipeline.BlendAttachments(g) == [Pipeline.BlendAttachment(Pipeline.RGBA, false), Pipeline.BlendAttachment(Pipeline.RGBA, false)]
      && |Pipeline.BlendAttachments(g)| == |GBuffer.GBufferRenderPass(depthFormat).colorRefs|
      && g.depthTest && g.depthWrite && g.depthCompare == Pipeline.Less
      && g.topology == Pipeline.TriangleList
      && g.pipelineLayout == layout && g.renderPass == renderPass
      && Pipeline.VertexInputFor(g, Mesh.VERTEX_BINDINGS, Mesh.VERTEX_ATTRIBUTES) == (Mesh.VERTEX_BINDINGS, Mesh.VERTEX_ATTRIBUTES)
    ensures var f := FullscreenConfig(layout, renderPass);
      Pipeline.BlendAttachments(f) == [Pipeline.BlendAttachment(Pipeline.RGBA, false)]
      && |Pipeline.BlendAttachments(f)| == |SSAO.SSAO_RENDER_PASS.colorRefs|
      && !f.depthTest && !f.depthWrite
      && f.topology == Pipeline.TriangleList
      && f.pipelineLayout == layout && f.renderPass == renderPass
      && Pipeline.VertexInputFor(f, Mesh.VERTEX_BINDINGS, Mesh.VERTEX_ATTRIBUTES) == (Mesh.VERTEX_BINDINGS, Mesh.VERTEX_ATTRIBUTES)
  {
    var g := GBufferConfig(layout, renderPass);
    assert g.colorBlendAttachments[..2] == g.colorBlendAttachments;
    Pipeline.ClearedConfigUsesVertexLayout(g);
    Pipeline.ClearedConfigUsesVertexLayout(FullscreenConfig(layout, renderPass));
  }

  /** Creation of a set layout, a pool, a set or a pipeline layout. */
  method NewSetLayout(device: Device.FrgDevice, bindings: seq<LayoutBinding>) returns (h: Handle)
    modifies device`calls, device`nextHandle
    ensures h.Live? && device.calls == old(device.calls) + [Device.CreateSetLayout(h, bindings)]
  {
    h := device.NewHandle();
    device.Record(Device.CreateSetLayout(h, bindings));
  }

  method NewPipelineLayout(device: Device.FrgDevice, setLayouts: seq<Handle>, pushBytes: nat) returns (h: Handle)
    modifies device`calls, device`nextHandle
    ensures h.Live? && device.calls == old(device.calls) + [Device.CreatePipelineLayout(h, setLayouts, pushBytes)]
  {
    h := device.NewHandle();
    device.Record(Device.CreatePipelineLayout(h, setLayouts, pushBytes));
  }

  /** What createDescriptorSetLayouts, createDescriptorPool and createDescriptorSets ask of the driver. */
  function DescriptorCalls(ssaoSetLayout: Handle, blurSetLayout: Handle, pool: Handle, ssaoSet: Handle, blurSet: Handle,
                           gbuffer: GBuffer.FrgGBuffer, ssao: SSAO.FrgSSAO): seq<Device.DeviceCall>
    reads gbuffer, ssao
  {
    [Device.CreateSetLayout(ssaoSetLayout, SSAO_SET_LAYOUT),
     Device.CreateSetLayout(blurSetLayout, BLUR_SET_LAYOUT),
     Device.CreatePool(pool, POOL_SIZES, POOL_MAX_SETS),
     Device.AllocateSet(ssaoSet, pool, ssaoSetLayout),
     Device.UpdateSets(SSAOWrites(ssaoSet, gbuffer.PositionDescriptor(), gbuffer.NormalDescriptor(),
                                  ssao.NoiseDescriptor(), ssao.KernelDescriptor())),
     Device.AllocateSet(blurSet, pool, blurSetLayout),
     Device.UpdateSets(BlurWrites(blurSet, ssao.SSAODescriptor()))]
  }

  /**
   * createDescriptorSetLayouts, createDescriptorPool, createDescriptorSets:
   * the SSAO set gets the G-buffer's position and normal targets, the noise
   * texture and the kernel; the blur set gets the raw SSAO target.
   */
  method CreateDescriptors(device: Device.FrgDevice, gbuffer: GBuffer.FrgGBuffer, ssao: SSAO.FrgSSAO)
    returns (ssaoSetLayout: Handle, blurSetLayout: Handle, pool: Handle, ssaoSet: Handle, blurSet: Handle)
    modifies device`calls, device`nextHandle
    ensures ssaoSetLayout.Live? && blurSetLayout.Live? && pool.Live? && ssaoSet.Live? && blurSet.Live?
    ensures device.calls == old(device.calls)
      + DescriptorCalls(ssaoSetLayout, blurSetLayout, pool, ssaoSet, blurSet, gbuffer, ssao)
  {
    ssaoSetLayout := NewSetLayout(device, SSAO_SET_LAYOUT);
    blurSetLayout := NewSetLayout(device, BLUR_SET_LAYOUT);
    pool := device.NewHandle();
    device.Record(Device.CreatePool(pool, POOL_SIZES, POOL_MAX_SETS));
    ssaoSet := device.NewHandle();
    device.Record(Device.AllocateSet(ssaoSet, pool, ssaoSetLayout));
    device.Record(Device.UpdateSets(SSAOWrites(ssaoSet, gbuffer.PositionDescriptor(), gbuffer.NormalDescriptor(),
                                               ssao.NoiseDescriptor(), ssao.KernelDescriptor())));
    blurSet := device.NewHandle();
    device.Record(Device.AllocateSet(blurSet, pool, blurSetLayout));
    device.Record(Device.UpdateSets(BlurWrites(blurSet, ssao.SSAODescriptor())));
  }

  /** A pipeline layout, then the pipeline built on it from its config. */
  function PipelineCalls(layout: Handle, setLayouts: seq<Handle>, pushBytes: nat, config: Pipeline.PipelineConfig,
                         p: Pipeline.FrgPipeline): seq<Device.DeviceCall>
  {
    [Device.CreatePipelineLayout(layout, setLayouts, pushBytes)]
    + Pipeline.GraphicsCalls(config, p.vertShaderModule, p.fragShaderModule, p.graphicsPipeline)
  }

  /** A create*PipelineLayout / create*Pipeline pair; the pipeline is graphics-only. */
  method CreatePipeline(device: Device.FrgDevice, setLayouts: seq<Handle>, pushBytes: nat, renderPass: Handle, gbufferConfig: bool)
    returns (layout: Handle, p: Pipeline.FrgPipeline)
    requires renderPass.Live?
    modifies device
    ensures layout.Live? && p.graphicsPipeline.Live? && p.computePipeline == Null
    ensures p.shaderStorageBuffers == [] && p.shaderStorageBuffersMemory == []
    ensures device.calls == old(device.calls)
      + PipelineCalls(layout, setLayouts, pushBytes,
                      if gbufferConfig then GBufferConfig(layout, renderPass) else FullscreenConfig(layout, renderPass), p)
  {
    layout := NewPipelineLayout(device, setLayouts, pushBytes);
    var config := if gbufferConfig then GBufferConfig(layout, renderPass) else FullscreenConfig(layout, renderPass);
    p := new Pipeline.FrgPipeline(device, config);
  }

  /**
   * The commands game object i records in the G-buffer pass: its push
   * constants, its model's bind, then its model's draw commands.
   */
  function ObjectCmds(layout: Handle, i: nat, drawn: seq<Cmd>): seq<Cmd>
  {
    [PushGBufferConstants(layout, i), BindModelOf(i)] + drawn
  }

  /** The commands of the first n game objects, given each model's draw commands, in list order. */
  function ObjectsCmds(layout: Handle, draws: seq<seq<Cmd>>, n: nat): seq<Cmd>
    requires n <= |draws|
  {
    if n == 0 then [] else ObjectsCmds(layout, draws, n - 1) + ObjectCmds(layout, n - 1, draws[n - 1])
  }

  /** Each model's draw commands (FrgModel::draw). */
  function DrawsOf(models: seq<Model.FrgModel>): (r: seq<seq<Cmd>>)
    reads models
    ensures |r| == |models| && forall i :: 0 <= i < |models| ==> r[i] == Model.MeshCmds(models[i].meshes)
  {
    if models == [] then [] else DrawsOf(models[..|models| - 1]) + [Model.MeshCmds(models[|models| - 1].meshes)]
  }

  /** The number of draws over the first n command lists. */
  function DrawTotal(draws: seq<seq<Cmd>>, n: nat): nat
    requires n <= |draws|
  {
    if n == 0 then 0 else DrawTotal(draws, n - 1) + Model.DrawCount(draws[n - 1])
  }

  /** The push and bind of a game object draw nothing. */
  lemma ObjectDrawsOnlyItsModel(layout: Handle, i: nat, drawn: seq<Cmd>)
    ensures Model.DrawCount(ObjectCmds(layout, i, drawn)) == Model.DrawCount(drawn)
  {
    var head: seq<Cmd> := [PushGBufferConstants(layout, i), BindModelOf(i)];
    Model.DrawCountAppend(head, drawn);
    NoDrawsCountZero(head);
  }

  /**
   * The G-buffer pass draws exactly what the objects' models draw, which
   * for each model is one draw per mesh (Model.OneDrawPerMesh).
   */
  lemma {:induction false} GBufferDrawsEveryMesh(layout: Handle, draws: seq<seq<Cmd>>, n: nat)
    requires n <= |draws|
    ensures Model.DrawCount(ObjectsCmds(layout, draws, n)) == DrawTotal(draws, n)
  {
    if n > 0 {
      GBufferDrawsEveryMesh(layout, draws, n - 1);
      Model.DrawCountAppend(ObjectsCmds(layout, draws, n - 1), ObjectCmds(layout, n - 1, draws[n - 1]));
      ObjectDrawsOnlyItsModel(layout, n - 1, draws[n - 1]);
    }
  }

  /** The commands of fewer objects are a prefix of those of more. */
  lemma {:induction false} ObjectsCmdsPrefix(layout: Handle, draws: seq<seq<Cmd>>, i: nat, n: nat)
    requires i <= n <= |draws|
    ensures ObjectsCmds(layout, draws, i) <= ObjectsCmds(layout, draws, n)
  {
    if i < n {
      ObjectsCmdsPrefix(layout, draws, i, n - 1);
    }
  }

  /** Object i's commands, starting with its own push constants, follow those of the objects before it. */
  lemma GBufferPushesEachObject(layout: Handle, draws: seq<seq<Cmd>>, n: nat, i: nat)
    requires i < n <= |draws|
    ensures ObjectsCmds(layout, draws, i) + ObjectCmds(layout, i, draws[i]) <= ObjectsCmds(layout, draws, n)
    ensures ObjectsCmds(layout, draws, n)[|ObjectsCmds(layout, draws, i)|] == PushGBufferConstants(layout, i)
  {
    var pre := ObjectsCmds(layout, draws, i);
    var upto := pre + ObjectCmds(layout, i, draws[i]);
    assert upto <= ObjectsCmds(layout, draws, n) by {
      ObjectsCmdsPrefix(layout, draws, i + 1, n);
    }
    assert upto[|pre|] == PushGBufferConstants(layout, i);
    PrefixAgrees(upto, ObjectsCmds(layout, draws, n), |pre|);
  }

  lemma PrefixAgrees(a: seq<Cmd>, b: seq<Cmd>, k: nat)
    requires a <= b && k < |a|
    ensures b[k] == a[k]
  {
  }

  /** A command list without draws counts no draws. */
  lemma {:induction false} NoDrawsCountZero(cmds: seq<Cmd>)
    requires forall k :: 0 <= k < |cmds| ==> !cmds[k].Draw? && !cmds[k].DrawIndexed?
    ensures Model.DrawCount(cmds) == 0
  {
    if cmds != [] {
      NoDrawsCountZero(cmds[..|cmds| - 1]);
    }
  }

  class FrgSSAORenderSystem {
    const device: Device.FrgDevice
    const gbuffer: GBuffer.FrgGBuffer
    const ssao: SSAO.FrgSSAO

    const ssaoSetLayout: Handle
    const blurSetLayout: Handle
    const descriptorPool: Handle
    const ssaoSet: Handle
    const blurSet: Handle

    const gbufferPipelineLayout: Handle
    const gbufferPipeline: Pipeline.FrgPipeline
    const ssaoPipelineLayout: Handle
    const ssaoPipeline: Pipeline.FrgPipeline
    const blurPipelineLayout: Handle
    const blurPipeline: Pipeline.FrgPipeline

    /**
     * What the constructor asks of the driver: the descriptors, then each
     * pipeline layout followed by its pipeline (G-buffer, SSAO, blur). The
     * descriptor sets capture the targets as they are at construction.
     */
    function CreationCalls(): seq<Device.DeviceCall>
      reads gbuffer, ssao
    {
      DescriptorCalls(ssaoSetLayout, blurSetLayout, descriptorPool, ssaoSet, blurSet, gbuffer, ssao)
      + PipelineCalls(gbufferPipelineLayout, [], GBUFFER_PUSH_BYTES,
                      GBufferConfig(gbufferPipelineLayout, gbuffer.renderPass), gbufferPipeline)
      + PipelineCalls(ssaoPipelineLayout, [ssaoSetLayout], SSAO_PUSH_BYTES,
                      FullscreenConfig(ssaoPipelineLayout, ssao.ssaoRenderPass), ssaoPipeline)
      + PipelineCalls(blurPipelineLayout, [blurSetLayout], 0,
                      FullscreenConfig(blurPipelineLayout, ssao.blurRenderPass), blurPipeline)
    }

    /** Each pipeline needs its render pass (asserted in FrgPipeline). */
    constructor(device: Device.FrgDevice, gbuffer: GBuffer.FrgGBuffer, ssao: SSAO.FrgSSAO)
      requires gbuffer.renderPass.Live? && ssao.ssaoRenderPass.Live? && ssao.blurRenderPass.Live?
      modifies device
      ensures this.device == device && this.gbuffer == gbuffer && this.ssao == ssao
      ensures ssaoSetLayout.Live? && blurSetLayout.Live? && descriptorPool.Live? && ssaoSet.Live? && blurSet.Live?
      ensures gbufferPipelineLayout.Live? && ssaoPipelineLayout.Live? && blurPipelineLayout.Live?
      ensures gbufferPipeline.shaderStorageBuffers == [] && gbufferPipeline.shaderStorageBuffersMemory == []
      ensures ssaoPipeline.shaderStorageBuffers == [] && ssaoPipeline.shaderStorageBuffersMemory == []
      ensures blurPipeline.shaderStorageBuffers == [] && blurPipeline.shaderStorageBuffersMemory == []
      ensures device.calls == old(device.calls) + CreationCalls()
    {
      this.device := device;
      this.gbuffer := gbuffer;
      this.ssao := ssao;
      var ssl, bsl, pool, sset, bset := CreateDescriptors(device, gbuffer, ssao);
      var gpl, gp := CreatePipeline(device, [], GBUFFER_PUSH_BYTES, gbuffer.renderPass, true);
      var spl, sp := CreatePipeline(device, [ssl], SSAO_PUSH_BYTES, ssao.ssaoRenderPass, false);
      var bpl, bp := CreatePipeline(device, [bsl], 0, ssao.blurRenderPass, false);
      ssaoSetLayout, blurSetLayout, descriptorPool, ssaoSet, blurSet := ssl, bsl, pool, sset, bset;
      gbufferPipelineLayout, gbufferPipeline := gpl, gp;
      ssaoPipelineLayout, ssaoPipeline := spl, sp;
      blurPipelineLayout, blurPipeline := bpl, bp;
    }

    /** The handles the destructor body releases, in its order. */
    function OwnHandles(): seq<Handle>
    {
      [blurPipelineLayout, ssaoPipelineLayout, gbufferPipelineLayout, descriptorPool, blurSetLayout, ssaoSetLayout]
    }

    /**
     * ~SSAORenderSystem: each non-null pipeline layout, the pool and each
     * set layout, then the owned pipelines in reverse declaration order.
     */
    method Destroy()
      requires |blurPipeline.shaderStorageBuffers| <= |blurPipeline.shaderStorageBuffersMemory|
      requires |ssaoPipeline.shaderStorageBuffers| <= |ssaoPipeline.shaderStorageBuffersMemory|
      requires |gbufferPipeline.shaderStorageBuffers| <= |gbufferPipeline.shaderStorageBuffersMemory|
      modifies device`calls
      ensures device.calls == old(device.calls) + Device.DestroyCalls(OwnHandles())
        + PipelineTeardown(blurPipeline) + PipelineTeardown(ssaoPipeline) + PipelineTeardown(gbufferPipeline)
    {
      Device.ReleaseAll(device, OwnHandles());
      blurPipeline.Destroy(device);
      ssaoPipeline.Destroy(device);
      gbufferPipeline.Destroy(device);
    }

    /** beginGBufferPass: the G-buffer's render pass over its whole extent. */
    method BeginGBufferPass() returns (cmds: seq<Cmd>)
      ensures cmds == [BeginRenderPass(GBufferPass, gbuffer.extent, GBUFFER_CLEARS),
                       SetViewport(gbuffer.extent), SetScissor(gbuffer.extent)]
    {
      var extent := gbuffer.extent;
      cmds := [BeginRenderPass(GBufferPass, extent, GBUFFER_CLEARS)];
      cmds := cmds + [SetViewport(extent), SetScissor(extent)];
    }

    method EndGBufferPass() returns (cmds: seq<Cmd>)
      ensures cmds == [EndRenderPass(GBufferPass)]
    {
      cmds := [EndRenderPass(GBufferPass)];
    }

    /** beginSSAOPass: the SSAO target's render pass over the SSAO extent. */
    method BeginSSAOPass() returns (cmds: seq<Cmd>)
      ensures cmds == [BeginRenderPass(SSAOPass, ssao.extent, OCCLUSION_CLEARS),
                       SetViewport(ssao.extent), SetScissor(ssao.extent)]
    {
      var extent := ssao.extent;
      cmds := [BeginRenderPass(SSAOPass, extent, OCCLUSION_CLEARS)];
      cmds := cmds + [SetViewport(extent), SetScissor(extent)];
    }

    method EndSSAOPass() returns (cmds: seq<Cmd>)
      ensures cmds == [EndRenderPass(SSAOPass)]
    {
      cmds := [EndRenderPass(SSAOPass)];
    }

    /** beginBlurPass: the blurred target's render pass, also over the SSAO extent. */
    method BeginBlurPass() returns (cmds: seq<Cmd>)
      ensures cmds == [BeginRenderPass(BlurPass, ssao.extent, OCCLUSION_CLEARS),
                       SetViewport(ssao.extent), SetScissor(ssao.extent)]
    {
      var extent := ssao.extent;
      cmds := [BeginRenderPass(BlurPass, extent, OCCLUSION_CLEARS)];
      cmds := cmds + [SetViewport(extent), SetScissor(extent)];
    }

    method EndBlurPass() returns (cmds: seq<Cmd>)
      ensures cmds == [EndRenderPass(BlurPass)]
    {
      cmds := [EndRenderPass(BlurPass)];
    }

    /** renderGBuffer: the G-buffer pipeline, then each game object in list order. */
    method RenderGBuffer(models: seq<Model.FrgModel>) returns (cmds: seq<Cmd>)
      ensures cmds == [gbufferPipeline.Bind()] + ObjectsCmds(gbufferPipelineLayout, DrawsOf(models), |models|)
    {
      ghost var lists := DrawsOf(models);
      var objects: seq<Cmd> := [];
      var i := 0;
      while i < |models|
        invariant i <= |models|
        invariant objects == ObjectsCmds(gbufferPipelineLayout, lists, i)
      {
        var drawn := models[i].Draw();
        objects := objects + ObjectCmds(gbufferPipelineLayout, i, drawn);
        i := i + 1;
      }
      cmds := [gbufferPipeline.Bind()] + objects;
    }

    /**
     * renderSSAO: the SSAO pipeline and set, the constants (the noise tile
     * repeated across the extent, the kernel's radius, bias and size), then
     * one full-screen triangle.
     */
    method RenderSSAO() returns (cmds: seq<Cmd>)
      ensures |cmds| == 4 && Model.DrawCount(cmds) == 1
      ensures cmds[0] == ssaoPipeline.Bind() && cmds[1] == BindDescriptorSets(ssaoPipelineLayout, ssaoSet)
      ensures cmds[2].PushSSAOConstants? && cmds[2].layout == ssaoPipelineLayout
      ensures cmds[2].noiseScale.x * SSAO.NOISE_SIZE as real == ssao.extent.width as real
      ensures cmds[2].noiseScale.y * SSAO.NOISE_SIZE as real == ssao.extent.height as real
      ensures cmds[2].radius == SSAO.RADIUS && cmds[2].bias == SSAO.BIAS && cmds[2].kernelSize == SSAO.KERNEL_SIZE
      ensures cmds[3] == Draw(3, 1)
    {
      var noiseScale := Vec2(ssao.extent.width as real / SSAO.NOISE_SIZE as real,
                             ssao.extent.height as real / SSAO.NOISE_SIZE as real);
      cmds := [ssaoPipeline.Bind(), BindDescriptorSets(ssaoPipelineLayout, ssaoSet)];
      cmds := cmds + [PushSSAOConstants(ssaoPipelineLayout, noiseScale, SSAO.RADIUS, SSAO.BIAS, SSAO.KERNEL_SIZE)];
      cmds := cmds + [Draw(3, 1)];
      assert cmds[..3] == cmds[..2] + [cmds[2]];
      NoDrawsCountZero(cmds[..3]);
    }

    /** renderBlur: the blur pipeline and set, then one full-screen triangle. */
    method RenderBlur() returns (cmds: seq<Cmd>)
      ensures |cmds| == 3 && Model.DrawCount(cmds) == 1
      ensures cmds[0] == blurPipeline.Bind() && cmds[1] == BindDescriptorSets(blurPipelineLayout, blurSet)
      ensures cmds[2] == Draw(3, 1)
    {
      cmds := [blurPipeline.Bind(), BindDescriptorSets(blurPipelineLayout, blurSet)];
      cmds := cmds + [Draw(3, 1)];
      NoDrawsCountZero(cmds[..2]);
    }
  }

  /** A pipeline's destructor calls. */
  function PipelineTeardown(p: Pipeline.FrgPipeline): seq<Device.DeviceCall>
    requires |p.shaderStorageBuffers| <= |p.shaderStorageBuffersMemory|
    reads p
  {
    Pipeline.TeardownCalls(p.vertShaderModule, p.fragShaderModule, p.compShaderModule, p.graphicsPipeline,
                           p.computePipeline, p.computePipelineLayout, p.shaderStorageBuffers, p.shaderStorageBuffersMemory)
  }

  /**
   * The blur pass reads the raw SSAO target, not the blurred one it renders
   * into; the SSAO set reads the G-buffer's position and normal targets and
   * the noise texture, each with the sampler its getter names.
   */
  lemma SetsReadTheirInputs(r: FrgSSAORenderSystem)
    ensures var calls := r.CreationCalls();
      calls[6] == Device.UpdateSets(BlurWrites(r.blurSet, r.ssao.SSAODescriptor()))
      && calls[6].writes[0].payload.images[0].view == r.ssao.ssaoImageView
      && calls[4].writes[0].payload.images[0].view == r.gbuffer.positionImageView
      && calls[4].writes[1].payload.images[0].view == r.gbuffer.normalImageView
      && calls[4].writes[2].payload.images[0] == ImageInfo(r.ssao.noiseSampler, r.ssao.noiseImageView, ShaderReadOnlyOptimal)
      && calls[4].writes[3].payload.info == BufferInfo(r.ssao.kernelBuffer, 0, SSAO.KERNEL_BYTES)
  {
  }
}
