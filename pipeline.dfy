/**
 * FrgPipeline: the fixed-function defaults every pipeline starts from, the
 * choice of vertex input, and the pipeline objects' creation, binding and
 * teardown. Shader files and the driver's pipeline compilation are not
 * modelled; a created object is a fresh handle from the device.
 */
module Pipeline {
  import opened VkTypes
  import SwapChain
  import Device
  import Mesh

  datatype Topology = PointList | LineList | TriangleList | OtherTopology(code: nat)
  datatype PolygonMode = FillMode | LineMode | PointMode
  datatype CullMode = CullNone | CullFront | CullBack | CullFrontAndBack
  datatype FrontFace = CounterClockwise | Clockwise
  datatype CompareOp = Never | Less | LessOrEqual | OtherCompare(code: nat)
  datatype DynamicState = ViewportState | ScissorState | OtherDynamicState(code: nat)
  datatype ColorComponent = Red | Green | Blue | Alpha

  const RGBA: set<ColorComponent> := {Red, Green, Blue, Alpha}

  /** A VkPipelineColorBlendAttachmentState (the blend factors and ops are not modelled). */
  datatype BlendAttachment = BlendAttachment(writeMask: set<ColorComponent>, blendEnable: bool)

  /** Where colorBlendInfo.pAttachments points: nowhere, the single field, or the vector's data. */
  datatype BlendSource = NoAttachments | SingleAttachment | AttachmentVector

  /** PipelineConfigInfo; each group of fields is one Vk*StateCreateInfo. */
  datatype PipelineConfig = PipelineConfig(
    bindingDescriptions: seq<Mesh.VertexBinding>,
    attributeDescriptions: seq<Mesh.VertexAttribute>,
    colorBlendAttachments: seq<BlendAttachment>,
    // input assembly
    topology: Topology, primitiveRestart: bool,
    // viewport
    viewportCount: nat, scissorCount: nat,
    // rasterization
    depthClamp: bool, rasterizerDiscard: bool, polygonMode: PolygonMode, lineWidth: real,
    cullMode: CullMode, frontFace: FrontFace, depthBias: bool,
    // multisampling
    samples: nat, sampleShading: bool,
    // colour blending
    colorBlendAttachment: BlendAttachment,
    logicOpEnable: bool, blendAttachmentCount: nat, blendSource: BlendSource,
    // depth and stencil
    depthTest: bool, depthWrite: bool, depthCompare: CompareOp, depthBoundsTest: bool, stencilTest: bool,
    // dynamic state
    dynamicStates: seq<DynamicState>,
    pipelineLayout: Handle, renderPass: Handle, subpass: nat)

  /** `PipelineConfigInfo pipelineConfig{}`: value-initialised, so every field is zero, null or empty. */
  const FRESH_CONFIG: PipelineConfig := PipelineConfig(
    [], [], [],
    PointList, false,
    0, 0,
    false, false, FillMode, 0.0, CullNone, CounterClockwise, false,
    0, false,
    BlendAttachment({}, false), false, 0, NoAttachments,
    false, false, Never, false, false,
    [],
    Null, Null, 0)

  /**
   * FrgPipeline::defaultPipelineConfigInfo: fills in every fixed-function
   * state; the vertex input lists, the attachment vector, the layout, the
   * render pass and the subpass are left as they were.
   */
  function DefaultPipelineConfigInfo(config: PipelineConfig, compute: bool): (r: PipelineConfig)
    ensures r.topology == (if compute then PointList else TriangleList) && !r.primitiveRestart
    ensures r.viewportCount == 1 && r.scissorCount == 1
    ensures !r.depthClamp && !r.rasterizerDiscard && r.polygonMode == FillMode && r.lineWidth == 1.0
    ensures r.cullMode == CullNone && r.frontFace == Clockwise && !r.depthBias
    ensures r.samples == 1 && !r.sampleShading
    ensures r.colorBlendAttachment == BlendAttachment(RGBA, false)
    ensures !r.logicOpEnable && r.blendAttachmentCount == 1 && r.blendSource == SingleAttachment
    ensures r.depthTest && r.depthWrite && r.depthCompare == Less && !r.depthBoundsTest && !r.stencilTest
    ensures r.dynamicStates == [ViewportState, ScissorState]
    ensures r.bindingDescriptions == config.bindingDescriptions
    ensures r.attributeDescriptions == config.attributeDescriptions
    ensures r.colorBlendAttachments == config.colorBlendAttachments
    ensures r.pipelineLayout == config.pipelineLayout && r.renderPass == config.renderPass
    ensures r.subpass == config.subpass
  {
    config.(
      topology := if compute then PointList else TriangleList, primitiveRestart := false,
      viewportCount := 1, scissorCount := 1,
      depthClamp := false, rasterizerDiscard := false, polygonMode := FillMode, lineWidth := 1.0,
      cullMode := CullNone, frontFace := Clockwise, depthBias := false,
      samples := 1, sampleShading := false,
      colorBlendAttachment := BlendAttachment(RGBA, false),
      logicOpEnable := false, blendAttachmentCount := 1, blendSource := SingleAttachment,
      depthTest := true, depthWrite := true, depthCompare := Less, depthBoundsTest := false, stencilTest := false,
      dynamicStates := [ViewportState, ScissorState])
  }

  /** Applying the defaults twice is applying them once. */
  lemma DefaultsIdempotent(config: PipelineConfig, compute: bool)
    ensures DefaultPipelineConfigInfo(DefaultPipelineConfigInfo(config, compute), compute)
      == DefaultPipelineConfigInfo(config, compute)
  {
  }

  /** The defaults do not depend on the config they overwrite, except in the fields they leave alone. */
  lemma DefaultsDependOnlyOnKeptFields(c1: PipelineConfig, c2: PipelineConfig, compute: bool)
    requires c1.bindingDescriptions == c2.bindingDescriptions
    requires c1.attributeDescriptions == c2.attributeDescriptions
    requires c1.colorBlendAttachments == c2.colorBlendAttachments
    requires c1.pipelineLayout == c2.pipelineLayout && c1.renderPass == c2.renderPass && c1.subpass == c2.subpass
    ensures DefaultPipelineConfigInfo(c1, compute) == DefaultPipelineConfigInfo(c2, compute)
  {
  }

  /**
   * The colour blend attachment states the pipeline reads through
   * colorBlendInfo: the single field, or the first entries of the vector.
   */
  function BlendAttachments(config: PipelineConfig): (r: seq<BlendAttachment>)
    requires config.blendSource == AttachmentVector ==> config.blendAttachmentCount <= |config.colorBlendAttachments|
    requires config.blendSource == SingleAttachment ==> config.blendAttachmentCount <= 1
    ensures |r| == (if config.blendSource == NoAttachments then 0 else config.blendAttachmentCount)
  {
    match config.blendSource
    case NoAttachments => []
    case SingleAttachment => if config.blendAttachmentCount == 1 then [config.colorBlendAttachment] else []
    case AttachmentVector => config.colorBlendAttachments[..config.blendAttachmentCount]
  }

  /** A default config blends exactly one colour attachment, writing all four channels without blending. */
  lemma DefaultBlendsOneAttachment(config: PipelineConfig, compute: bool)
    ensures BlendAttachments(DefaultPipelineConfigInfo(config, compute)) == [BlendAttachment(RGBA, false)]
  {
  }

  /**
   * createGraphicsPipeline's vertex input: the constructor-supplied
   * descriptions when the config gives neither bindings nor attributes,
   * otherwise the config's own (even when only one of its lists is empty).
   */
  function VertexInputFor(config: PipelineConfig, bindings: seq<Mesh.VertexBinding>,
                          attributes: seq<Mesh.VertexAttribute>)
    : (r: (seq<Mesh.VertexBinding>, seq<Mesh.VertexAttribute>))
    ensures config.bindingDescriptions == [] && config.attributeDescriptions == [] ==> r == (bindings, attributes)
    ensures config.bindingDescriptions != [] || config.attributeDescriptions != [] ==>
      r == (config.bindingDescriptions, config.attributeDescriptions)
  {
    if config.bindingDescriptions == [] && config.attributeDescriptions == [] then (bindings, attributes)
    else (config.bindingDescriptions, config.attributeDescriptions)
  }

  /**
   * A config whose vertex lists were cleared still gets the Vertex layout
   * from the graphics-only constructor; the input is then never empty.
   */
  lemma ClearedConfigUsesVertexLayout(config: PipelineConfig)
    requires config.bindingDescriptions == [] && config.attributeDescriptions == []
    ensures VertexInputFor(config, Mesh.VERTEX_BINDINGS, Mesh.VERTEX_ATTRIBUTES)
      == (Mesh.VERTEX_BINDINGS, Mesh.VERTEX_ATTRIBUTES)
    ensures |VertexInputFor(config, Mesh.VERTEX_BINDINGS, Mesh.VERTEX_ATTRIBUTES).1| == 3
  {
  }

  class FrgPipeline {
    const vertShaderModule: Handle
    const fragShaderModule: Handle
    const graphicsPipeline: Handle
    const compShaderModule: Handle
    const computePipeline: Handle
    const computePipelineLayout: Handle
    /** The vertex input the graphics pipeline was created with. */
    const vertexBindings: seq<Mesh.VertexBinding>
    const vertexAttributes: seq<Mesh.VertexAttribute>
    var shaderStorageBuffers: seq<Handle>
    var shaderStorageBuffersMemory: seq<Handle>

    /**
     * The graphics-only constructor: the Vertex descriptions are the
     * defaults. The config must name a pipeline layout and a render pass.
     */
    constructor(device: Device.FrgDevice, config: PipelineConfig)
      requires config.pipelineLayout.Live? && config.renderPass.Live?
      modifies device
      ensures (vertexBindings, vertexAttributes) == VertexInputFor(config, Mesh.VERTEX_BINDINGS, Mesh.VERTEX_ATTRIBUTES)
      ensures vertShaderModule.Live? && fragShaderModule.Live? && graphicsPipeline.Live?
      ensures compShaderModule == Null && computePipeline == Null && computePipelineLayout == Null
      ensures shaderStorageBuffers == [] && shaderStorageBuffersMemory == []
      ensures device.calls == old(device.calls) + GraphicsCalls(config, vertShaderModule, fragShaderModule, graphicsPipeline)
    {
      var input := VertexInputFor(config, Mesh.VERTEX_BINDINGS, Mesh.VERTEX_ATTRIBUTES);
      var vert, frag, pipe := CreateGraphicsPipeline(device, config);
      vertShaderModule := vert;
      fragShaderModule := frag;
      graphicsPipeline := pipe;
      vertexBindings := input.0;
      vertexAttributes := input.1;
      compShaderModule := Null;
      computePipeline := Null;
      computePipelineLayout := Null;
      shaderStorageBuffers := [];
      shaderStorageBuffersMemory := [];
    }

    /**
     * The particle constructor: the particle descriptions are the defaults,
     * then the compute pipeline (whose layout takes only the first of the
     * given set layouts) and the storage buffer slots.
     */
    constructor WithCompute(device: Device.FrgDevice, config: PipelineConfig,
                            particleBindings: seq<Mesh.VertexBinding>, particleAttributes: seq<Mesh.VertexAttribute>,
                            setLayouts: seq<Handle>)
      requires config.pipelineLayout.Live? && config.renderPass.Live?
      requires |setLayouts| >= 1
      modifies device
      ensures (vertexBindings, vertexAttributes) == VertexInputFor(config, particleBindings, particleAttributes)
      ensures vertShaderModule.Live? && fragShaderModule.Live? && graphicsPipeline.Live?
      ensures compShaderModule.Live? && computePipeline.Live? && computePipelineLayout.Live?
      ensures shaderStorageBuffers == Resized([], SwapChain.MAX_FRAMES_IN_FLIGHT)
      ensures shaderStorageBuffersMemory == Resized([], SwapChain.MAX_FRAMES_IN_FLIGHT)
      ensures device.calls == old(device.calls)
        + GraphicsCalls(config, vertShaderModule, fragShaderModule, graphicsPipeline)
        + ComputeCalls(setLayouts[0], compShaderModule, computePipelineLayout, computePipeline)
    {
      var input := VertexInputFor(config, particleBindings, particleAttributes);
      var vert, frag, pipe := CreateGraphicsPipeline(device, config);
      var comp, layout, cpipe := CreateComputePipeline(device, setLayouts);
      vertShaderModule := vert;
      fragShaderModule := frag;
      graphicsPipeline := pipe;
      vertexBindings := input.0;
      vertexAttributes := input.1;
      compShaderModule := comp;
      computePipelineLayout := layout;
      computePipeline := cpipe;
      shaderStorageBuffers := [];
      shaderStorageBuffersMemory := [];
      new;
      CreateShaderStorageBuffers();
    }

    /** FrgPipeline::bind: the graphics pipeline at the graphics bind point. */
    function Bind(): (c: Cmd)
      ensures c.BindPipeline? && c.pipeline == graphicsPipeline
    {
      BindPipeline(graphicsPipeline)
    }

    /** FrgPipeline::bindCompute: the compute pipeline at the compute bind point. */
    function BindCompute(): (c: Cmd)
      ensures c.BindComputePipeline? && c.computePipeline == computePipeline
    {
      BindComputePipeline(computePipeline)
    }

    /** create_shader_storage_buffers: both vectors resized to MAX_FRAMES_IN_FLIGHT slots. */
    method CreateShaderStorageBuffers()
      modifies this`shaderStorageBuffers, this`shaderStorageBuffersMemory
      ensures shaderStorageBuffers == Resized(old(shaderStorageBuffers), SwapChain.MAX_FRAMES_IN_FLIGHT)
      ensures shaderStorageBuffersMemory == Resized(old(shaderStorageBuffersMemory), SwapChain.MAX_FRAMES_IN_FLIGHT)
    {
      shaderStorageBuffers := Resized(shaderStorageBuffers, SwapChain.MAX_FRAMES_IN_FLIGHT);
      shaderStorageBuffersMemory := Resized(shaderStorageBuffersMemory, SwapChain.MAX_FRAMES_IN_FLIGHT);
    }

    /** ~FrgPipeline. */
    method Destroy(device: Device.FrgDevice)
      requires |shaderStorageBuffersMemory| >= |shaderStorageBuffers|
      modifies device`calls
      ensures device.calls == old(device.calls)
        + TeardownCalls(vertShaderModule, fragShaderModule, compShaderModule, graphicsPipeline,
                        computePipeline, computePipelineLayout, shaderStorageBuffers, shaderStorageBuffersMemory)
    {
      device.Record(Device.Destroy(vertShaderModule));
      device.Record(Device.Destroy(fragShaderModule));
      DestroyIfLive(device, compShaderModule);
      device.Record(Device.Destroy(graphicsPipeline));
      DestroyIfLive(device, computePipeline);
      DestroyIfLive(device, computePipelineLayout);
      DestroyStorage(device, shaderStorageBuffers, shaderStorageBuffersMemory);
    }
  }

  /** A destruction guarded by `if (h != VK_NULL_HANDLE)`. */
  method DestroyIfLive(device: Device.FrgDevice, h: Handle)
    modifies device`calls
    ensures device.calls == old(device.calls) + IfLive(h)
  {
    if h != Null {
      device.Record(Device.Destroy(h));
    }
  }

  function IfLive(h: Handle): seq<Device.DeviceCall>
  {
    if h != Null then [Device.Destroy(h)] else []
  }

  /** The destructor's loop over the storage slots. */
  method DestroyStorage(device: Device.FrgDevice, buffers: seq<Handle>, memory: seq<Handle>)
    requires |buffers| <= |memory|
    modifies device`calls
    ensures device.calls == old(device.calls) + StorageCalls(buffers, memory)
  {
    var i := 0;
    while i < |buffers|
      invariant 0 <= i <= |buffers|
      invariant device.calls == old(device.calls) + StorageCalls(buffers[..i], memory)
    {
      assert buffers[..i + 1][..i] == buffers[..i];
      device.Record(Device.Destroy(buffers[i]));
      device.Record(Device.Destroy(memory[i]));
      i := i + 1;
    }
    assert buffers[..i] == buffers;
  }

  /** Shader modules and the graphics pipeline, created in that order. */
  method CreateGraphicsPipeline(device: Device.FrgDevice, config: PipelineConfig)
    returns (vert: Handle, frag: Handle, pipe: Handle)
    requires config.pipelineLayout.Live? && config.renderPass.Live?
    modifies device
    ensures vert.Live? && frag.Live? && pipe.Live?
    ensures device.calls == old(device.calls) + GraphicsCalls(config, vert, frag, pipe)
  {
    vert := device.NewHandle();
    device.Record(Device.CreateShaderModule(vert));
    frag := device.NewHandle();
    device.Record(Device.CreateShaderModule(frag));
    pipe := device.NewHandle();
    device.Record(Device.CreateGraphicsPipeline(pipe, config.pipelineLayout, config.renderPass, config.subpass));
  }

  /** createComputePipeline: the shader module, a layout over the first set layout, then the pipeline. */
  method CreateComputePipeline(device: Device.FrgDevice, setLayouts: seq<Handle>)
    returns (comp: Handle, layout: Handle, pipe: Handle)
    requires |setLayouts| >= 1
    modifies device
    ensures comp.Live? && layout.Live? && pipe.Live?
    ensures device.calls == old(device.calls) + ComputeCalls(setLayouts[0], comp, layout, pipe)
  {
    comp := device.NewHandle();
    device.Record(Device.CreateShaderModule(comp));
    layout := device.NewHandle();
    device.Record(Device.CreatePipelineLayout(layout, [setLayouts[0]], 0));
    pipe := device.NewHandle();
    device.Record(Device.CreateComputePipeline(pipe, layout));
  }

  function GraphicsCalls(config: PipelineConfig, vert: Handle, frag: Handle, pipe: Handle): seq<Device.DeviceCall>
  {
    [Device.CreateShaderModule(vert), Device.CreateShaderModule(frag),
     Device.CreateGraphicsPipeline(pipe, config.pipelineLayout, config.renderPass, config.subpass)]
  }

  function ComputeCalls(setLayout: Handle, comp: Handle, layout: Handle, pipe: Handle): seq<Device.DeviceCall>
  {
    [Device.CreateShaderModule(comp), Device.CreatePipelineLayout(layout, [setLayout], 0),
     Device.CreateComputePipeline(pipe, layout)]
  }

  /** One buffer destruction and one memory free per storage slot, slot by slot. */
  function StorageCalls(buffers: seq<Handle>, memory: seq<Handle>): seq<Device.DeviceCall>
    requires |buffers| <= |memory|
  {
    if buffers == [] then []
    else (StorageCalls(buffers[..|buffers| - 1], memory)
          + [Device.Destroy(buffers[|buffers| - 1]), Device.Destroy(memory[|buffers| - 1])])
  }

  /**
   * The destructor's calls: the shader modules and graphics pipeline
   * always, each compute object only when it exists, then every storage slot.
   */
  function TeardownCalls(vert: Handle, frag: Handle, comp: Handle, pipe: Handle, cpipe: Handle, clayout: Handle,
                         buffers: seq<Handle>, memory: seq<Handle>): seq<Device.DeviceCall>
    requires |buffers| <= |memory|
  {
    [Device.Destroy(vert), Device.Destroy(frag)] + IfLive(comp) + [Device.Destroy(pipe)]
    + IfLive(cpipe) + IfLive(clayout) + StorageCalls(buffers, memory)
  }

  lemma {:induction false} StorageCallsLength(buffers: seq<Handle>, memory: seq<Handle>)
    requires |buffers| <= |memory|
    ensures |StorageCalls(buffers, memory)| == 2 * |buffers|
    ensures forall k :: 0 <= k < |buffers| ==>
      StorageCalls(buffers, memory)[2 * k] == Device.Destroy(buffers[k])
      && StorageCalls(buffers, memory)[2 * k + 1] == Device.Destroy(memory[k])
  {
    if buffers != [] {
      StorageCallsLength(buffers[..|buffers| - 1], memory);
    }
  }

  /**
   * A graphics-only pipeline's teardown is exactly its two shader modules
   * and its pipeline; a particle pipeline's also destroys its three compute
   * objects and frees one buffer and one memory per frame in flight.
   */
  lemma TeardownOfEachKind(vert: Handle, frag: Handle, comp: Handle, pipe: Handle, cpipe: Handle, clayout: Handle)
    requires comp.Live? && cpipe.Live? && clayout.Live?
    ensures TeardownCalls(vert, frag, Null, pipe, Null, Null, [], [])
      == [Device.Destroy(vert), Device.Destroy(frag), Device.Destroy(pipe)]
    ensures |TeardownCalls(vert, frag, comp, pipe, cpipe, clayout,
                           Resized([], SwapChain.MAX_FRAMES_IN_FLIGHT), Resized([], SwapChain.MAX_FRAMES_IN_FLIGHT))|
      == 6 + 2 * SwapChain.MAX_FRAMES_IN_FLIGHT
  {
    StorageCallsLength(Resized([], SwapChain.MAX_FRAMES_IN_FLIGHT), Resized([], SwapChain.MAX_FRAMES_IN_FLIGHT));
  }
}
