/**
 * The part of FrgDevice the offscreen attachments and meshes use: it hands
 * out new object handles, keeps the log of object creations and
 * destructions the core asks of the driver, and probes formats. The
 * driver's answers (new handles, format properties) are the device's state
 * and parameters; creation failures are not modelled.
 */
module Device {
  import opened VkTypes
  import Engine

  datatype Filter = Nearest | Linear
  datatype AddressMode = ClampToEdge | Repeat

  /** One vkCreate*, vkAllocate*, vkUpdate*, vkDestroy* or vkFree* call. */
  datatype DeviceCall =
      /** createImageWithInfo: a 2D image with its dedicated memory. */
    | CreateImage(image: Handle, memory: Handle, info: Image)
    | CreateView(view: Handle, ofImage: Handle, viewFormat: Format)
    | CreateSampler(newSampler: Handle, filter: Filter, addressMode: AddressMode)
    | CreateRenderPass(newPass: Handle, desc: RenderPass)
    | CreateFramebuffer(framebuffer: Handle, forPass: Handle, views: seq<Handle>, size: Extent)
      /** createBuffer: a buffer of the given byte size with its memory. */
    | CreateBuffer(buffer: Handle, bufferMemory: Handle, byteSize: nat)
    | CreateSetLayout(setLayout: Handle, bindings: seq<LayoutBinding>)
    | CreatePool(pool: Handle, sizes: seq<PoolSize>, maxSets: nat)
    | AllocateSet(descriptorSet: Handle, fromPool: Handle, withLayout: Handle)
    | UpdateSets(writes: seq<DescriptorWrite>)
    | CreatePipelineLayout(pipelineLayout: Handle, setLayouts: seq<Handle>, pushConstantBytes: nat)
    | CreateShaderModule(shaderModule: Handle)
      /** vkCreateGraphicsPipelines with the layout, render pass and subpass of its config. */
    | CreateGraphicsPipeline(pipeline: Handle, withPipelineLayout: Handle, forRenderPass: Handle, subpass: nat)
    | CreateComputePipeline(computePipeline: Handle, withComputeLayout: Handle)
      /** Any vkDestroy* or vkFreeMemory. */
    | Destroy(destroyed: Handle)

  /** One Destroy call per live handle, in order; null handles are skipped. */
  function DestroyCalls(hs: seq<Handle>): (r: seq<DeviceCall>)
    ensures |r| <= |hs|
    ensures forall c :: c in r ==> c.Destroy? && c.destroyed.Live? && c.destroyed in hs
  {
    if hs == [] then []
    else (if hs[0].Live? then [Destroy(hs[0])] else []) + DestroyCalls(hs[1..])
  }

  lemma {:induction false} DestroyCallsDestroysEveryLive(hs: seq<Handle>, h: Handle)
    ensures Destroy(h) in DestroyCalls(hs) <==> h in hs && h.Live?
  {
    if hs != [] {
      DestroyCallsDestroysEveryLive(hs[1..], h);
      assert hs == [hs[0]] + hs[1..];
    }
  }

  lemma {:induction false} DestroyCallsOfNulls(hs: seq<Handle>)
    requires forall k :: 0 <= k < |hs| ==> hs[k] == Null
    ensures DestroyCalls(hs) == []
  {
    if hs != [] {
      DestroyCallsOfNulls(hs[1..]);
    }
  }

  lemma {:induction false} DestroyCallsOfLive(hs: seq<Handle>)
    requires forall k :: 0 <= k < |hs| ==> hs[k].Live?
    ensures DestroyCalls(hs) == seq(|hs|, k requires 0 <= k < |hs| => Destroy(hs[k]))
  {
    if hs != [] {
      DestroyCallsOfLive(hs[1..]);
    }
  }

  lemma {:induction false} DestroyCallsAppend(a: seq<Handle>, b: seq<Handle>)
    ensures DestroyCalls(a + b) == DestroyCalls(a) + DestroyCalls(b)
  {
    if a == [] {
      assert a + b == b;
    } else {
      assert (a + b)[1..] == a[1..] + b;
      DestroyCallsAppend(a[1..], b);
    }
  }

  /** The handles of the objects a call creates. */
  function Created(c: DeviceCall): seq<Handle>
  {
    match c
    case CreateImage(image, memory, _) => [image, memory]
    case CreateView(view, _, _) => [view]
    case CreateSampler(s, _, _) => [s]
    case CreateRenderPass(p, _) => [p]
    case CreateFramebuffer(f, _, _, _) => [f]
    case CreateBuffer(b, m, _) => [b, m]
    case CreateSetLayout(l, _) => [l]
    case CreatePool(p, _, _) => [p]
    case AllocateSet(s, _, _) => [s]
    case UpdateSets(_) => []
    case CreatePipelineLayout(l, _, _) => [l]
    case CreateShaderModule(m) => [m]
    case CreateGraphicsPipeline(p, _, _, _) => [p]
    case CreateComputePipeline(p, _) => [p]
    case Destroy(_) => []
  }

  /** Some call of the list created the object h. */
  predicate CreatedBy(calls: seq<DeviceCall>, h: Handle)
  {
    exists k :: 0 <= k < |calls| && h in Created(calls[k])
  }

  /** Some call in the log created view v with format f. */
  predicate ViewCreatedWith(calls: seq<DeviceCall>, v: Handle, f: Format)
  {
    exists i :: 0 <= i < |calls| && calls[i].CreateView? && calls[i].view == v && calls[i].viewFormat == f
  }

  /**
   * A framebuffer agrees with a render pass: one view per attachment, in
   * order, each created (somewhere in the log) with its attachment's format.
   */
  predicate FramebufferAgrees(calls: seq<DeviceCall>, views: seq<Handle>, rp: RenderPass)
  {
    |views| == |rp.attachments|
    && forall k :: 0 <= k < |views| ==> ViewCreatedWith(calls, views[k], rp.attachments[k].format)
  }

  /** All handles in the list are null. */
  predicate AllNull(hs: seq<Handle>)
  {
    forall k :: 0 <= k < |hs| ==> hs[k] == Null
  }

  /** All handles in the list are live. */
  predicate AllLive(hs: seq<Handle>)
  {
    forall k :: 0 <= k < |hs| ==> hs[k].Live?
  }

  class FrgDevice {
    /** The identifier the driver gives the next object it creates. */
    var nextHandle: nat
    /** Every creation and destruction asked of the driver, in order. */
    var calls: seq<DeviceCall>
    /** vkGetPhysicalDeviceFormatProperties for the physical device. */
    const formatProperties: Format -> Engine.FormatProperties

    constructor(props: Format -> Engine.FormatProperties)
      ensures nextHandle == 0 && calls == [] && formatProperties == props
    {
      nextHandle := 0;
      calls := [];
      formatProperties := props;
    }

    /** The driver returns a handle to a new object. */
    method NewHandle() returns (h: Handle)
      modifies this`nextHandle
      ensures h == Live(old(nextHandle)) && nextHandle == old(nextHandle) + 1
    {
      h := Live(nextHandle);
      nextHandle := nextHandle + 1;
    }

    method Record(c: DeviceCall)
      modifies this`calls
      ensures calls == old(calls) + [c]
    {
      calls := calls + [c];
    }

    /**
     * findSupportedFormat: the first candidate whose properties under the
     * tiling carry all the features, probed as in Engine::find_supported_format.
     */
    function FindSupportedFormat(candidates: seq<Format>, tiling: Engine.Tiling,
                                 features: set<Engine.FormatFeature>): (r: Result<Format>)
      ensures r.Ok? ==> r.value in candidates && Engine.Supports(formatProperties, tiling, features, r.value)
      ensures r.Err? <==> forall j :: 0 <= j < |candidates| ==>
        !Engine.Supports(formatProperties, tiling, features, candidates[j])
    {
      Engine.FindSupportedFormat(candidates, tiling, features, formatProperties)
    }
  }

  /** Destroys each live handle of the list, in order. */
  method ReleaseAll(device: FrgDevice, hs: seq<Handle>)
    modifies device`calls
    ensures device.calls == old(device.calls) + DestroyCalls(hs)
  {
    var i := 0;
    while i < |hs|
      invariant i <= |hs|
      invariant device.calls == old(device.calls) + DestroyCalls(hs[..i])
    {
      assert hs[..i + 1] == hs[..i] + [hs[i]];
      DestroyCallsAppend(hs[..i], [hs[i]]);
      if hs[i].Live? {
        device.Record(Destroy(hs[i]));
      }
      i := i + 1;
    }
    assert hs[..i] == hs;
  }
}
