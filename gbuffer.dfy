/**
 * FrgGBuffer: the offscreen position, normal and depth attachments the
 * geometry pass writes and the SSAO pass samples, with their sampler, render
 * pass and framebuffer. Every handle is null or live; cleanup destroys and
 * nulls the live ones, resize tears everything down and rebuilds it at the
 * new extent. The depth format is probed once, when the G-buffer is made.
 */
module GBuffer {
  import opened VkTypes
  import Engine
  import Device

  /** POSITION_FORMAT and NORMAL_FORMAT. */
  const POSITION_FORMAT: Format := R16G16B16A16Sfloat
  const NORMAL_FORMAT: Format := R16G16B16A16Sfloat

  /** The three attachments in attachment order: position, normal, depth. */
  function GBufferAttachments(depthFormat: Format): seq<Attachment>
  {
    [Attachment(POSITION_FORMAT, 1, LoadClear, StoreStore, LayoutUndefined, ShaderReadOnlyOptimal),
     Attachment(NORMAL_FORMAT, 1, LoadClear, StoreStore, LayoutUndefined, ShaderReadOnlyOptimal),
     Attachment(depthFormat, 1, LoadClear, StoreStore, LayoutUndefined, DepthStencilReadOnlyOptimal)]
  }

  /** Before the pass: earlier reads finish before the attachments are written. */
  const GBUFFER_DEPENDENCY_IN := Dependency(
    External, Index(0),
    {BottomOfPipe}, {ColorAttachmentOutput, EarlyFragmentTests},
    {MemoryRead}, {ColorAttachmentWrite, DepthStencilAttachmentWrite},
    true)

  /** After the pass: attachment writes finish before fragment shaders read them. */
  const GBUFFER_DEPENDENCY_OUT := Dependency(
    Index(0), External,
    {ColorAttachmentOutput, LateFragmentTests}, {FragmentShader},
    {ColorAttachmentWrite, DepthStencilAttachmentWrite}, {ShaderRead},
    true)

  /** createRenderPass: two colour references and one depth reference. */
  function GBufferRenderPass(depthFormat: Format): RenderPass
  {
    RenderPass(GBufferAttachments(depthFormat), [0, 1], Some(2),
               [GBUFFER_DEPENDENCY_IN, GBUFFER_DEPENDENCY_OUT])
  }

  /**
   * The G-buffer pass clears and stores every single-sampled attachment,
   * leaves the colour attachments readable by shaders and the depth
   * attachment depth-read-only, and is fenced by exactly an incoming
   * dependency into attachment writes and an outgoing one into
   * fragment-shader reads.
   */
  lemma GBufferPassShape(depthFormat: Format)
    ensures var rp := GBufferRenderPass(depthFormat);
      ClearsAndStoresAll(rp) && RefsWellFormed(rp) && ByRegionAroundSubpass(rp)
      && |rp.attachments| == 3 && rp.colorRefs == [0, 1] && rp.depthRef == Some(2)
      && rp.attachments[0].format == POSITION_FORMAT && rp.attachments[1].format == NORMAL_FORMAT
      && rp.attachments[2].format == depthFormat
      && (forall k :: 0 <= k < |rp.colorRefs| ==> rp.attachments[rp.colorRefs[k]].final == ShaderReadOnlyOptimal)
      && rp.attachments[2].final == DepthStencilReadOnlyOptimal
      && |rp.dependencies| == 2
      && rp.dependencies[0].src == External && rp.dependencies[1].dst == External
      && rp.dependencies[0].dstAccess == {ColorAttachmentWrite, DepthStencilAttachmentWrite}
      && rp.dependencies[1].dstStages == {FragmentShader} && rp.dependencies[1].dstAccess == {ShaderRead}
  {
  }

  /** createImages: three single-sampled images of the extent, each with its memory. */
  function ImageCalls(extent: Extent, depthFormat: Format,
                      positionImage: Handle, positionMemory: Handle,
                      normalImage: Handle, normalMemory: Handle,
                      depthImage: Handle, depthMemory: Handle): seq<Device.DeviceCall>
  {
    [Device.CreateImage(positionImage, positionMemory, Image(extent, POSITION_FORMAT, 1)),
     Device.CreateImage(normalImage, normalMemory, Image(extent, NORMAL_FORMAT, 1)),
     Device.CreateImage(depthImage, depthMemory, Image(extent, depthFormat, 1))]
  }

  /** createImageViews: one view per image, in the image's format. */
  function ViewCalls(depthFormat: Format,
                     positionImageView: Handle, positionImage: Handle,
                     normalImageView: Handle, normalImage: Handle,
                     depthImageView: Handle, depthImage: Handle): seq<Device.DeviceCall>
  {
    [Device.CreateView(positionImageView, positionImage, POSITION_FORMAT),
     Device.CreateView(normalImageView, normalImage, NORMAL_FORMAT),
     Device.CreateView(depthImageView, depthImage, depthFormat)]
  }

  /**
   * createSampler, createRenderPass, createFramebuffer: a nearest,
   * edge-clamped sampler, the render pass, and a framebuffer of the extent
   * over the three views in attachment order.
   */
  function PassObjectCalls(extent: Extent, depthFormat: Format,
                           sampler: Handle, renderPass: Handle, framebuffer: Handle,
                           positionImageView: Handle, normalImageView: Handle,
                           depthImageView: Handle): seq<Device.DeviceCall>
  {
    [Device.CreateSampler(sampler, Device.Nearest, Device.ClampToEdge),
     Device.CreateRenderPass(renderPass, GBufferRenderPass(depthFormat)),
     Device.CreateFramebuffer(framebuffer, renderPass,
                              [positionImageView, normalImageView, depthImageView], extent)]
  }

  /** Twelve null handles. */
  lemma AllNullOfTwelve(hs: seq<Handle>)
    requires |hs| == 12
    requires hs[0] == Null && hs[1] == Null && hs[2] == Null && hs[3] == Null
    requires hs[4] == Null && hs[5] == Null && hs[6] == Null && hs[7] == Null
    requires hs[8] == Null && hs[9] == Null && hs[10] == Null && hs[11] == Null
    ensures Device.AllNull(hs)
  {
  }

  class FrgGBuffer {
    const device: Device.FrgDevice
    var extent: Extent
    /** Chosen when the G-buffer is made and kept across resizes. */
    const depthFormat: Format

    var positionImage: Handle
    var positionMemory: Handle
    var positionImageView: Handle
    var normalImage: Handle
    var normalMemory: Handle
    var normalImageView: Handle
    var depthImage: Handle
    var depthMemory: Handle
    var depthImageView: Handle
    var sampler: Handle
    var renderPass: Handle
    var framebuffer: Handle

    /** Every handle, in the order cleanup releases them. */
    function Handles(): seq<Handle>
      reads this
    {
      [framebuffer, renderPass, sampler,
       positionImageView, positionImage, positionMemory,
       normalImageView, normalImage, normalMemory,
       depthImageView, depthImage, depthMemory]
    }

    /** What building every attachment asks of the driver, in creation order. */
    function CreationCalls(): seq<Device.DeviceCall>
      reads this
    {
      ImageCalls(extent, depthFormat, positionImage, positionMemory, normalImage, normalMemory,
                 depthImage, depthMemory)
      + ViewCalls(depthFormat, positionImageView, positionImage, normalImageView, normalImage,
                  depthImageView, depthImage)
      + PassObjectCalls(extent, depthFormat, sampler, renderPass, framebuffer,
                        positionImageView, normalImageView, depthImageView)
    }

    /**
     * The constructor with the depth format already probed (see NewGBuffer):
     * every attachment is built at the extent.
     */
    constructor(device: Device.FrgDevice, extent: Extent, depthFormat: Format)
      modifies device`calls, device`nextHandle
      ensures this.device == device && this.extent == extent && this.depthFormat == depthFormat
      ensures Device.AllLive(Handles())
      ensures device.calls == old(device.calls) + CreationCalls()
    {
      this.device := device;
      this.extent := extent;
      this.depthFormat := depthFormat;
      positionImage, positionMemory, positionImageView := Null, Null, Null;
      normalImage, normalMemory, normalImageView := Null, Null, Null;
      depthImage, depthMemory, depthImageView := Null, Null, Null;
      sampler, renderPass, framebuffer := Null, Null, Null;
      new;
      CreateAll();
    }

    /** createImages, createImageViews, createSampler, createRenderPass, createFramebuffer. */
    method CreateAll()
      modifies this`positionImage, this`positionMemory, this`positionImageView,
               this`normalImage, this`normalMemory, this`normalImageView,
               this`depthImage, this`depthMemory, this`depthImageView,
               this`sampler, this`renderPass, this`framebuffer,
               device`calls, device`nextHandle
      ensures Device.AllLive(Handles())
      ensures device.calls == old(device.calls) + CreationCalls()
    {
      CreateImages();
      CreateImageViews();
      CreatePassObjects();
    }

    /** createSampler, createRenderPass and createFramebuffer. */
    method CreatePassObjects()
      modifies this`sampler, this`renderPass, this`framebuffer, device`calls, device`nextHandle
      ensures sampler.Live? && renderPass.Live? && framebuffer.Live?
      ensures device.calls == old(device.calls)
        + PassObjectCalls(extent, depthFormat, sampler, renderPass, framebuffer,
                          positionImageView, normalImageView, depthImageView)
    {
      sampler := device.NewHandle();
      device.Record(Device.CreateSampler(sampler, Device.Nearest, Device.ClampToEdge));
      renderPass := device.NewHandle();
      device.Record(Device.CreateRenderPass(renderPass, GBufferRenderPass(depthFormat)));
      framebuffer := device.NewHandle();
      device.Record(Device.CreateFramebuffer(framebuffer, renderPass,
                                             [positionImageView, normalImageView, depthImageView], extent));
    }

    method CreateImages()
      modifies this`positionImage, this`positionMemory, this`normalImage, this`normalMemory,
               this`depthImage, this`depthMemory, device`calls, device`nextHandle
      ensures positionImage.Live? && positionMemory.Live? && normalImage.Live? && normalMemory.Live?
        && depthImage.Live? && depthMemory.Live?
      ensures device.calls == old(device.calls)
        + ImageCalls(extent, depthFormat, positionImage, positionMemory, normalImage, normalMemory,
                     depthImage, depthMemory)
    {
      positionImage := device.NewHandle();
      positionMemory := device.NewHandle();
      device.Record(Device.CreateImage(positionImage, positionMemory, Image(extent, POSITION_FORMAT, 1)));
      normalImage := device.NewHandle();
      normalMemory := device.NewHandle();
      device.Record(Device.CreateImage(normalImage, normalMemory, Image(extent, NORMAL_FORMAT, 1)));
      depthImage := device.NewHandle();
      depthMemory := device.NewHandle();
      device.Record(Device.CreateImage(depthImage, depthMemory, Image(extent, depthFormat, 1)));
    }

    method CreateImageViews()
      modifies this`positionImageView, this`normalImageView, this`depthImageView,
               device`calls, device`nextHandle
      ensures positionImageView.Live? && normalImageView.Live? && depthImageView.Live?
      ensures device.calls == old(device.calls)
        + ViewCalls(depthFormat, positionImageView, positionImage, normalImageView, normalImage,
                    depthImageView, depthImage)
    {
      positionImageView := device.NewHandle();
      device.Record(Device.CreateView(positionImageView, positionImage, POSITION_FORMAT));
      normalImageView := device.NewHandle();
      device.Record(Device.CreateView(normalImageView, normalImage, NORMAL_FORMAT));
      depthImageView := device.NewHandle();
      device.Record(Device.CreateView(depthImageView, depthImage, depthFormat));
    }

    /**
     * cleanup: each live handle is destroyed and nulled, in Handles() order;
     * afterwards every handle is null, so a second cleanup asks nothing of the
     * driver.
     */
    method Cleanup()
      modifies this`positionImage, this`positionMemory, this`positionImageView,
               this`normalImage, this`normalMemory, this`normalImageView,
               this`depthImage, this`depthMemory, this`depthImageView,
               this`sampler, this`renderPass, this`framebuffer, device`calls
      ensures Device.AllNull(Handles())
      ensures device.calls == old(device.calls) + Device.DestroyCalls(old(Handles()))
      ensures old(Device.AllNull(Handles())) ==> device.calls == old(device.calls)
    {
      ghost var hs := Handles();
      Device.ReleaseAll(device, Handles());
      NullAll();
      AllNullOfTwelve(Handles());
      if Device.AllNull(hs) {
        Device.DestroyCallsOfNulls(hs);
      }
    }

    /** Sets every handle to VK_NULL_HANDLE. */
    method NullAll()
      modifies this`positionImage, this`positionMemory, this`positionImageView,
               this`normalImage, this`normalMemory, this`normalImageView,
               this`depthImage, this`depthMemory, this`depthImageView,
               this`sampler, this`renderPass, this`framebuffer
      ensures framebuffer == Null && renderPass == Null && sampler == Null
      ensures positionImageView == Null && positionImage == Null && positionMemory == Null
      ensures normalImageView == Null && normalImage == Null && normalMemory == Null
      ensures depthImageView == Null && depthImage == Null && depthMemory == Null
    {
      framebuffer, renderPass, sampler := Null, Null, Null;
      positionImageView, positionImage, positionMemory := Null, Null, Null;
      normalImageView, normalImage, normalMemory := Null, Null, Null;
      depthImageView, depthImage, depthMemory := Null, Null, Null;
    }

    /**
     * resize: cleanup, then every attachment rebuilt at the new extent; the
     * depth format is not probed again.
     */
    method Resize(newExtent: Extent)
      modifies this, device`calls, device`nextHandle
      ensures extent == newExtent
      ensures Device.AllLive(Handles())
      ensures device.calls == old(device.calls) + Device.DestroyCalls(old(Handles())) + CreationCalls()
    {
      Cleanup();
      extent := newExtent;
      CreateAll();
    }

    /** getPositionDescriptor. */
    function PositionDescriptor(): ImageInfo
      reads this
    {
      ImageInfo(sampler, positionImageView, ShaderReadOnlyOptimal)
    }

    /** getNormalDescriptor. */
    function NormalDescriptor(): ImageInfo
      reads this
    {
      ImageInfo(sampler, normalImageView, ShaderReadOnlyOptimal)
    }

    /** getDepthDescriptor. */
    function DepthDescriptor(): ImageInfo
      reads this
    {
      ImageInfo(sampler, depthImageView, DepthStencilReadOnlyOptimal)
    }
  }

  const GBUFFER_NO_DEPTH_FORMAT := Engine.FORMAT_NOT_FOUND

  /**
   * The FrgGBuffer constructor: the depth format is the first of D32, D32S8,
   * D24S8 the device supports as an optimally tiled depth attachment; when
   * none is, the probe's error is raised and nothing is created.
   */
  method NewGBuffer(device: Device.FrgDevice, extent: Extent) returns (r: Result<FrgGBuffer>)
    modifies device`calls, device`nextHandle
    ensures r.Err? <==> Engine.FindDepthFormat(device.formatProperties).Err?
    ensures r.Err? ==> r.msg == GBUFFER_NO_DEPTH_FORMAT && device.calls == old(device.calls)
    ensures r.Ok? ==>
      (r.value.depthFormat == Engine.FindDepthFormat(device.formatProperties).value
       && r.value.extent == extent && r.value.device == device
       && Device.AllLive(r.value.Handles())
       && device.calls == old(device.calls) + r.value.CreationCalls())
  {
    var probed := device.FindSupportedFormat(Engine.DEPTH_CANDIDATES, Engine.OptimalTiling,
                                             {Engine.DepthStencilAttachmentFeature});
    if probed.Err? {
      r := Err(probed.msg);
    } else {
      var g := new FrgGBuffer(device, extent, probed.value);
      r := Ok(g);
    }
  }

  /**
   * Every image is single-sampled at the extent; the framebuffer is the
   * extent's size, belongs to the G-buffer's render pass and presents
   * position, normal and depth views in the render pass's attachment order
   * and formats.
   */
  lemma CreationDescribesAttachments(g: FrgGBuffer)
    ensures var calls := g.CreationCalls();
      (forall k :: 0 <= k < |calls| && calls[k].CreateImage? ==>
         calls[k].info.extent == g.extent && calls[k].info.samples == 1)
      && calls[|calls| - 1] == Device.CreateFramebuffer(g.framebuffer, g.renderPass,
                                                        calls[|calls| - 1].views, g.extent)
      && calls[|calls| - 2] == Device.CreateRenderPass(g.renderPass, GBufferRenderPass(g.depthFormat))
      && Device.FramebufferAgrees(calls, calls[|calls| - 1].views, GBufferRenderPass(g.depthFormat))
  {
    var calls := g.CreationCalls();
    var views := calls[|calls| - 1].views;
    assert calls[3] == Device.CreateView(views[0], calls[3].ofImage, POSITION_FORMAT);
    assert calls[4] == Device.CreateView(views[1], calls[4].ofImage, NORMAL_FORMAT);
    assert calls[5] == Device.CreateView(views[2], calls[5].ofImage, g.depthFormat);
  }

  /** Every object the build creates is one of the G-buffer's handles. */
  lemma CreatedAreHandles(g: FrgGBuffer)
    ensures forall h :: Device.CreatedBy(g.CreationCalls(), h) ==> h in g.Handles()
  {
    var calls := g.CreationCalls();
    forall h | Device.CreatedBy(calls, h)
      ensures h in g.Handles()
    {
      var k :| 0 <= k < |calls| && h in Device.Created(calls[k]);
      assert k < 9;
    }
  }

  /** Every one of the G-buffer's handles is created by the build. */
  lemma HandlesAreCreated(g: FrgGBuffer)
    ensures forall h :: h in g.Handles() ==> Device.CreatedBy(g.CreationCalls(), h)
  {
    var hs := g.Handles();
    var calls := g.CreationCalls();
    forall h | h in hs
      ensures Device.CreatedBy(calls, h)
    {
      var j :| 0 <= j < 12 && hs[j] == h;
      var w := [8, 7, 6, 3, 0, 0, 4, 1, 1, 5, 2, 2][j];
      assert h in Device.Created(calls[w]);
    }
  }

  /**
   * cleanup after a build destroys exactly the objects the build created,
   * one destruction per handle.
   */
  lemma CleanupUndoesCreation(g: FrgGBuffer)
    requires Device.AllLive(g.Handles())
    ensures forall h :: Device.Destroy(h) in Device.DestroyCalls(g.Handles()) <==>
      Device.CreatedBy(g.CreationCalls(), h)
    ensures |Device.DestroyCalls(g.Handles())| == |g.Handles()|
  {
    var hs := g.Handles();
    CreatedAreHandles(g);
    HandlesAreCreated(g);
    forall h
      ensures Device.Destroy(h) in Device.DestroyCalls(hs) <==> Device.CreatedBy(g.CreationCalls(), h)
    {
      Device.DestroyCallsDestroysEveryLive(hs, h);
    }
    Device.DestroyCallsOfLive(hs);
  }

  /**
   * The descriptors the SSAO pass samples name the G-buffer's views with the
   * shared sampler, each in the layout the render pass leaves its attachment in.
   */
  lemma DescriptorsMatchAttachments(g: FrgGBuffer)
    ensures var rp := GBufferRenderPass(g.depthFormat);
      g.PositionDescriptor().view == g.positionImageView
      && g.NormalDescriptor().view == g.normalImageView
      && g.DepthDescriptor().view == g.depthImageView
      && g.PositionDescriptor().sampler == g.sampler && g.NormalDescriptor().sampler == g.sampler
      && g.DepthDescriptor().sampler == g.sampler
      && g.PositionDescriptor().layout == rp.attachments[0].final
      && g.NormalDescriptor().layout == rp.attachments[1].final
      && g.DepthDescriptor().layout == rp.attachments[2].final
  {
  }
}
