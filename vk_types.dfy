/**
 * Shared vocabulary of the renderer model: opaque Vulkan handles, the
 * enumerations the core code branches on, and the Option/Result wrappers
 * used in place of nullable pointers and thrown exceptions.
 */
module VkTypes {

  datatype Option<T> = None | Some(value: T)

  /** An exception thrown by the source, carrying its message. */
  datatype Result<T> = Ok(value: T) | Err(msg: string)

  /** A Vulkan object handle: either VK_NULL_HANDLE or some live object. */
  datatype Handle = Null | Live(id: nat)

  predicate IsLive(h: Handle) { h.Live? }

  /** std::vector::resize over handles: keeps a prefix, pads with null handles. */
  function Resized(s: seq<Handle>, n: nat): (r: seq<Handle>)
    ensures |r| == n
    ensures forall k :: 0 <= k < n ==> r[k] == (if k < |s| then s[k] else Null)
  {
    if n <= |s| then s[..n] else s + seq(n - |s|, _ => Null)
  }

  /** Largest value of a 32-bit unsigned integer (UINT32_MAX). */
  const UINT32_MAX: nat := 0xFFFF_FFFF

  /** VkExtent2D: width and height are 32-bit unsigned. */
  datatype Extent = Extent(width: nat, height: nat)

  /** The VkFormat values the core names; every other value is OtherFormat. */
  datatype Format =
    | B8G8R8A8Srgb
    | R16G16B16A16Sfloat
    | R8Unorm
    | D32Sfloat
    | D32SfloatS8Uint
    | D24UnormS8Uint
    | R32G32B32Sfloat
    | R32G32Sfloat
    | R32G32B32A32Sfloat
    | R8G8B8A8Srgb
    | OtherFormat(code: nat)

  /** The VkResult values the core distinguishes. */
  datatype VkResult = Success | Suboptimal | ErrorOutOfDate | OtherResult(code: int)

  /** VkImageLayout values used by the core. */
  datatype ImageLayout =
    | LayoutUndefined
    | TransferDstOptimal
    | ShaderReadOnlyOptimal
    | DepthStencilReadOnlyOptimal
    | ColorAttachmentOptimal
    | DepthStencilAttachmentOptimal
    | PresentSrc
    | OtherLayout(code: nat)

  /** VkDescriptorType values used by the core. */
  datatype DescriptorType = Sampler | SampledImage | CombinedImageSampler | UniformBuffer | StorageBuffer

  /** VkAttachmentLoadOp / VkAttachmentStoreOp. */
  datatype LoadOp = LoadClear | LoadLoad | LoadDontCare
  datatype StoreOp = StoreStore | StoreDontCare

  /** Pipeline stages and access kinds, as sets of named bits. */
  datatype Stage =
    | TopOfPipe | BottomOfPipe | Transfer | FragmentShader
    | ColorAttachmentOutput | EarlyFragmentTests | LateFragmentTests
  datatype Access =
    | MemoryRead | ColorAttachmentWrite | DepthStencilAttachmentWrite
    | ShaderRead | TransferWrite

  /** VK_SUBPASS_EXTERNAL or a subpass index. */
  datatype Subpass = External | Index(n: nat)

  /** A VkSubpassDependency; byRegion is VK_DEPENDENCY_BY_REGION_BIT. */
  datatype Dependency = Dependency(
    src: Subpass, dst: Subpass,
    srcStages: set<Stage>, dstStages: set<Stage>,
    srcAccess: set<Access>, dstAccess: set<Access>,
    byRegion: bool)

  /** A VkAttachmentDescription (stencil ops are DONT_CARE throughout and omitted). */
  datatype Attachment = Attachment(
    format: Format, samples: nat,
    load: LoadOp, store: StoreOp,
    initial: ImageLayout, final: ImageLayout)

  /** A render pass with one subpass: its attachments, colour refs, depth ref, dependencies. */
  datatype RenderPass = RenderPass(
    attachments: seq<Attachment>,
    colorRefs: seq<nat>,
    depthRef: Option<nat>,
    dependencies: seq<Dependency>)

  /** Every attachment is single-sampled, starts undefined, is cleared on load and stored. */
  predicate ClearsAndStoresAll(rp: RenderPass)
  {
    forall k :: 0 <= k < |rp.attachments| ==>
      rp.attachments[k].samples == 1 && rp.attachments[k].initial == LayoutUndefined
      && rp.attachments[k].load == LoadClear && rp.attachments[k].store == StoreStore
  }

  /** The subpass's references name distinct attachments of the pass. */
  predicate RefsWellFormed(rp: RenderPass)
  {
    (forall k :: 0 <= k < |rp.colorRefs| ==> rp.colorRefs[k] < |rp.attachments|)
    && (forall j, k :: 0 <= j < k < |rp.colorRefs| ==> rp.colorRefs[j] != rp.colorRefs[k])
    && (rp.depthRef.Some? ==> rp.depthRef.value < |rp.attachments| && rp.depthRef.value !in rp.colorRefs)
  }

  /** Every subpass dependency is by region and links the one subpass with the outside. */
  predicate ByRegionAroundSubpass(rp: RenderPass)
  {
    forall k :: 0 <= k < |rp.dependencies| ==>
      (rp.dependencies[k].byRegion
       && ((rp.dependencies[k].src == External && rp.dependencies[k].dst == Index(0))
           || (rp.dependencies[k].src == Index(0) && rp.dependencies[k].dst == External)))
  }

  /** A VkDescriptorSetLayoutBinding without stage flags. */
  datatype LayoutBinding = LayoutBinding(binding: nat, kind: DescriptorType, count: nat)

  /** A VkDescriptorPoolSize. */
  datatype PoolSize = PoolSize(kind: DescriptorType, count: nat)

  /** Sum of the descriptors of one type in a list of pool sizes. */
  function PoolCount(sizes: seq<PoolSize>, t: DescriptorType): nat
  {
    if sizes == [] then 0
    else (if sizes[0].kind == t then sizes[0].count else 0) + PoolCount(sizes[1..], t)
  }

  /** A VkDescriptorImageInfo. */
  datatype ImageInfo = ImageInfo(sampler: Handle, view: Handle, layout: ImageLayout)

  /** A VkDescriptorBufferInfo. */
  datatype BufferInfo = BufferInfo(buffer: Handle, offset: nat, range: nat)

  datatype WritePayload = ImagePayload(images: seq<ImageInfo>) | BufferPayload(info: BufferInfo)

  /** A VkWriteDescriptorSet. */
  datatype DescriptorWrite = DescriptorWrite(
    dstSet: Handle, binding: nat, arrayElement: nat,
    kind: DescriptorType, count: nat, payload: WritePayload)

  /** A write lands on a binding its set layout declares, with that binding's type, within its array. */
  predicate WriteFits(w: DescriptorWrite, layout: seq<LayoutBinding>)
  {
    exists j :: 0 <= j < |layout| && layout[j].binding == w.binding && layout[j].kind == w.kind
      && w.arrayElement + w.count <= layout[j].count
  }

  predicate WritesFit(ws: seq<DescriptorWrite>, layout: seq<LayoutBinding>)
  {
    forall k :: 0 <= k < |ws| ==> WriteFits(ws[k], layout)
  }

  /** How many descriptors of one type a list of writes fills. */
  function WriteDemand(ws: seq<DescriptorWrite>, t: DescriptorType): nat
  {
    if ws == [] then 0
    else (if ws[0].kind == t then ws[0].count else 0) + WriteDemand(ws[1..], t)
  }

  /** How many descriptors of one type a set allocated with this layout takes from its pool. */
  function LayoutDemand(layout: seq<LayoutBinding>, t: DescriptorType): nat
  {
    if layout == [] then 0
    else (if layout[0].kind == t then layout[0].count else 0) + LayoutDemand(layout[1..], t)
  }

  lemma {:induction false} WriteDemandAppend(a: seq<DescriptorWrite>, b: seq<DescriptorWrite>, t: DescriptorType)
    ensures WriteDemand(a + b, t) == WriteDemand(a, t) + WriteDemand(b, t)
  {
    if a != [] {
      assert (a + b)[1..] == a[1..] + b;
      WriteDemandAppend(a[1..], b, t);
    } else {
      assert a + b == b;
    }
  }

  /** A 2D image the core creates: extent, format and sample count. */
  datatype Image = Image(extent: Extent, format: Format, samples: nat)

  /** A vector of four reals (glm::vec4); also used for colours. */
  datatype Vec4 = Vec4(x: real, y: real, z: real, w: real)
  datatype Vec3 = Vec3(x: real, y: real, z: real)
  datatype Vec2 = Vec2(x: real, y: real)

  /** A VkClearValue: a colour or a depth/stencil pair. */
  datatype ClearValue = ClearColor(color: Vec4) | ClearDepth(depth: real, stencil: nat)

  /**
   * The render passes the application records; the swap-chain pass names the
   * framebuffer it draws into by the acquired image's index.
   */
  datatype PassId = SwapChainPass(framebufferIndex: nat) | GBufferPass | SSAOPass | BlurPass

  /** A command recorded into a VkCommandBuffer (vkCmd*). */
  datatype Cmd =
      /** vkCmdBeginRenderPass on the named pass's render pass and framebuffer. */
    | BeginRenderPass(pass: PassId, area: Extent, clears: seq<ClearValue>)
      /** A viewport at the origin covering the extent, depth range [0, 1]. */
    | SetViewport(viewport: Extent)
      /** A scissor at the origin covering the extent. */
    | SetScissor(scissor: Extent)
      /** vkCmdEndRenderPass, annotated with the pass it closes. */
    | EndRenderPass(endedPass: PassId)
      /** vkCmdBindPipeline at the graphics bind point. */
    | BindPipeline(pipeline: Handle)
      /** vkCmdBindPipeline at the compute bind point. */
    | BindComputePipeline(computePipeline: Handle)
    | BindDescriptorSets(layout: Handle, descriptorSet: Handle)
      /** The SSAO pass's push constants (the projection matrix is not modelled). */
    | PushSSAOConstants(layout: Handle, noiseScale: Vec2, radius: real, bias: real, kernelSize: int)
      /** The G-buffer pass's per-object push constants, identified by the object's position in the list. */
    | PushGBufferConstants(layout: Handle, objectIndex: nat)
      /** The call to a game object's model bind, whose body is not part of this model. */
    | BindModelOf(objectIndex: nat)
    | BindVertexBuffers(vertexBuffer: Handle)
    | BindIndexBuffer(indexBuffer: Handle)
    | Draw(vertexCount: nat, instanceCount: nat)
    | DrawIndexed(indexCount: nat, instanceCount: nat)
}
