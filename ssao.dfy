/**
 * FrgSSAO: the hemisphere sample kernel and its uniform buffer, the 4x4
 * rotation-noise texture, the SSAO and blurred-SSAO targets with their
 * samplers, render passes and framebuffers. Random draws are an input
 * stream; the length glm::normalize divides by is an input too. Every
 * handle is null or live; unlike the G-buffer, cleanup and resize do not
 * null what they destroy.
 */
module SSAO {
  import opened VkTypes
  import Device

  const KERNEL_SIZE: nat := 64
  const NOISE_SIZE: nat := 4
  const RADIUS: real := 0.5
  const BIAS: real := 0.025
  const SSAO_FORMAT: Format := R8Unorm
  const NOISE_FORMAT: Format := R32G32B32A32Sfloat
  /** sizeof(glm::vec4). */
  const VEC4_BYTES: nat := 16
  /** The kernel buffer's size: one vec4 per sample. */
  const KERNEL_BYTES: nat := VEC4_BYTES * KERNEL_SIZE
  const NOISE_BYTES: nat := NOISE_SIZE * NOISE_SIZE * VEC4_BYTES

  // The sample kernel

  function Lerp(a: real, b: real, t: real): real
  {
    a + t * (b - a)
  }

  /** The length scale of sample i: lerp(0.1, 1, (i / KERNEL_SIZE)^2). */
  function Scale(i: nat): real
  {
    var t := i as real / KERNEL_SIZE as real;
    Lerp(0.1, 1.0, t * t)
  }

  /** Every sample's scale lies in [0.1, 1). */
  lemma ScaleRange(i: nat)
    requires i < KERNEL_SIZE
    ensures 0.1 <= Scale(i) < 1.0
  {
    var t := i as real / KERNEL_SIZE as real;
    assert 0.0 <= t < 1.0;
    assert t * t <= t by {
      assert t * t <= t * 1.0;
    }
  }

  /** Later samples reach further out: the scale never decreases along the kernel. */
  lemma ScaleMonotone(i: nat, j: nat)
    requires i <= j
    ensures Scale(i) <= Scale(j)
  {
    var s := i as real / KERNEL_SIZE as real;
    var t := j as real / KERNEL_SIZE as real;
    assert 0.0 <= s <= t;
    assert s * s <= s * t <= t * t;
  }

  function Vec3Scaled(v: Vec3, c: real): Vec3
  {
    Vec3(v.x * c, v.y * c, v.z * c)
  }

  /**
   * The point of the box [-1,1] x [-1,1] x [0,1] that sample i starts from,
   * from draws 4i..4i+2. C++ leaves the evaluation order of the three
   * constructor arguments unspecified; the model takes them left to right
   * (x, y, z).
   */
  function RawSample(i: nat, stream: seq<real>): Vec3
    requires 4 * i + 2 < |stream|
  {
    Vec3(stream[4 * i] * 2.0 - 1.0, stream[4 * i + 1] * 2.0 - 1.0, stream[4 * i + 2])
  }

  function LengthSquared(v: Vec3): real
  {
    v.x * v.x + v.y * v.y + v.z * v.z
  }

  /**
   * Sample i of the kernel: RawSample(i) normalised (divided by its length),
   * scaled by draw 4i+3 and by Scale(i), with w = 0. The hemisphere, w = 0
   * and unit-ball bounds proved below hold for any order of the first three
   * draws, since every draw lies in [0, 1).
   */
  function KernelSample(i: nat, stream: seq<real>, length: real): Vec4
    requires 4 * i + 3 < |stream| && length > 0.0
  {
    var raw := RawSample(i, stream);
    var s := Vec3Scaled(Vec3Scaled(Vec3Scaled(raw, 1.0 / length), stream[4 * i + 3]), Scale(i));
    Vec4(s.x, s.y, s.z, 0.0)
  }

  /** The draws of uniform_real_distribution(0, 1). */
  predicate UnitDraws(stream: seq<real>)
  {
    forall k :: 0 <= k < |stream| ==> 0.0 <= stream[k] < 1.0
  }

  /** Each sample lies in the +z hemisphere and carries w = 0. */
  lemma KernelSampleInHemisphere(i: nat, stream: seq<real>, length: real)
    requires 4 * i + 3 < |stream| && length > 0.0
    requires UnitDraws(stream)
    ensures KernelSample(i, stream, length).z >= 0.0
    ensures KernelSample(i, stream, length).w == 0.0
  {
    var z := stream[4 * i + 2];
    var r := stream[4 * i + 3];
    assert 0.0 <= z && 0.0 <= r;
    assert 1.0 / length > 0.0;
    ScaleRange(if i < KERNEL_SIZE then i else 0);
    assert Scale(i) >= 0.0 by {
      var t := i as real / KERNEL_SIZE as real;
      assert t * t >= 0.0;
    }
    assert z * (1.0 / length) >= 0.0;
    assert z * (1.0 / length) * r >= 0.0;
  }

  /** Scaling twice is scaling by the product. */
  lemma ScaledTwice(v: Vec3, a: real, b: real)
    ensures Vec3Scaled(Vec3Scaled(v, a), b) == Vec3Scaled(v, a * b)
  {
    assert v.x * a * b == v.x * (a * b) && v.y * a * b == v.y * (a * b) && v.z * a * b == v.z * (a * b);
  }

  /** Scaling by k multiplies the squared length by k^2. */
  lemma ScaledLengthSquared(v: Vec3, k: real)
    ensures LengthSquared(Vec3Scaled(v, k)) == LengthSquared(v) * (k * k)
  {
    assert (v.x * k) * (v.x * k) == v.x * v.x * (k * k);
    assert (v.y * k) * (v.y * k) == v.y * v.y * (k * k);
    assert (v.z * k) * (v.z * k) == v.z * v.z * (k * k);
  }

  /** A product of two numbers in [0, 1) lies in [0, 1). */
  lemma ProductInUnitRange(r: real, c: real)
    requires 0.0 <= r < 1.0 && 0.0 <= c < 1.0
    ensures 0.0 <= r * c < 1.0
  {
    assert r * c <= r * 1.0;
  }

  /** A number in [0, 1) squares to below 1. */
  lemma SquareBelowOne(q: real)
    requires 0.0 <= q < 1.0
    ensures q * q < 1.0
  {
    assert q * q <= q * 1.0;
  }

  /** Dividing by a length and multiplying by q scales its square, l2, to q^2. */
  lemma CancelLength(l2: real, length: real, inv: real, q: real)
    requires inv * length == 1.0 && l2 == length * length
    ensures l2 * ((inv * q) * (inv * q)) == q * q
  {
    var u := inv * length;
    assert l2 * ((inv * q) * (inv * q)) == (u * u) * (q * q);
    assert u * u == 1.0;
  }

  /** Normalising v by its length and scaling by q leaves a squared length of q^2. */
  lemma NormalisedSquare(v: Vec3, length: real, q: real)
    requires length > 0.0 && length * length == LengthSquared(v)
    ensures LengthSquared(Vec3Scaled(v, (1.0 / length) * q)) == q * q
  {
    var inv := 1.0 / length;
    assert inv * length == 1.0;
    var w := Vec3Scaled(v, inv * q);
    ScaledLengthSquared(v, inv * q);
    assert LengthSquared(w) == LengthSquared(v) * ((inv * q) * (inv * q));
    CancelLength(LengthSquared(v), length, inv, q);
  }

  /** Scaling by a, then r, then c, is scaling by a * (r * c). */
  lemma ScaledThrice(v: Vec3, a: real, r: real, c: real)
    ensures Vec3Scaled(Vec3Scaled(Vec3Scaled(v, a), r), c) == Vec3Scaled(v, a * (r * c))
  {
    ScaledTwice(v, a, r);
    ScaledTwice(v, a * r, c);
    assert a * r * c == a * (r * c);
  }

  /** Normalising v and scaling it by r and then c, both in [0, 1), lands inside the unit ball. */
  lemma NormalisedScaledInUnitBall(v: Vec3, length: real, r: real, c: real)
    requires length > 0.0 && length * length == LengthSquared(v)
    requires 0.0 <= r < 1.0 && 0.0 <= c < 1.0
    ensures LengthSquared(Vec3Scaled(Vec3Scaled(Vec3Scaled(v, 1.0 / length), r), c)) < 1.0
  {
    var q := r * c;
    var w := Vec3Scaled(v, (1.0 / length) * q);
    ScaledThrice(v, 1.0 / length, r, c);
    NormalisedSquare(v, length, q);
    assert LengthSquared(w) == q * q;
    ProductInUnitRange(r, c);
    SquareBelowOne(q);
    assert LengthSquared(w) < 1.0;
  }

  /**
   * When length is the raw point's length, the sample lies strictly inside
   * the unit ball: its squared length is (draw 4i+3 * Scale(i))^2 < 1.
   */
  lemma KernelSampleInUnitBall(i: nat, stream: seq<real>, length: real)
    requires i < KERNEL_SIZE && 4 * i + 3 < |stream| && length > 0.0
    requires UnitDraws(stream)
    requires length * length == LengthSquared(RawSample(i, stream))
    ensures var s := KernelSample(i, stream, length); LengthSquared(Vec3(s.x, s.y, s.z)) < 1.0
  {
    ScaleRange(i);
    assert 0.0 <= stream[4 * i + 3] < 1.0;
    NormalisedScaledInUnitBall(RawSample(i, stream), length, stream[4 * i + 3], Scale(i));
  }

  /** The kernel is the list of samples, one per index. */
  predicate IsKernel(kernel: seq<Vec4>, stream: seq<real>, lengths: seq<real>)
    requires |stream| >= 4 * KERNEL_SIZE && |lengths| >= KERNEL_SIZE
    requires forall k :: 0 <= k < |lengths| ==> lengths[k] > 0.0
  {
    |kernel| == KERNEL_SIZE
    && forall i :: 0 <= i < KERNEL_SIZE ==> kernel[i] == KernelSample(i, stream, lengths[i])
  }

  /** generateKernel fills KERNEL_SIZE samples, all in the hemisphere and all with w = 0. */
  lemma KernelInHemisphere(kernel: seq<Vec4>, stream: seq<real>, lengths: seq<real>)
    requires |stream| >= 4 * KERNEL_SIZE && |lengths| >= KERNEL_SIZE
    requires forall k :: 0 <= k < |lengths| ==> lengths[k] > 0.0
    requires UnitDraws(stream)
    requires IsKernel(kernel, stream, lengths)
    ensures |kernel| == KERNEL_SIZE
    ensures forall i :: 0 <= i < |kernel| ==> kernel[i].z >= 0.0 && kernel[i].w == 0.0
  {
    forall i | 0 <= i < |kernel|
      ensures kernel[i].z >= 0.0 && kernel[i].w == 0.0
    {
      KernelSampleInHemisphere(i, stream, lengths[i]);
    }
  }

  /** When normalize divides each raw point by its true length, every sample lies inside the unit ball. */
  lemma KernelInUnitBall(kernel: seq<Vec4>, stream: seq<real>, lengths: seq<real>)
    requires |stream| >= 4 * KERNEL_SIZE && |lengths| >= KERNEL_SIZE
    requires forall k :: 0 <= k < |lengths| ==> lengths[k] > 0.0
    requires forall k :: 0 <= k < KERNEL_SIZE ==> lengths[k] * lengths[k] == LengthSquared(RawSample(k, stream))
    requires UnitDraws(stream)
    requires IsKernel(kernel, stream, lengths)
    ensures forall i :: 0 <= i < |kernel| ==> LengthSquared(Vec3(kernel[i].x, kernel[i].y, kernel[i].z)) < 1.0
  {
    forall i | 0 <= i < |kernel|
      ensures LengthSquared(Vec3(kernel[i].x, kernel[i].y, kernel[i].z)) < 1.0
    {
      KernelSampleInUnitBall(i, stream, lengths[i]);
    }
  }

  // The noise tile

  /**
   * Noise entry i, from draws 2i and 2i+1 (taken x then y; C++ leaves the
   * argument order unspecified): a rotation about the normal, so z = w = 0.
   */
  function NoiseEntry(i: nat, stream: seq<real>): Vec4
    requires 2 * i + 1 < |stream|
  {
    Vec4(stream[2 * i] * 2.0 - 1.0, stream[2 * i + 1] * 2.0 - 1.0, 0.0, 0.0)
  }

  /** The noise data of createNoiseTexture: NOISE_SIZE * NOISE_SIZE rotation vectors. */
  method NoiseData(stream: seq<real>) returns (noise: seq<Vec4>)
    requires |stream| >= 2 * NOISE_SIZE * NOISE_SIZE
    ensures |noise| == NOISE_SIZE * NOISE_SIZE
    ensures forall i :: 0 <= i < |noise| ==> noise[i] == NoiseEntry(i, stream)
  {
    noise := [];
    var i := 0;
    while i < NOISE_SIZE * NOISE_SIZE
      invariant i <= NOISE_SIZE * NOISE_SIZE && |noise| == i
      invariant forall k :: 0 <= k < i ==> noise[k] == NoiseEntry(k, stream)
    {
      noise := noise + [NoiseEntry(i, stream)];
      i := i + 1;
    }
  }

  /** Every noise vector lies in the tangent plane with components in [-1, 1). */
  lemma NoiseInTangentPlane(i: nat, stream: seq<real>)
    requires 2 * i + 1 < |stream| && UnitDraws(stream)
    ensures NoiseEntry(i, stream).z == 0.0 && NoiseEntry(i, stream).w == 0.0
    ensures -1.0 <= NoiseEntry(i, stream).x < 1.0 && -1.0 <= NoiseEntry(i, stream).y < 1.0
  {
    assert 0.0 <= stream[2 * i] < 1.0 && 0.0 <= stream[2 * i + 1] < 1.0;
  }

  // The render passes

  /** The one colour attachment: R8_UNORM, cleared and stored, left shader-readable. */
  const SSAO_ATTACHMENT := Attachment(SSAO_FORMAT, 1, LoadClear, StoreStore, LayoutUndefined, ShaderReadOnlyOptimal)

  /** Earlier fragment-shader reads of the target finish before it is written. */
  const SSAO_DEPENDENCY_IN := Dependency(
    External, Index(0), {FragmentShader}, {ColorAttachmentOutput}, {ShaderRead}, {ColorAttachmentWrite}, true)

  /** The target's writes finish before later fragment shaders read it. */
  const SSAO_DEPENDENCY_OUT := Dependency(
    Index(0), External, {ColorAttachmentOutput}, {FragmentShader}, {ColorAttachmentWrite}, {ShaderRead}, true)

  /** createSSAORenderPass. */
  const SSAO_RENDER_PASS := RenderPass([SSAO_ATTACHMENT], [0], None, [SSAO_DEPENDENCY_IN, SSAO_DEPENDENCY_OUT])

  /** createBlurRenderPass, written out separately in the source with the same settings. */
  const BLUR_RENDER_PASS := RenderPass([SSAO_ATTACHMENT], [0], None, [SSAO_DEPENDENCY_IN, SSAO_DEPENDENCY_OUT])

  /**
   * Both passes have one single-sampled R8_UNORM colour attachment, cleared,
   * stored and left shader-readable, no depth, and exactly two by-region
   * dependencies scoped to fragment-shader reads and attachment writes; the
   * two passes are the same.
   */
  lemma SSAOPassesShape()
    ensures SSAO_RENDER_PASS == BLUR_RENDER_PASS
    ensures var rp := SSAO_RENDER_PASS;
      ClearsAndStoresAll(rp) && RefsWellFormed(rp) && ByRegionAroundSubpass(rp)
      && |rp.attachments| == 1 && rp.attachments[0].format == SSAO_FORMAT
      && rp.attachments[0].final == ShaderReadOnlyOptimal
      && rp.colorRefs == [0] && rp.depthRef.None?
      && |rp.dependencies| == 2
      && (forall k :: 0 <= k < 2 ==>
            rp.dependencies[k].srcStages + rp.dependencies[k].dstStages == {FragmentShader, ColorAttachmentOutput}
            && rp.dependencies[k].srcAccess + rp.dependencies[k].dstAccess == {ShaderRead, ColorAttachmentWrite})
  {
  }

  // Device calls of each creation step

  /** createImageWithInfo for a single-sampled image, then its view in the same format. */
  function ImageAndViewCalls(image: Handle, memory: Handle, view: Handle, size: Extent, format: Format)
    : seq<Device.DeviceCall>
  {
    [Device.CreateImage(image, memory, Image(size, format, 1)), Device.CreateView(view, image, format)]
  }

  /**
   * createKernelBuffer: a host-visible staging buffer filled with the kernel,
   * the device-local uniform buffer, the copy, and the staging buffer's release.
   */
  function KernelUploadCalls(staging: Handle, stagingMemory: Handle, buffer: Handle, memory: Handle)
    : seq<Device.DeviceCall>
  {
    [Device.CreateBuffer(staging, stagingMemory, KERNEL_BYTES),
     Device.CreateBuffer(buffer, memory, KERNEL_BYTES),
     Device.Destroy(staging), Device.Destroy(stagingMemory)]
  }

  /**
   * createNoiseTexture: a staging buffer filled with the tile, the 4 x 4
   * image, the copy, the staging buffer's release, and (last) the view.
   */
  function NoiseUploadCalls(staging: Handle, stagingMemory: Handle, image: Handle, memory: Handle, view: Handle)
    : seq<Device.DeviceCall>
  {
    [Device.CreateBuffer(staging, stagingMemory, NOISE_BYTES),
     Device.CreateImage(image, memory, Image(Extent(NOISE_SIZE, NOISE_SIZE), NOISE_FORMAT, 1)),
     Device.Destroy(staging), Device.Destroy(stagingMemory),
     Device.CreateView(view, image, NOISE_FORMAT)]
  }

  /** createSamplers: a linear, edge-clamped sampler and a nearest, repeating noise sampler. */
  function SamplerCalls(sampler: Handle, noiseSampler: Handle): seq<Device.DeviceCall>
  {
    [Device.CreateSampler(sampler, Device.Linear, Device.ClampToEdge),
     Device.CreateSampler(noiseSampler, Device.Nearest, Device.Repeat)]
  }

  /** createFramebuffers: each pass's framebuffer over its one view, at the extent. */
  function FramebufferCalls(ssaoFramebuffer: Handle, ssaoRenderPass: Handle, ssaoImageView: Handle,
                            blurFramebuffer: Handle, blurRenderPass: Handle, blurredImageView: Handle,
                            extent: Extent): seq<Device.DeviceCall>
  {
    [Device.CreateFramebuffer(ssaoFramebuffer, ssaoRenderPass, [ssaoImageView], extent),
     Device.CreateFramebuffer(blurFramebuffer, blurRenderPass, [blurredImageView], extent)]
  }

  class FrgSSAO {
    const device: Device.FrgDevice
    var extent: Extent

    var kernel: seq<Vec4>
    var kernelBuffer: Handle
    var kernelMemory: Handle

    var noiseImage: Handle
    var noiseMemory: Handle
    var noiseImageView: Handle
    var noiseSampler: Handle

    var ssaoImage: Handle
    var ssaoMemory: Handle
    var ssaoImageView: Handle

    var blurredImage: Handle
    var blurredMemory: Handle
    var blurredImageView: Handle

    var sampler: Handle
    var ssaoRenderPass: Handle
    var blurRenderPass: Handle
    var ssaoFramebuffer: Handle
    var blurFramebuffer: Handle

    /** Every handle, in the order cleanup destroys them. */
    function Handles(): seq<Handle>
      reads this
    {
      [blurFramebuffer, ssaoFramebuffer, blurRenderPass, ssaoRenderPass, sampler, noiseSampler,
       blurredImageView, blurredImage, blurredMemory, ssaoImageView, ssaoImage, ssaoMemory,
       noiseImageView, noiseImage, noiseMemory, kernelBuffer, kernelMemory]
    }

    /** The handles whose objects depend on the extent, in the order resize destroys them. */
    function SizeDependent(): seq<Handle>
      reads this
    {
      [blurFramebuffer, ssaoFramebuffer, blurredImageView, blurredImage, blurredMemory,
       ssaoImageView, ssaoImage, ssaoMemory]
    }

    /** The handles whose objects resize keeps. */
    function SizeIndependent(): seq<Handle>
      reads this
    {
      [kernelBuffer, kernelMemory, noiseImage, noiseMemory, noiseImageView, noiseSampler,
       sampler, ssaoRenderPass, blurRenderPass]
    }

    /** What rebuilding the extent-dependent objects asks of the driver, in order. */
    function SizedCalls(): seq<Device.DeviceCall>
      reads this
    {
      ImageAndViewCalls(ssaoImage, ssaoMemory, ssaoImageView, extent, SSAO_FORMAT)
      + ImageAndViewCalls(blurredImage, blurredMemory, blurredImageView, extent, SSAO_FORMAT)
      + FramebufferCalls(ssaoFramebuffer, ssaoRenderPass, ssaoImageView,
                         blurFramebuffer, blurRenderPass, blurredImageView, extent)
    }

    /**
     * What creating the kernel buffer, the noise texture and both targets asks
     * of the driver, handles numbered from n: the kernel's staging buffer takes
     * n and n + 1, the noise tile's n + 4 and n + 5.
     */
    function SourceCalls(n: nat): seq<Device.DeviceCall>
      reads this
    {
      KernelUploadCalls(Live(n), Live(n + 1), kernelBuffer, kernelMemory)
      + NoiseUploadCalls(Live(n + 4), Live(n + 5), noiseImage, noiseMemory, noiseImageView)
      + ImageAndViewCalls(ssaoImage, ssaoMemory, ssaoImageView, extent, SSAO_FORMAT)
      + ImageAndViewCalls(blurredImage, blurredMemory, blurredImageView, extent, SSAO_FORMAT)
    }

    /** What creating the samplers, render passes and framebuffers asks of the driver. */
    function PassObjectCalls(): seq<Device.DeviceCall>
      reads this
    {
      SamplerCalls(sampler, noiseSampler)
      + [Device.CreateRenderPass(ssaoRenderPass, SSAO_RENDER_PASS),
         Device.CreateRenderPass(blurRenderPass, BLUR_RENDER_PASS)]
      + FramebufferCalls(ssaoFramebuffer, ssaoRenderPass, ssaoImageView,
                         blurFramebuffer, blurRenderPass, blurredImageView, extent)
    }

    /** What the constructor asks of the driver, in creation order, handles numbered from n. */
    function CreationCalls(n: nat): seq<Device.DeviceCall>
      reads this
    {
      SourceCalls(n) + PassObjectCalls()
    }

    /**
     * The constructor. Both generateKernel and createNoiseTexture start a
     * default-seeded engine, so both read the same stream of draws from its
     * start; lengths[i] is the length normalize divides sample i by.
     */
    constructor(device: Device.FrgDevice, extent: Extent, stream: seq<real>, lengths: seq<real>)
      requires |stream| >= 4 * KERNEL_SIZE && |lengths| >= KERNEL_SIZE
      requires forall k :: 0 <= k < |lengths| ==> lengths[k] > 0.0
      modifies device`calls, device`nextHandle
      ensures this.device == device && this.extent == extent
      ensures IsKernel(kernel, stream, lengths)
      ensures Device.AllLive(Handles())
      ensures device.calls == old(device.calls) + CreationCalls(old(device.nextHandle))
    {
      this.device := device;
      this.extent := extent;
      kernel := [];
      kernelBuffer, kernelMemory := Null, Null;
      noiseImage, noiseMemory, noiseImageView, noiseSampler := Null, Null, Null, Null;
      ssaoImage, ssaoMemory, ssaoImageView := Null, Null, Null;
      blurredImage, blurredMemory, blurredImageView := Null, Null, Null;
      sampler, ssaoRenderPass, blurRenderPass := Null, Null, Null;
      ssaoFramebuffer, blurFramebuffer := Null, Null;
      new;
      GenerateKernel(stream, lengths);
      CreateAll(stream);
    }

    /** Every creation step of the constructor after generateKernel, in order. */
    method CreateAll(stream: seq<real>)
      requires |stream| >= 2 * NOISE_SIZE * NOISE_SIZE
      modifies this`kernelBuffer, this`kernelMemory, this`noiseImage, this`noiseMemory, this`noiseImageView,
               this`ssaoImage, this`ssaoMemory, this`ssaoImageView,
               this`blurredImage, this`blurredMemory, this`blurredImageView,
               this`sampler, this`noiseSampler, this`ssaoRenderPass, this`blurRenderPass,
               this`ssaoFramebuffer, this`blurFramebuffer, device`calls, device`nextHandle
      ensures Device.AllLive(Handles())
      ensures device.calls == old(device.calls) + CreationCalls(old(device.nextHandle))
    {
      CreateSources(stream);
      CreatePassObjects();
    }

    /** createKernelBuffer, createNoiseTexture, createSSAOImage and createBlurImage. */
    method CreateSources(stream: seq<real>)
      requires |stream| >= 2 * NOISE_SIZE * NOISE_SIZE
      modifies this`kernelBuffer, this`kernelMemory, this`noiseImage, this`noiseMemory, this`noiseImageView,
               this`ssaoImage, this`ssaoMemory, this`ssaoImageView,
               this`blurredImage, this`blurredMemory, this`blurredImageView, device`calls, device`nextHandle
      ensures kernelBuffer == Live(old(device.nextHandle) + 2) && kernelMemory == Live(old(device.nextHandle) + 3)
      ensures noiseImage == Live(old(device.nextHandle) + 6) && noiseMemory == Live(old(device.nextHandle) + 7)
      ensures noiseImageView == Live(old(device.nextHandle) + 8)
      ensures ssaoImage.Live? && ssaoMemory.Live? && ssaoImageView.Live?
      ensures blurredImage.Live? && blurredMemory.Live? && blurredImageView.Live?
      ensures device.calls == old(device.calls) + SourceCalls(old(device.nextHandle))
    {
      CreateKernelBuffer();
      var noise := CreateNoiseTexture(stream);
      CreateSSAOImage();
      CreateBlurImage();
    }

    /** createSamplers, createSSAORenderPass, createBlurRenderPass and createFramebuffers. */
    method CreatePassObjects()
      modifies this`sampler, this`noiseSampler, this`ssaoRenderPass, this`blurRenderPass,
               this`ssaoFramebuffer, this`blurFramebuffer, device`calls, device`nextHandle
      ensures sampler.Live? && noiseSampler.Live? && ssaoRenderPass.Live? && blurRenderPass.Live?
      ensures ssaoFramebuffer.Live? && blurFramebuffer.Live?
      ensures device.calls == old(device.calls) + PassObjectCalls()
    {
      CreateSamplers();
      CreateRenderPasses();
      CreateFramebuffers();
    }

    /** generateKernel: sample i from draws 4i..4i+3. */
    method GenerateKernel(stream: seq<real>, lengths: seq<real>)
      requires |stream| >= 4 * KERNEL_SIZE && |lengths| >= KERNEL_SIZE
      requires forall k :: 0 <= k < |lengths| ==> lengths[k] > 0.0
      modifies this`kernel
      ensures IsKernel(kernel, stream, lengths)
    {
      var samples: seq<Vec4> := [];
      var i := 0;
      while i < KERNEL_SIZE
        invariant i <= KERNEL_SIZE && |samples| == i
        invariant forall k :: 0 <= k < i ==> samples[k] == KernelSample(k, stream, lengths[k])
      {
        samples := samples + [KernelSample(i, stream, lengths[i])];
        i := i + 1;
      }
      kernel := samples;
    }

    /** createKernelBuffer: the kernel goes through a staging buffer into a device-local uniform buffer. */
    method CreateKernelBuffer()
      modifies this`kernelBuffer, this`kernelMemory, device`calls, device`nextHandle
      ensures kernelBuffer == Live(old(device.nextHandle) + 2) && kernelMemory == Live(old(device.nextHandle) + 3)
      ensures device.nextHandle == old(device.nextHandle) + 4
      ensures device.calls == old(device.calls)
        + KernelUploadCalls(Live(old(device.nextHandle)), Live(old(device.nextHandle) + 1), kernelBuffer, kernelMemory)
    {
      var staging := device.NewHandle();
      var stagingMemory := device.NewHandle();
      device.Record(Device.CreateBuffer(staging, stagingMemory, KERNEL_BYTES));
      kernelBuffer := device.NewHandle();
      kernelMemory := device.NewHandle();
      device.Record(Device.CreateBuffer(kernelBuffer, kernelMemory, KERNEL_BYTES));
      device.Record(Device.Destroy(staging));
      device.Record(Device.Destroy(stagingMemory));
    }

    /** createNoiseTexture: the noise tile it uploads, and the 4x4 image and view that hold it. */
    method CreateNoiseTexture(stream: seq<real>) returns (noise: seq<Vec4>)
      requires |stream| >= 2 * NOISE_SIZE * NOISE_SIZE
      modifies this`noiseImage, this`noiseMemory, this`noiseImageView, device`calls, device`nextHandle
      ensures |noise| == NOISE_SIZE * NOISE_SIZE
      ensures forall i :: 0 <= i < |noise| ==> noise[i] == NoiseEntry(i, stream)
      ensures noiseImage == Live(old(device.nextHandle) + 2) && noiseMemory == Live(old(device.nextHandle) + 3)
      ensures noiseImageView == Live(old(device.nextHandle) + 4)
      ensures device.calls == old(device.calls)
        + NoiseUploadCalls(Live(old(device.nextHandle)), Live(old(device.nextHandle) + 1),
                           noiseImage, noiseMemory, noiseImageView)
    {
      noise := NoiseData(stream);
      var staging := device.NewHandle();
      var stagingMemory := device.NewHandle();
      device.Record(Device.CreateBuffer(staging, stagingMemory, NOISE_BYTES));
      noiseImage := device.NewHandle();
      noiseMemory := device.NewHandle();
      device.Record(Device.CreateImage(noiseImage, noiseMemory, Image(Extent(NOISE_SIZE, NOISE_SIZE), NOISE_FORMAT, 1)));
      device.Record(Device.Destroy(staging));
      device.Record(Device.Destroy(stagingMemory));
      noiseImageView := device.NewHandle();
      device.Record(Device.CreateView(noiseImageView, noiseImage, NOISE_FORMAT));
    }

    method CreateSSAOImage()
      modifies this`ssaoImage, this`ssaoMemory, this`ssaoImageView, device`calls, device`nextHandle
      ensures ssaoImage.Live? && ssaoMemory.Live? && ssaoImageView.Live?
      ensures device.calls == old(device.calls)
        + ImageAndViewCalls(ssaoImage, ssaoMemory, ssaoImageView, extent, SSAO_FORMAT)
    {
      ssaoImage := device.NewHandle();
      ssaoMemory := device.NewHandle();
      device.Record(Device.CreateImage(ssaoImage, ssaoMemory, Image(extent, SSAO_FORMAT, 1)));
      ssaoImageView := device.NewHandle();
      device.Record(Device.CreateView(ssaoImageView, ssaoImage, SSAO_FORMAT));
    }

    method CreateBlurImage()
      modifies this`blurredImage, this`blurredMemory, this`blurredImageView, device`calls, device`nextHandle
      ensures blurredImage.Live? && blurredMemory.Live? && blurredImageView.Live?
      ensures device.calls == old(device.calls)
        + ImageAndViewCalls(blurredImage, blurredMemory, blurredImageView, extent, SSAO_FORMAT)
    {
      blurredImage := device.NewHandle();
      blurredMemory := device.NewHandle();
      device.Record(Device.CreateImage(blurredImage, blurredMemory, Image(extent, SSAO_FORMAT, 1)));
      blurredImageView := device.NewHandle();
      device.Record(Device.CreateView(blurredImageView, blurredImage, SSAO_FORMAT));
    }

    method CreateSamplers()
      modifies this`sampler, this`noiseSampler, device`calls, device`nextHandle
      ensures sampler.Live? && noiseSampler.Live?
      ensures device.calls == old(device.calls) + SamplerCalls(sampler, noiseSampler)
    {
      sampler := device.NewHandle();
      device.Record(Device.CreateSampler(sampler, Device.Linear, Device.ClampToEdge));
      noiseSampler := device.NewHandle();
      device.Record(Device.CreateSampler(noiseSampler, Device.Nearest, Device.Repeat));
    }

    /** createSSAORenderPass, then createBlurRenderPass. */
    method CreateRenderPasses()
      modifies this`ssaoRenderPass, this`blurRenderPass, device`calls, device`nextHandle
      ensures ssaoRenderPass.Live? && blurRenderPass.Live?
      ensures device.calls == old(device.calls)
        + [Device.CreateRenderPass(ssaoRenderPass, SSAO_RENDER_PASS),
           Device.CreateRenderPass(blurRenderPass, BLUR_RENDER_PASS)]
    {
      ssaoRenderPass := device.NewHandle();
      device.Record(Device.CreateRenderPass(ssaoRenderPass, SSAO_RENDER_PASS));
      blurRenderPass := device.NewHandle();
      device.Record(Device.CreateRenderPass(blurRenderPass, BLUR_RENDER_PASS));
    }

    method CreateFramebuffers()
      modifies this`ssaoFramebuffer, this`blurFramebuffer, device`calls, device`nextHandle
      ensures ssaoFramebuffer.Live? && blurFramebuffer.Live?
      ensures device.calls == old(device.calls)
        + FramebufferCalls(ssaoFramebuffer, ssaoRenderPass, ssaoImageView,
                           blurFramebuffer, blurRenderPass, blurredImageView, extent)
    {
      ssaoFramebuffer := device.NewHandle();
      device.Record(Device.CreateFramebuffer(ssaoFramebuffer, ssaoRenderPass, [ssaoImageView], extent));
      blurFramebuffer := device.NewHandle();
      device.Record(Device.CreateFramebuffer(blurFramebuffer, blurRenderPass, [blurredImageView], extent));
    }

    /**
     * resize: destroys only the extent-dependent objects (without nulling
     * their handles) and rebuilds them at the new extent; the kernel, its
     * buffer, the noise texture, the samplers and the render passes stay.
     */
    method Resize(newExtent: Extent)
      modifies this`extent, this`ssaoImage, this`ssaoMemory, this`ssaoImageView,
               this`blurredImage, this`blurredMemory, this`blurredImageView,
               this`ssaoFramebuffer, this`blurFramebuffer, device`calls, device`nextHandle
      ensures extent == newExtent
      ensures kernel == old(kernel) && SizeIndependent() == old(SizeIndependent())
      ensures Device.AllLive(SizeDependent())
      ensures device.calls == old(device.calls) + Device.DestroyCalls(old(SizeDependent())) + SizedCalls()
    {
      var before := SizeDependent();
      Device.ReleaseAll(device, before);
      extent := newExtent;
      CreateSized();
    }

    /** The creation half of resize: createSSAOImage, createBlurImage, createFramebuffers. */
    method CreateSized()
      modifies this`ssaoImage, this`ssaoMemory, this`ssaoImageView,
               this`blurredImage, this`blurredMemory, this`blurredImageView,
               this`ssaoFramebuffer, this`blurFramebuffer, device`calls, device`nextHandle
      ensures ssaoImage.Live? && ssaoMemory.Live? && ssaoImageView.Live?
      ensures blurredImage.Live? && blurredMemory.Live? && blurredImageView.Live?
      ensures ssaoFramebuffer.Live? && blurFramebuffer.Live?
      ensures device.calls == old(device.calls) + SizedCalls()
    {
      CreateSSAOImage();
      CreateBlurImage();
      CreateFramebuffers();
    }

    /** cleanup: destroys every live object; the handles keep their values. */
    method Cleanup()
      modifies device`calls
      ensures device.calls == old(device.calls) + Device.DestroyCalls(Handles())
    {
      Device.ReleaseAll(device, Handles());
    }

    /** getSSAODescriptor: the raw SSAO target. */
    function SSAODescriptor(): ImageInfo
      reads this
    {
      ImageInfo(sampler, ssaoImageView, ShaderReadOnlyOptimal)
    }

    /** getBlurredDescriptor. */
    function BlurredDescriptor(): ImageInfo
      reads this
    {
      ImageInfo(sampler, blurredImageView, ShaderReadOnlyOptimal)
    }

    /** getNoiseDescriptor: the noise view with its repeating sampler. */
    function NoiseDescriptor(): ImageInfo
      reads this
    {
      ImageInfo(noiseSampler, noiseImageView, ShaderReadOnlyOptimal)
    }

    /** getKernelDescriptor. */
    function KernelDescriptor(): BufferInfo
      reads this
    {
      BufferInfo(kernelBuffer, 0, VEC4_BYTES * KERNEL_SIZE)
    }
  }

  /**
   * The kernel descriptor covers exactly the kernel buffer the constructor
   * creates, which holds one vec4 per kernel sample.
   */
  lemma KernelDescriptorCoversBuffer(s: FrgSSAO, n: nat, stream: seq<real>, lengths: seq<real>)
    requires |stream| >= 4 * KERNEL_SIZE && |lengths| >= KERNEL_SIZE
    requires forall k :: 0 <= k < |lengths| ==> lengths[k] > 0.0
    requires IsKernel(s.kernel, stream, lengths)
    ensures s.CreationCalls(n)[1] == Device.CreateBuffer(s.KernelDescriptor().buffer, s.kernelMemory,
                                                        s.KernelDescriptor().range)
    ensures s.KernelDescriptor().offset == 0
    ensures s.KernelDescriptor().range == VEC4_BYTES * |s.kernel|
  {
  }

  /**
   * The image descriptors each name a view created in its target's format and
   * ask for the layout the pass that writes it leaves it in; the framebuffers
   * are the extent's size and present their pass's one attachment.
   */
  lemma TargetsMatchPasses(s: FrgSSAO, n: nat)
    ensures var calls := s.CreationCalls(n);
      Device.ViewCreatedWith(calls, s.SSAODescriptor().view, SSAO_RENDER_PASS.attachments[0].format)
      && Device.ViewCreatedWith(calls, s.BlurredDescriptor().view, BLUR_RENDER_PASS.attachments[0].format)
      && Device.ViewCreatedWith(calls, s.NoiseDescriptor().view, NOISE_FORMAT)
      && s.SSAODescriptor().layout == SSAO_RENDER_PASS.attachments[0].final
      && s.BlurredDescriptor().layout == BLUR_RENDER_PASS.attachments[0].final
      && Device.FramebufferAgrees(calls, [s.ssaoImageView], SSAO_RENDER_PASS)
      && Device.FramebufferAgrees(calls, [s.blurredImageView], BLUR_RENDER_PASS)
  {
    var calls := s.CreationCalls(n);
    assert calls[8] == Device.CreateView(s.noiseImageView, s.noiseImage, NOISE_FORMAT);
    assert calls[10] == Device.CreateView(s.ssaoImageView, s.ssaoImage, SSAO_FORMAT);
    assert calls[12] == Device.CreateView(s.blurredImageView, s.blurredImage, SSAO_FORMAT);
  }

  /**
   * Construction releases nothing but the two staging buffers and their
   * memory, and it created each of them first.
   */
  lemma ConstructionReleasesOnlyStaging(s: FrgSSAO, n: nat, h: Handle)
    ensures Device.Destroy(h) in s.CreationCalls(n) <==> h in [Live(n), Live(n + 1), Live(n + 4), Live(n + 5)]
    ensures h in [Live(n), Live(n + 1), Live(n + 4), Live(n + 5)] ==> Device.CreatedBy(s.CreationCalls(n), h)
  {
    var calls := s.CreationCalls(n);
    assert calls == KernelUploadCalls(Live(n), Live(n + 1), s.kernelBuffer, s.kernelMemory)
      + NoiseUploadCalls(Live(n + 4), Live(n + 5), s.noiseImage, s.noiseMemory, s.noiseImageView)
      + (s.SizedCalls()[..4] + s.PassObjectCalls());
    if h == Live(n) || h == Live(n + 1) {
      assert h in Device.Created(calls[0]);
    } else if h == Live(n + 4) || h == Live(n + 5) {
      assert h in Device.Created(calls[4]);
    }
  }

  /** After a resize both framebuffers are the new extent's size, and so are both targets. */
  lemma SizedCallsUseExtent(s: FrgSSAO)
    ensures var calls := s.SizedCalls();
      |calls| == 6
      && calls[0].info.extent == s.extent && calls[2].info.extent == s.extent
      && calls[4].size == s.extent && calls[5].size == s.extent
      && calls[4].forPass == s.ssaoRenderPass && calls[5].forPass == s.blurRenderPass
  {
  }
}
