/**
 * Surface and device negotiation helpers of the render_forge Engine:
 * swap-chain surface format, present mode and extent selection, the
 * image-count clamp and sharing mode of create_swap_chain, preference-order
 * format probing, the highest usable sample count, extension and layer
 * containment, and the queue-family scan.
 *
 * Driver queries (format properties, surface capabilities, queue family
 * properties, present support, framebuffer size) are parameters.
 */
module Engine {
  import opened VkTypes

  // ---------------------------------------------------------------------
  // Surface format and present mode

  datatype ColorSpace = SrgbNonlinear | OtherColorSpace(code: nat)

  /** A VkSurfaceFormatKHR. */
  datatype SurfaceFormat = SurfaceFormat(format: Format, colorSpace: ColorSpace)

  /** The surface format the engine asks for first. */
  const PREFERRED_SURFACE_FORMAT := SurfaceFormat(B8G8R8A8Srgb, SrgbNonlinear)

  /**
   * choose_swap_surface_format: the preferred sRGB format when it is offered,
   * otherwise the first offered format. The list must not be empty (the
   * device suitability test only accepts devices offering some format).
   */
  function ChooseSwapSurfaceFormat(available: seq<SurfaceFormat>): (r: SurfaceFormat)
    requires |available| > 0
    ensures r in available
    ensures r == (if PREFERRED_SURFACE_FORMAT in available then PREFERRED_SURFACE_FORMAT else available[0])
  {
    ScanSurfaceFormats(available, 0)
  }

  /** The scan of choose_swap_surface_format from position k on. */
  function ScanSurfaceFormats(available: seq<SurfaceFormat>, k: nat): (r: SurfaceFormat)
    requires 0 < |available| && k <= |available|
    ensures r == (if PREFERRED_SURFACE_FORMAT in available[k..] then PREFERRED_SURFACE_FORMAT else available[0])
    decreases |available| - k
  {
    if k == |available| then available[0]
    else if available[k].format == B8G8R8A8Srgb && available[k].colorSpace == SrgbNonlinear then
      available[k]
    else
      assert available[k..] == [available[k]] + available[k + 1..];
      ScanSurfaceFormats(available, k + 1)
  }

  datatype PresentMode = Immediate | Mailbox | Fifo | FifoRelaxed | OtherPresentMode(code: nat)

  /** choose_swap_present_mode: MAILBOX when it is offered, FIFO otherwise. */
  function ChooseSwapPresentMode(available: seq<PresentMode>): (r: PresentMode)
    ensures r == Mailbox <==> Mailbox in available
    ensures r == Mailbox || r == Fifo
  {
    if available == [] then Fifo
    else if available[0] == Mailbox then Mailbox
    else
      assert available == [available[0]] + available[1..];
      ChooseSwapPresentMode(available[1..])
  }

  // ---------------------------------------------------------------------
  // Extent and image count

  /** The part of VkSurfaceCapabilitiesKHR the engine reads; every count is 32-bit unsigned. */
  datatype SurfaceCapabilities = SurfaceCapabilities(
    minImageCount: nat, maxImageCount: nat,
    currentExtent: Extent, minImageExtent: Extent, maxImageExtent: Extent)

  /** static_cast<uint32_t> of an int: reduction modulo 2^32. */
  function ToUint32(x: int): (r: nat)
    ensures r <= UINT32_MAX
    ensures 0 <= x <= UINT32_MAX ==> r == x
  {
    x % 0x1_0000_0000
  }

  /** std::clamp(v, lo, hi), with its comparisons in the library's order. */
  function Clamp(v: nat, lo: nat, hi: nat): (r: nat)
    ensures lo <= hi ==> lo <= r <= hi
    ensures lo <= v <= hi ==> r == v
    ensures r == v || r == lo || r == hi
  {
    if v < lo then lo else if hi < v then hi else v
  }

  /**
   * choose_swap_extent: the surface's current extent unless its width is the
   * special value UINT32_MAX; then the window's framebuffer size, converted to
   * 32-bit unsigned and clamped componentwise to the allowed range.
   */
  function ChooseSwapExtent(caps: SurfaceCapabilities, fbWidth: int, fbHeight: int): (r: Extent)
    ensures caps.currentExtent.width != UINT32_MAX ==> r == caps.currentExtent
    ensures caps.currentExtent.width == UINT32_MAX ==>
      (caps.minImageExtent.width <= caps.maxImageExtent.width ==>
         caps.minImageExtent.width <= r.width <= caps.maxImageExtent.width)
      && (caps.minImageExtent.height <= caps.maxImageExtent.height ==>
         caps.minImageExtent.height <= r.height <= caps.maxImageExtent.height)
      && (caps.minImageExtent.width <= ToUint32(fbWidth) <= caps.maxImageExtent.width ==>
         r.width == ToUint32(fbWidth))
      && (caps.minImageExtent.height <= ToUint32(fbHeight) <= caps.maxImageExtent.height ==>
         r.height == ToUint32(fbHeight))
  {
    if caps.currentExtent.width != UINT32_MAX then caps.currentExtent
    else
      Extent(Clamp(ToUint32(fbWidth), caps.minImageExtent.width, caps.maxImageExtent.width),
             Clamp(ToUint32(fbHeight), caps.minImageExtent.height, caps.maxImageExtent.height))
  }

  /**
   * The image count of create_swap_chain: one more than the minimum (in
   * 32-bit unsigned arithmetic), capped to the maximum when a maximum is given
   * (a maximum of 0 means no limit).
   */
  function ImageCount(caps: SurfaceCapabilities): (r: nat)
    requires caps.minImageCount <= UINT32_MAX
    ensures caps.maxImageCount > 0 && caps.minImageCount < UINT32_MAX ==> r <= caps.maxImageCount
    ensures caps.minImageCount < UINT32_MAX && (caps.maxImageCount == 0 || caps.minImageCount < caps.maxImageCount)
      ==> r == caps.minImageCount + 1
    ensures caps.minImageCount < UINT32_MAX && 0 < caps.maxImageCount <= caps.minImageCount ==> r == caps.maxImageCount
    ensures caps.minImageCount == UINT32_MAX ==> r == 0
  {
    var count := (caps.minImageCount + 1) % 0x1_0000_0000;
    if caps.maxImageCount > 0 && count > caps.maxImageCount then caps.maxImageCount else count
  }

  // ---------------------------------------------------------------------
  // Queue families

  datatype QueueFlag = GraphicsQueue | ComputeQueue | TransferQueue | SparseQueue

  /** One queue family as the scan sees it: its flags and whether it can present to the surface. */
  datatype QueueFamily = QueueFamily(flags: set<QueueFlag>, presentSupport: bool)

  /** QueueFamilyIndicies: two optional family indices. */
  datatype QueueFamilyIndices = QueueFamilyIndices(graphicsAndCompute: Option<nat>, present: Option<nat>)

  /** QueueFamilyIndicies::is_complete. */
  predicate IsComplete(q: QueueFamilyIndices)
  {
    q.graphicsAndCompute.Some? && q.present.Some?
  }

  lemma IsCompleteMeansBothSet(q: QueueFamilyIndices)
    ensures IsComplete(q) <==> (q.graphicsAndCompute != None && q.present != None)
  {
  }

  predicate GraphicsAndCompute(f: QueueFamily)
  {
    GraphicsQueue in f.flags && ComputeQueue in f.flags
  }

  /** Some family in the first n can do graphics and compute, and some can present. */
  predicate BothRolesWithin(fams: seq<QueueFamily>, n: nat)
    requires n <= |fams|
  {
    (exists j :: 0 <= j < n && GraphicsAndCompute(fams[j]))
    && (exists j :: 0 <= j < n && fams[j].presentSupport)
  }

  /** Both roles are found among the families 0 .. k. */
  predicate BothRolesThrough(fams: seq<QueueFamily>, k: nat)
    requires k < |fams|
  {
    BothRolesWithin(fams, k + 1)
  }

  /**
   * find_queue_families: visits the families in index order, remembering the
   * latest graphics+compute family and the latest presenting family, and
   * stops at the first index where both have been found; when the walk never
   * completes, each role found keeps the last family that qualifies.
   */
  method FindQueueFamilies(fams: seq<QueueFamily>) returns (indices: QueueFamilyIndices)
    ensures indices.graphicsAndCompute.Some? ==>
      indices.graphicsAndCompute.value < |fams| && GraphicsAndCompute(fams[indices.graphicsAndCompute.value])
    ensures indices.present.Some? ==>
      indices.present.value < |fams| && fams[indices.present.value].presentSupport
    ensures indices.graphicsAndCompute.None? ==> forall j :: 0 <= j < |fams| ==> !GraphicsAndCompute(fams[j])
    ensures indices.present.None? ==> forall j :: 0 <= j < |fams| ==> !fams[j].presentSupport
    ensures IsComplete(indices) <==> BothRolesWithin(fams, |fams|)
    ensures IsComplete(indices) ==>
      var stop := if indices.graphicsAndCompute.value < indices.present.value
                  then indices.present.value else indices.graphicsAndCompute.value;
      (forall k :: 0 <= k < stop ==> !BothRolesThrough(fams, k))
      && (forall j :: indices.graphicsAndCompute.value < j <= stop ==> !GraphicsAndCompute(fams[j]))
      && (forall j :: indices.present.value < j <= stop ==> !fams[j].presentSupport)
    ensures !IsComplete(indices) && indices.graphicsAndCompute.Some? ==>
      forall j :: indices.graphicsAndCompute.value < j < |fams| ==> !GraphicsAndCompute(fams[j])
    ensures !IsComplete(indices) && indices.present.Some? ==>
      forall j :: indices.present.value < j < |fams| ==> !fams[j].presentSupport
  {
    indices := QueueFamilyIndices(None, None);
    var i := 0;
    while i < |fams|
      invariant 0 <= i <= |fams|
      invariant indices.graphicsAndCompute.Some? ==>
        indices.graphicsAndCompute.value < i && GraphicsAndCompute(fams[indices.graphicsAndCompute.value])
        && forall j :: indices.graphicsAndCompute.value < j < i ==> !GraphicsAndCompute(fams[j])
      invariant indices.present.Some? ==>
        indices.present.value < i && fams[indices.present.value].presentSupport
        && forall j :: indices.present.value < j < i ==> !fams[j].presentSupport
      invariant indices.graphicsAndCompute.None? ==> forall j :: 0 <= j < i ==> !GraphicsAndCompute(fams[j])
      invariant indices.present.None? ==> forall j :: 0 <= j < i ==> !fams[j].presentSupport
      invariant !IsComplete(indices)
      invariant forall k :: 0 <= k < i ==> !BothRolesThrough(fams, k)
    {
      if GraphicsAndCompute(fams[i]) {
        indices := indices.(graphicsAndCompute := Some(i));
      }
      if fams[i].presentSupport {
        indices := indices.(present := Some(i));
      }
      if IsComplete(indices) {
        assert BothRolesThrough(fams, i);
        assert BothRolesWithin(fams, |fams|);
        return;
      }
      assert !BothRolesThrough(fams, i);
      i := i + 1;
    }
  }

  datatype SharingMode = Exclusive | Concurrent

  /** The sharing part of a VkSwapchainCreateInfoKHR: the mode and the family indices it lists. */
  datatype Sharing = Sharing(mode: SharingMode, familyIndices: seq<nat>)

  /**
   * Sharing mode of create_swap_chain: CONCURRENT over both families when the
   * graphics and present families differ, EXCLUSIVE with no indices otherwise.
   */
  function SwapChainSharing(indices: QueueFamilyIndices): (r: Sharing)
    requires IsComplete(indices)
    ensures r.mode == Concurrent <==> indices.graphicsAndCompute.value != indices.present.value
    ensures r.mode == Concurrent ==> r.familyIndices == [indices.graphicsAndCompute.value, indices.present.value]
    ensures r.mode == Exclusive ==> r.familyIndices == []
  {
    var g := indices.graphicsAndCompute.value;
    var p := indices.present.value;
    if g != p then Sharing(Concurrent, [g, p]) else Sharing(Exclusive, [])
  }

  // ---------------------------------------------------------------------
  // Format probing and sample counts

  datatype Tiling = LinearTiling | OptimalTiling | DrmModifierTiling

  datatype FormatFeature =
    | SampledImageFeature | ColorAttachmentFeature | DepthStencilAttachmentFeature
    | BlitSrcFeature | BlitDstFeature | LinearFilterFeature | OtherFeature(bit: nat)

  /** A VkFormatProperties: the feature bits under linear and under optimal tiling. */
  datatype FormatProperties = FormatProperties(linear: set<FormatFeature>, optimal: set<FormatFeature>)

  /** The format supports every requested feature bit under the requested tiling. */
  predicate Supports(props: Format -> FormatProperties, tiling: Tiling, features: set<FormatFeature>, f: Format)
  {
    match tiling
    case LinearTiling => features <= props(f).linear
    case OptimalTiling => features <= props(f).optimal
    case DrmModifierTiling => false
  }

  /** Index of the first candidate at or after k that is supported. */
  function FirstSupported(candidates: seq<Format>, k: nat, tiling: Tiling, features: set<FormatFeature>,
                          props: Format -> FormatProperties): (r: Option<nat>)
    requires k <= |candidates|
    ensures r.Some? ==> (k <= r.value < |candidates| && Supports(props, tiling, features, candidates[r.value])
      && forall j :: k <= j < r.value ==> !Supports(props, tiling, features, candidates[j]))
    ensures r.None? ==> forall j :: k <= j < |candidates| ==> !Supports(props, tiling, features, candidates[j])
    decreases |candidates| - k
  {
    if k == |candidates| then None
    else if Supports(props, tiling, features, candidates[k]) then Some(k)
    else FirstSupported(candidates, k + 1, tiling, features, props)
  }

  const FORMAT_NOT_FOUND := "failed to find supported format!"

  /**
   * find_supported_format: the first candidate, in order, whose properties
   * under the requested tiling include every requested feature; an error when
   * there is none.
   */
  function FindSupportedFormat(candidates: seq<Format>, tiling: Tiling, features: set<FormatFeature>,
                               props: Format -> FormatProperties): (r: Result<Format>)
    ensures r.Err? <==> forall j :: 0 <= j < |candidates| ==> !Supports(props, tiling, features, candidates[j])
    ensures r.Err? ==> r.msg == FORMAT_NOT_FOUND
    ensures r.Ok? ==> exists i :: (0 <= i < |candidates| && candidates[i] == r.value
      && Supports(props, tiling, features, candidates[i])
      && forall j :: 0 <= j < i ==> !Supports(props, tiling, features, candidates[j]))
  {
    match FirstSupported(candidates, 0, tiling, features, props)
    case Some(i) => Ok(candidates[i])
    case None => Err(FORMAT_NOT_FOUND)
  }

  /** The depth formats find_depth_format probes, in preference order. */
  const DEPTH_CANDIDATES := [D32Sfloat, D32SfloatS8Uint, D24UnormS8Uint]

  /** find_depth_format. */
  function FindDepthFormat(props: Format -> FormatProperties): Result<Format>
  {
    FindSupportedFormat(DEPTH_CANDIDATES, OptimalTiling, {DepthStencilAttachmentFeature}, props)
  }

  /** The depth probe prefers D32, then D32S8, then D24S8, and fails only when none is usable. */
  lemma FindDepthFormatOrder(props: Format -> FormatProperties)
    ensures var d32 := DepthStencilAttachmentFeature in props(D32Sfloat).optimal;
            var d32s8 := DepthStencilAttachmentFeature in props(D32SfloatS8Uint).optimal;
            var d24s8 := DepthStencilAttachmentFeature in props(D24UnormS8Uint).optimal;
            FindDepthFormat(props) ==
              if d32 then Ok(D32Sfloat)
              else if d32s8 then Ok(D32SfloatS8Uint)
              else if d24s8 then Ok(D24UnormS8Uint)
              else Err(FORMAT_NOT_FOUND)
  {
    var f := {DepthStencilAttachmentFeature};
    assert Supports(props, OptimalTiling, f, D32Sfloat) <==> DepthStencilAttachmentFeature in props(D32Sfloat).optimal;
    assert Supports(props, OptimalTiling, f, D32SfloatS8Uint) <==> DepthStencilAttachmentFeature in props(D32SfloatS8Uint).optimal;
    assert Supports(props, OptimalTiling, f, D24UnormS8Uint) <==> DepthStencilAttachmentFeature in props(D24UnormS8Uint).optimal;
  }

  /** The sample counts get_max_usable_sample_count tries, highest first. */
  const SAMPLE_COUNTS: seq<nat> := [64, 32, 16, 8, 4, 2]

  /**
   * get_max_usable_sample_count: the highest of 64 ... 2 that both the colour
   * and the depth framebuffer sample counts allow, otherwise 1.
   */
  function GetMaxUsableSampleCount(colorCounts: set<nat>, depthCounts: set<nat>): (r: nat)
    ensures r == 1 || (r in SAMPLE_COUNTS && r in colorCounts && r in depthCounts)
    ensures forall k :: (0 <= k < |SAMPLE_COUNTS| && SAMPLE_COUNTS[k] in colorCounts && SAMPLE_COUNTS[k] in depthCounts
      ==> SAMPLE_COUNTS[k] <= r)
  {
    var counts := colorCounts * depthCounts;
    if 64 in counts then 64
    else if 32 in counts then 32
    else if 16 in counts then 16
    else if 8 in counts then 8
    else if 4 in counts then 4
    else if 2 in counts then 2
    else 1
  }

  // ---------------------------------------------------------------------
  // Extension and layer containment

  /**
   * check_device_extension_support: starts from the set of required names and
   * erases every available one; supported iff nothing is left.
   */
  method CheckDeviceExtensionSupport(required: seq<string>, available: seq<string>) returns (supported: bool)
    ensures supported <==> forall k :: 0 <= k < |required| ==> required[k] in available
  {
    var remaining := set k | 0 <= k < |required| :: required[k];
    var i := 0;
    while i < |available|
      invariant 0 <= i <= |available|
      invariant forall x :: x in remaining <==> x in required && x !in available[..i]
    {
      remaining := remaining - {available[i]};
      assert available[..i + 1] == available[..i] + [available[i]];
      i := i + 1;
    }
    assert available[..i] == available;
    supported := remaining == {};
    if !supported {
      var x :| x in remaining;
    }
  }

  /**
   * check_validation_layer_support: for each requested layer, look for it
   * among the available ones; fail at the first requested layer not found.
   */
  method CheckValidationLayerSupport(requested: seq<string>, available: seq<string>) returns (supported: bool)
    ensures supported <==> forall k :: 0 <= k < |requested| ==> requested[k] in available
  {
    var k := 0;
    while k < |requested|
      invariant 0 <= k <= |requested|
      invariant forall m :: 0 <= m < k ==> requested[m] in available
    {
      var found := false;
      var j := 0;
      while j < |available|
        invariant 0 <= j <= |available|
        invariant found <==> requested[k] in available[..j]
      {
        if requested[k] == available[j] {
          found := true;
          break;
        }
        assert available[..j + 1] == available[..j] + [available[j]];
        j := j + 1;
      }
      assert found <==> requested[k] in available by {
        if !found { assert j == |available|; assert available[..j] == available; }
      }
      if !found {
        return false;
      }
      k := k + 1;
    }
    return true;
  }

  // ---------------------------------------------------------------------
  // create_swap_chain

  /** What query_swap_chain_support reports for the chosen device and surface. */
  datatype SwapChainSupport = SwapChainSupport(
    formats: seq<SurfaceFormat>, presentModes: seq<PresentMode>, capabilities: SurfaceCapabilities)

  /** The fields of VkSwapchainCreateInfoKHR that create_swap_chain computes. */
  datatype SwapChainCreateInfo = SwapChainCreateInfo(
    minImageCount: nat, surfaceFormat: SurfaceFormat, extent: Extent,
    sharing: Sharing, presentMode: PresentMode)

  /** The swap-chain state of the Engine that create_swap_chain assigns. */
  class FrgEngine {
    var swapChain: Handle
    var swapChainImages: seq<Handle>
    var swapChainImageFormat: Format
    var swapChainExtent: Extent

    constructor()
      ensures swapChain == Null && swapChainImages == []
    {
      swapChain := Null;
      swapChainImages := [];
      swapChainImageFormat := B8G8R8A8Srgb;
      swapChainExtent := Extent(0, 0);
    }

    /**
     * create_swap_chain: computes the create info from the surface support,
     * the framebuffer size and the queue families; on a failed creation
     * nothing is assigned, otherwise the chain, its images (as many as the
     * driver returns), its format and its extent are stored.
     */
    method CreateSwapChain(support: SwapChainSupport, fbWidth: int, fbHeight: int,
                           indices: QueueFamilyIndices, createResult: VkResult,
                           newChain: Handle, driverImages: seq<Handle>)
      returns (info: SwapChainCreateInfo, err: Option<string>)
      requires |support.formats| > 0
      requires support.capabilities.minImageCount <= UINT32_MAX
      requires IsComplete(indices)
      modifies this
      ensures info.surfaceFormat == ChooseSwapSurfaceFormat(support.formats)
      ensures info.presentMode == ChooseSwapPresentMode(support.presentModes)
      ensures info.extent == ChooseSwapExtent(support.capabilities, fbWidth, fbHeight)
      ensures info.minImageCount == ImageCount(support.capabilities)
      ensures info.sharing == SwapChainSharing(indices)
      ensures createResult != Success ==>
        err == Some("failed to create swap chain!")
        && swapChain == old(swapChain) && swapChainImages == old(swapChainImages)
        && swapChainImageFormat == old(swapChainImageFormat) && swapChainExtent == old(swapChainExtent)
      ensures createResult == Success ==>
        err == None && swapChain == newChain && swapChainImages == driverImages
        && swapChainImageFormat == info.surfaceFormat.format && swapChainExtent == info.extent
    {
      var surfaceFormat := ChooseSwapSurfaceFormat(support.formats);
      var presentMode := ChooseSwapPresentMode(support.presentModes);
      var extent := ChooseSwapExtent(support.capabilities, fbWidth, fbHeight);
      var imageCount := ImageCount(support.capabilities);
      info := SwapChainCreateInfo(imageCount, surfaceFormat, extent, SwapChainSharing(indices), presentMode);
      if createResult != Success {
        err := Some("failed to create swap chain!");
        return;
      }
      err := None;
      swapChain := newChain;
      swapChainImages := driverImages;
      swapChainImageFormat := surfaceFormat.format;
      swapChainExtent := extent;
    }
  }
}
