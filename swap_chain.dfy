/**
 * The part of FrgSwapChain the renderer relies on: the number of frames in
 * flight and the comparison of two chains' image and depth formats.
 */
module SwapChain {
  import opened VkTypes

  /** FrgSwapChain::MAX_FRAMES_IN_FLIGHT. */
  const MAX_FRAMES_IN_FLIGHT: nat := 2

  /** What a swap chain fixes when it is created: image format, depth format, extent. */
  datatype ChainFormats = ChainFormats(image: Format, depth: Format, extent: Extent)

  /** compareSwapFormats: the other chain has this chain's depth and image formats. */
  predicate CompareSwapFormats(self: ChainFormats, other: ChainFormats)
  {
    other.depth == self.depth && other.image == self.image
  }

  lemma CompareSwapFormatsIsEquality(a: ChainFormats, b: ChainFormats)
    ensures a.extent == b.extent ==> (CompareSwapFormats(a, b) <==> a == b)
    ensures CompareSwapFormats(a, b) <==> (a.image == b.image && a.depth == b.depth)
  {
  }

  lemma CompareSwapFormatsReflexive(a: ChainFormats)
    ensures CompareSwapFormats(a, a)
  {
  }

  lemma CompareSwapFormatsSymmetric(a: ChainFormats, b: ChainFormats)
    ensures CompareSwapFormats(a, b) == CompareSwapFormats(b, a)
  {
  }
}
