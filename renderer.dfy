/**
 * FrgRenderer: the frame-pacing state machine. A frame is begun by acquiring
 * a swap-chain image and ended by submitting the frame's command buffer; the
 * command buffer used rotates over MAX_FRAMES_IN_FLIGHT slots, and an
 * out-of-date or suboptimal chain is recreated. Driver and window responses
 * (acquire, submit, begin/end recording, allocation, the new chain's formats)
 * are parameters.
 */
module Renderer {
  import opened VkTypes
  import opened SwapChain

  /** The exceptions FrgRenderer throws. */
  datatype Error = FormatChanged | AllocateFailed | AcquireFailed | BeginFailed | EndFailed | SubmitFailed

  /** What beginFrame returns: the frame's command buffer, null after a recreate, or a throw. */
  datatype BeginOutcome = Started(commandBuffer: Handle) | Recreated | Failed(error: Error)

  /** What the driver supplies to one recreateSwapChain: the new chain, and the command-buffer allocation. */
  datatype Recreation = Recreation(chain: ChainFormats, allocResult: VkResult, buffers: seq<Handle>)

  /** The slot that follows slot i. */
  function NextFrameIndex(i: int): (r: int)
    ensures 0 <= r < MAX_FRAMES_IN_FLIGHT
  {
    (i + 1) % MAX_FRAMES_IN_FLIGHT
  }

  /** The exception recreateSwapChain throws, if any, given the chain it replaces. */
  function RecreateError(previous: Option<ChainFormats>, r: Recreation): Option<Error>
  {
    if previous.Some? && !CompareSwapFormats(previous.value, r.chain) then Some(FormatChanged)
    else if r.allocResult != Success then Some(AllocateFailed)
    else None
  }

  /** The command buffers after a recreate over a valid renderer. */
  function BuffersAfterRecreate(previous: Option<ChainFormats>, r: Recreation, buffers: seq<Handle>): seq<Handle>
  {
    if RecreateError(previous, r) == None then r.buffers else buffers
  }

  /** Whether endFrame takes the recreate path (frg_renderer.cpp:95). */
  predicate NeedsRecreate(submitResult: VkResult, windowResized: bool)
  {
    submitResult == ErrorOutOfDate || submitResult == Suboptimal || windowResized
  }

  /** The slot in use after k rotations starting from slot i. */
  function RotateBy(i: int, k: nat): int
  {
    if k == 0 then i else NextFrameIndex(RotateBy(i, k - 1))
  }

  /** k completed frames starting in slot i leave the renderer in slot (i + k) mod MAX_FRAMES_IN_FLIGHT. */
  lemma {:induction false} RotateByIsModular(i: int, k: nat)
    requires 0 <= i < MAX_FRAMES_IN_FLIGHT
    ensures RotateBy(i, k) == (i + k) % MAX_FRAMES_IN_FLIGHT
  {
    if k > 0 {
      RotateByIsModular(i, k - 1);
    }
  }

  /** Two consecutive frames never record into the same command buffer slot. */
  lemma ConsecutiveFramesDiffer(i: int)
    requires 0 <= i < MAX_FRAMES_IN_FLIGHT
    ensures NextFrameIndex(i) != i
    ensures NextFrameIndex(NextFrameIndex(i)) == i
  {
  }

  /** The clear values of the swap-chain render pass: grey colour, depth 1 and stencil 0. */
  const SWAP_CHAIN_CLEARS: seq<ClearValue> := [ClearColor(Vec4(0.1, 0.1, 0.1, 1.0)), ClearDepth(1.0, 0)]

  class FrgRenderer {
    var swapChain: Option<ChainFormats>
    var commandBuffers: seq<Handle>
    var currentImageIndex: nat
    var currentFrameIndex: int
    var isFrameStarted: bool
    /** FrgWindow's framebuffer-resized flag, read and reset by endFrame. */
    var windowResized: bool

    ghost predicate Valid()
      reads this
    {
      swapChain.Some? && |commandBuffers| == MAX_FRAMES_IN_FLIGHT && 0 <= currentFrameIndex < MAX_FRAMES_IN_FLIGHT
    }

    /** The constructor with a first chain and a successful allocation. */
    constructor (chain: ChainFormats, buffers: seq<Handle>)
      requires |buffers| == MAX_FRAMES_IN_FLIGHT
      ensures Valid()
      ensures swapChain == Some(chain) && commandBuffers == buffers
      ensures currentFrameIndex == 0 && !isFrameStarted && !windowResized
    {
      swapChain := Some(chain);
      commandBuffers := buffers;
      currentImageIndex := 0;
      currentFrameIndex := 0;
      isFrameStarted := false;
      windowResized := false;
    }

    /** getCurrentCommandBuffer: the buffer of the current slot, only while a frame is in progress. */
    function CurrentCommandBuffer(): (h: Handle)
      reads this
      requires Valid() && isFrameStarted
    {
      commandBuffers[currentFrameIndex]
    }

    /** createCommandBuffers: resize to MAX_FRAMES_IN_FLIGHT and allocate, throwing on failure. */
    method CreateCommandBuffers(allocResult: VkResult, buffers: seq<Handle>) returns (err: Option<Error>)
      requires |buffers| == MAX_FRAMES_IN_FLIGHT
      modifies this`commandBuffers
      ensures |commandBuffers| == MAX_FRAMES_IN_FLIGHT
      ensures err == (if allocResult == Success then None else Some(AllocateFailed))
      ensures commandBuffers == (if allocResult == Success then buffers else Resized(old(commandBuffers), MAX_FRAMES_IN_FLIGHT))
    {
      commandBuffers := Resized(commandBuffers, MAX_FRAMES_IN_FLIGHT);
      if allocResult != Success {
        return Some(AllocateFailed);
      }
      commandBuffers := buffers;
      err := None;
    }

    /** freeCommandBuffers: every buffer is handed back to the pool and the list is emptied. */
    method FreeCommandBuffers() returns (freed: seq<Handle>)
      modifies this`commandBuffers
      ensures freed == old(commandBuffers) && commandBuffers == []
    {
      freed := commandBuffers;
      commandBuffers := [];
    }

    /**
     * recreateSwapChain over an existing chain: the new chain replaces the old
     * one; a change of image or depth format is fatal (after the replacement,
     * before any allocation); otherwise fresh command buffers are allocated.
     */
    method RecreateSwapChain(r: Recreation) returns (err: Option<Error>)
      requires Valid() && |r.buffers| == MAX_FRAMES_IN_FLIGHT
      modifies this`swapChain, this`commandBuffers
      ensures Valid()
      ensures swapChain == Some(r.chain)
      ensures err == RecreateError(old(swapChain), r)
      ensures commandBuffers == BuffersAfterRecreate(old(swapChain), r, old(commandBuffers))
    {
      var previous := swapChain;
      swapChain := Some(r.chain);
      if previous.Some? && !CompareSwapFormats(previous.value, r.chain) {
        return Some(FormatChanged);
      }
      err := CreateCommandBuffers(r.allocResult, r.buffers);
      assert Resized(old(commandBuffers), MAX_FRAMES_IN_FLIGHT) == old(commandBuffers);
    }

    /**
     * beginFrame. No frame may be in progress. An out-of-date acquire recreates
     * the chain and yields no frame; any other failure but suboptimal throws;
     * otherwise the frame is started and the current slot's buffer is returned.
     */
    method BeginFrame(acquireResult: VkResult, imageIndex: nat, r: Recreation, beginResult: VkResult)
      returns (out: BeginOutcome)
      requires Valid() && !isFrameStarted
      requires |r.buffers| == MAX_FRAMES_IN_FLIGHT
      modifies this
      ensures Valid()
      ensures currentFrameIndex == old(currentFrameIndex) && windowResized == old(windowResized)
      ensures currentImageIndex == imageIndex
      ensures acquireResult == ErrorOutOfDate ==>
        && !isFrameStarted
        && swapChain == Some(r.chain)
        && out == (if RecreateError(old(swapChain), r) == None then Recreated else Failed(RecreateError(old(swapChain), r).value))
        && commandBuffers == BuffersAfterRecreate(old(swapChain), r, old(commandBuffers))
      ensures acquireResult != ErrorOutOfDate ==> swapChain == old(swapChain) && commandBuffers == old(commandBuffers)
      ensures acquireResult !in {Success, Suboptimal, ErrorOutOfDate} ==> out == Failed(AcquireFailed) && !isFrameStarted
      ensures acquireResult in {Success, Suboptimal} ==>
        && isFrameStarted
        && out == (if beginResult == Success then Started(commandBuffers[currentFrameIndex]) else Failed(BeginFailed))
      ensures out.Started? ==> out.commandBuffer == CurrentCommandBuffer()
    {
      currentImageIndex := imageIndex;
      if acquireResult == ErrorOutOfDate {
        var err := RecreateSwapChain(r);
        if err.Some? {
          return Failed(err.value);
        }
        return Recreated;
      }
      if acquireResult != Success && acquireResult != Suboptimal {
        return Failed(AcquireFailed);
      }
      isFrameStarted := true;
      var commandBuffer := CurrentCommandBuffer();
      if beginResult != Success {
        return Failed(BeginFailed);
      }
      out := Started(commandBuffer);
    }

    /**
     * endFrame. A frame must be in progress. The frame's buffer is submitted;
     * an out-of-date or suboptimal present, or a resized window, resets the
     * resize flag and recreates the chain; then the frame ends and the slot
     * rotates. Any throw leaves the frame in progress and the slot unchanged.
     */
    method EndFrame(compute: bool, endResult: VkResult, submitResult: VkResult, r: Recreation)
      returns (submitted: Option<Handle>, err: Option<Error>)
      requires Valid() && isFrameStarted
      requires |r.buffers| == MAX_FRAMES_IN_FLIGHT
      modifies this
      ensures Valid()
      ensures currentImageIndex == old(currentImageIndex)
      ensures endResult != Success ==>
        && submitted == None && err == Some(EndFailed)
        && swapChain == old(swapChain) && commandBuffers == old(commandBuffers) && windowResized == old(windowResized)
        && isFrameStarted && currentFrameIndex == old(currentFrameIndex)
      ensures endResult == Success ==> submitted == Some(old(commandBuffers[currentFrameIndex]))
      ensures endResult == Success && NeedsRecreate(submitResult, old(windowResized)) ==>
        && !windowResized
        && swapChain == Some(r.chain)
        && err == RecreateError(old(swapChain), r)
        && commandBuffers == BuffersAfterRecreate(old(swapChain), r, old(commandBuffers))
      ensures endResult == Success && !NeedsRecreate(submitResult, old(windowResized)) ==>
        && swapChain == old(swapChain) && commandBuffers == old(commandBuffers) && windowResized == old(windowResized)
        && err == (if submitResult == Success then None else Some(SubmitFailed))
      ensures err == None ==> !isFrameStarted && currentFrameIndex == NextFrameIndex(old(currentFrameIndex))
      ensures err != None ==> isFrameStarted && currentFrameIndex == old(currentFrameIndex)
    {
      var commandBuffer := CurrentCommandBuffer();
      if endResult != Success {
        return None, Some(EndFailed);
      }
      submitted := Some(commandBuffer);
      if submitResult == ErrorOutOfDate || submitResult == Suboptimal || windowResized {
        windowResized := false;
        err := RecreateSwapChain(r);
        if err.Some? {
          return;
        }
      } else if submitResult != Success {
        return submitted, Some(SubmitFailed);
      }
      err := None;
      isFrameStarted := false;
      currentFrameIndex := (currentFrameIndex + 1) % MAX_FRAMES_IN_FLIGHT;
    }

    /**
     * beginSwapChainRenderPass: only on the current frame's buffer; the pass
     * draws into the framebuffer of the acquired image, and the render area,
     * viewport and scissor all cover the swap-chain extent.
     */
    method BeginSwapChainRenderPass(commandBuffer: Handle) returns (cmds: seq<Cmd>)
      requires Valid() && isFrameStarted && commandBuffer == CurrentCommandBuffer()
      ensures cmds == [
        BeginRenderPass(SwapChainPass(currentImageIndex), swapChain.value.extent, SWAP_CHAIN_CLEARS),
        SetViewport(swapChain.value.extent),
        SetScissor(swapChain.value.extent)]
    {
      var extent := swapChain.value.extent;
      cmds := [BeginRenderPass(SwapChainPass(currentImageIndex), extent, SWAP_CHAIN_CLEARS)];
      cmds := cmds + [SetViewport(extent)];
      cmds := cmds + [SetScissor(extent)];
    }

    /** endSwapChainRenderPass: only on the current frame's buffer. */
    method EndSwapChainRenderPass(commandBuffer: Handle) returns (cmds: seq<Cmd>)
      requires Valid() && isFrameStarted && commandBuffer == CurrentCommandBuffer()
      ensures cmds == [EndRenderPass(SwapChainPass(currentImageIndex))]
    {
      cmds := [EndRenderPass(SwapChainPass(currentImageIndex))];
    }
  }
}
