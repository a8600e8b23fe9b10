# RenderForge core, modelled in Dafny

RenderForge is a small Vulkan renderer. It has:

- a deferred pipeline: a G-buffer pass, screen-space ambient occlusion (SSAO) with a blur pass, and a lighting pass;
- a compute particle system;
- a keyframe camera animation;
- an XML scene loader.

This project models the renderer's own logic, file by file. Each C++ file of the core becomes one Dafny module.

Vulkan is modelled as follows:

- **Handles.** Every Vulkan handle is a value `Handle = Null | Live(id)`.
- **Device calls.** The device (`Device.FrgDevice`) keeps a log of the create and destroy calls made on it, and hands out fresh handles.
- **Command buffers.** Recording into a command buffer appends `Cmd` values to a sequence.
- **Driver answers.** The driver's answers (results, memory types, formats) are parameters.
- **Exceptions.** A thrown exception becomes an error value; an `assert` in the source becomes a precondition.

The modules, and what they are specified against:

| module | models |
|---|---|
| `Engine` | the stand-alone engine |
| `SwapChain`, `Renderer` | swap chain format choice; the frame state machine |
| `Descriptor` | descriptor layouts, pool and writes, and the compute ping-pong |
| `FirstApp` | the application loop |
| `SSAORenderSystem`, `GBuffer`, `SSAO` | the deferred passes and their resources |
| `Pipeline` | pipeline state |
| `Mesh`, `Model` | vertex and index buffers, and the scene-graph flattening |
| `Lighting` | the light manager |
| `CameraAnimation` | keyframe sorting and interpolation |
| `GameObject` | game objects and their ids |
| `SceneLoader` | the XML scene loader |

Where the source changes state, the model is imperative:

- a class with those fields;
- methods with `modifies` clauses;
- loops with invariants.

Those methods are proved against functions on the old state, and the properties are proved as lemmas about those functions. Code that only computes becomes functions and lemmas.

Inputs the program gets from outside are parameters:

- file contents;
- the Assimp importer's scene tree;
- the tinyxml2 element tree, where attribute conversions are given with each attribute;
- the random-number streams;
- key presses and frame times.

Floating-point values are modelled as `real`.

## Model

| member | source | states |
|---|---|---|
| Engine.ChooseSwapSurfaceFormat | render_forge/src/Engine/Engine.cpp:407-415 | the chosen format is one of those offered: B8G8R8A8_SRGB with the sRGB non-linear colour space when that is offered, otherwise the first offered |
| Engine.ScanSurfaceFormats | render_forge/src/Engine/Engine.cpp:408-414 | the scan from position k returns the preferred format iff it occurs at or after k, and otherwise falls back to the first format |
| Engine.ChooseSwapPresentMode | render_forge/src/Engine/Engine.cpp:417-423 | MAILBOX exactly when it is offered, FIFO otherwise |
| Engine.ToUint32 | render_forge/src/Engine/Engine.cpp:425-441 | the static_cast to uint32_t is below 2^32 and leaves values already in range unchanged |
| Engine.Clamp | render_forge/src/Engine/Engine.cpp:425-441 | std::clamp stays in [lo, hi] when lo <= hi, keeps a value already in range, and returns one of its three arguments |
| Engine.ChooseSwapExtent | render_forge/src/Engine/Engine.cpp:425-441 | the surface's current extent unless its width is UINT32_MAX; otherwise the framebuffer size, clamped into [min, max] per axis, and equal to the framebuffer size on an axis where that already fits |
| Engine.ImageCount | render_forge/src/Engine/Engine.cpp:361-364 | one more than minImageCount, at most maxImageCount when a maximum is given; the 32-bit addition wraps to 0 at UINT32_MAX |
| Engine.IsCompleteMeansBothSet | render_forge/src/Engine/QueueFamilyIndicies.cpp:3-5 | is_complete holds iff both family indices are set |
| Engine.FindQueueFamilies | render_forge/src/Engine/Engine.cpp:244-270 | each index found names a family with the role; an unset index means no family has it; complete iff both roles occur; the scan stops at the first index where both are known, keeping the latest family of each role up to there; when it never completes, the role found keeps the last family that has it |
| Engine.SwapChainSharing | render_forge/src/Engine/Engine.cpp:376-388 | CONCURRENT over [graphics, present] exactly when the two families differ, otherwise EXCLUSIVE with no indices |
| Engine.FirstSupported | render_forge/src/Engine/Engine.cpp:560-576 | the index found is the first candidate from k on whose tiling features include all requested ones; none found means no candidate from k on qualifies |
| Engine.FindSupportedFormat | render_forge/src/Engine/Engine.cpp:560-576 | the first qualifying candidate, in order; the error "failed to find supported format!" exactly when none qualifies |
| Engine.FindDepthFormatOrder | render_forge/src/Engine/Engine.cpp:554-558 | the depth probe prefers D32_SFLOAT, then D32_SFLOAT_S8_UINT, then D24_UNORM_S8_UINT (optimal tiling, depth-stencil attachment), and fails only when none qualifies |
| Engine.GetMaxUsableSampleCount | render_forge/src/Engine/Engine.cpp:578-591 | the result is 1 or a count from 64 down to 2 allowed by both the colour and the depth sample counts, and no allowed count in that list is higher |
| Engine.CheckDeviceExtensionSupport | render_forge/src/Engine/Engine.cpp:272-285 | supported iff every required extension is available |
| Engine.CheckValidationLayerSupport | render_forge/src/Engine/Engine.cpp:135-155 | supported iff every requested layer is available |
| Engine.FrgEngine.constructor | render_forge/src/Engine/Engine.cpp:3-22 | before create_swap_chain there is no chain and no image |
| Engine.FrgEngine.CreateSwapChain | render_forge/src/Engine/Engine.cpp:355-405 | the create info takes the chosen format, present mode, extent, image count and sharing; a failed creation throws "failed to create swap chain!" and leaves the engine's state alone; success stores the chain, the driver's images, the format and the extent |
| SwapChain.CompareSwapFormatsIsEquality | src/frg_swap_chain.hpp:49-52 | compareSwapFormats holds iff the image and the depth formats both agree; for chains of the same extent it is equality of the formats |
| SwapChain.CompareSwapFormatsReflexive | src/frg_swap_chain.hpp:49-52 | a chain's formats always compare equal to its own |
| SwapChain.CompareSwapFormatsSymmetric | src/frg_swap_chain.hpp:49-52 | comparing a with b gives the same answer as comparing b with a |
| VkTypes.Resized | src/frg_renderer.cpp:39 | std::vector::resize to n keeps the first n handles and pads with null handles |
| Device.DestroyCalls | src/frg_ssao.cpp:67-129 | the destruction log of a handle list holds at most one call per handle, and only calls destroying live handles of the list |
| Device.DestroyCallsDestroysEveryLive | src/frg_ssao.cpp:67-129 | a handle is destroyed by the cleanup iff it is in the list and live (the source's VK_NULL_HANDLE checks) |
| Device.DestroyCallsOfNulls | src/frg_ssao.cpp:67-129 | a list of null handles destroys nothing |
| Device.DestroyCallsOfLive | src/frg_ssao.cpp:67-129 | a list of live handles is destroyed one call per handle, in list order |
| Device.DestroyCallsAppend | src/frg_ssao.cpp:67-129 | destroying two lists one after the other logs the same calls as destroying their concatenation |
| Device.FrgDevice.FindSupportedFormat | src/frg_device.hpp:59-61 | the device's findSupportedFormat returns a candidate supporting the features under the tiling, and fails exactly when no candidate does |
| Device.ReleaseAll | src/frg_ssao.cpp:67-129 | destroying a list of handles in order appends exactly the destruction calls of its live handles to the device's log |
| Renderer.NextFrameIndex | src/frg_renderer.cpp:102 | the next slot is always in [0, MAX_FRAMES_IN_FLIGHT) |
| Renderer.RotateByIsModular | src/frg_renderer.cpp:102 | k completed frames from slot i end in slot (i + k) mod MAX_FRAMES_IN_FLIGHT |
| Renderer.ConsecutiveFramesDiffer | src/frg_renderer.cpp:102 | with two frames in flight, consecutive frames use different slots and every second frame returns to the same slot |
| Renderer.FrgRenderer.constructor | src/frg_renderer.cpp:9-12 | a new renderer has the first chain, MAX_FRAMES_IN_FLIGHT command buffers, slot 0, no frame started, and no resize pending |
| Renderer.FrgRenderer.CreateCommandBuffers | src/frg_renderer.cpp:38-49 | the list always has MAX_FRAMES_IN_FLIGHT entries afterwards; on success they are the driver's buffers, on failure the resized old list and the error "failed to allocate command buffers!" |
| Renderer.FrgRenderer.FreeCommandBuffers | src/frg_renderer.cpp:51-59 | exactly the buffers held are freed and the list is emptied |
| Renderer.FrgRenderer.RecreateSwapChain | src/frg_renderer.cpp:16-36 | the new chain replaces the old; a changed image or depth format is the error "Swap chain image or depth format has changed!"; otherwise the command buffers are reallocated |
| Renderer.FrgRenderer.BeginFrame | src/frg_renderer.cpp:61-84 | an out-of-date acquire recreates the chain and starts no frame; failures other than suboptimal throw and start no frame; otherwise the frame starts and the current slot's buffer is returned; the slot never changes |
| Renderer.FrgRenderer.EndFrame | src/frg_renderer.cpp:86-103 | the current buffer is submitted; out-of-date, suboptimal or a resized window reset the resize flag and recreate the chain; a submit error without any of those throws; whenever nothing throws, the frame ends and the slot becomes (slot + 1) mod MAX_FRAMES_IN_FLIGHT; a throw leaves the frame started and the slot unchanged |
| Renderer.FrgRenderer.BeginSwapChainRenderPass | src/frg_renderer.cpp:105-141 | only on the current frame's buffer: begins the swap-chain pass on the framebuffer of the acquired image, with the clear values (0.1, 0.1, 0.1, 1) and depth 1, and a viewport and scissor covering the swap-chain extent |
| Renderer.FrgRenderer.EndSwapChainRenderPass | src/frg_renderer.cpp:143-150 | only on the current frame's buffer: ends the swap-chain pass |
| Descriptor.Prev | src/frg_descriptor.cpp:187 | the storage buffer slot i reads as "last frame" is (i + n - 1) mod n, always a valid slot |
| Descriptor.Next | src/frg_descriptor.cpp:200 | the slot after slot i is again a valid slot |
| Descriptor.PrevCases | src/frg_descriptor.cpp:187 | slot 0 reads the last slot's buffer as "last frame"; every other slot reads the buffer of the slot before it |
| Descriptor.NextCases | src/frg_descriptor.cpp:200 | the slot after the last one is slot 0; otherwise it is i + 1 |
| Descriptor.PrevForTwoFrames | src/frg_descriptor.cpp:187 | with two frames in flight, slot 0 reads buffer 1 and slot 1 reads buffer 0 as "last frame" |
| Descriptor.PrevIsNotSelf | src/frg_descriptor.cpp:186-210 | with at least two slots, no set binds the same storage buffer as both "last frame" and "current frame" |
| Descriptor.PrevNextInverse | src/frg_descriptor.cpp:186-210 | what slot i writes as "current" is what the next slot reads as "last frame", and the other way round |
| Descriptor.PrevIsBijection | src/frg_descriptor.cpp:187 | the "last frame" choice is injective on slots, with the next slot as its inverse: every storage buffer is "last frame" for exactly one set |
| Descriptor.GraphicsWritesFitLayout | src/frg_descriptor.cpp:116-148 | the sampler write and the texture-array write fit the graphics layout (binding 0: one sampler; binding 1: 256 sampled images) exactly when there are at most 256 image infos |
| Descriptor.CompWritesAt | src/frg_descriptor.cpp:171-213 | the compute writes come three per set, the three of set i at positions 3i to 3i+2, all aimed at set i |
| Descriptor.CompWritesLength | src/frg_descriptor.cpp:171-213 | k sets give 3k compute writes |
| Descriptor.PingPong | src/frg_descriptor.cpp:171-213 | the storage buffer slot i binds as "current" (binding 2) is the one the next slot binds as "last frame" (binding 1); binding 0 of set i is uniform buffer i |
| Descriptor.CompWritesDemand | src/frg_descriptor.cpp:171-213 | k compute sets take k uniform-buffer descriptors, 2k storage-buffer descriptors and no samplers |
| Descriptor.SlotDemand | src/frg_descriptor.cpp:177-210 | one set's three writes take one uniform and two storage descriptors |
| Descriptor.PoolSizeCounts | src/frg_descriptor.cpp:81-102 | the pool holds 1 sampler, 256 sampled images, MAX_FRAMES_IN_FLIGHT uniform buffers, 2 MAX_FRAMES_IN_FLIGHT storage buffers and no combined image samplers |
| Descriptor.PoolCoversCompWrites | src/frg_descriptor.cpp:81-102 | the pool's uniform and storage descriptors cover the writes of all MAX_FRAMES_IN_FLIGHT compute sets, and its maxSets covers the graphics set plus the compute sets |
| Descriptor.LayoutDemands | src/frg_descriptor.cpp:16-79 | one graphics set takes 1 sampler and 256 sampled images; one compute set with the declared layout takes 2 uniform and 1 storage descriptors; with binding 2 typed as storage it takes 1 uniform and 2 storage |
| Descriptor.CompWritesMissDeclaredLayout | src/frg_descriptor.cpp:65-69 | each set's third write is a storage buffer at binding 2, a binding the declared compute layout types as a uniform buffer; and MAX_FRAMES_IN_FLIGHT sets of the declared layout need more uniform descriptors than the pool holds |
| Descriptor.CompWritesFitCorrectedLayout | src/frg_descriptor.cpp:171-213 | with binding 2 typed as a storage buffer, every compute write fits its layout, and the pool covers the graphics set plus all compute sets for every descriptor type |
| Descriptor.FrgDescriptor.constructor | src/frg_descriptor.cpp:4-8 | the object holds the two layouts and the pool made for it, no sets yet, and has issued no writes |
| Descriptor.NewDescriptor | src/frg_descriptor.cpp:4-114 | the constructor creates the graphics layout, the compute layout and the pool, then allocates the graphics set from that pool with the graphics layout; the first step that fails throws its own error, and what the earlier steps created stays alive; it succeeds exactly when all four steps do |
| Descriptor.FrgDescriptor.Destroy | src/frg_descriptor.cpp:10-14 | the destructor destroys the pool, then the graphics layout, then the compute layout |
| Descriptor.TeardownUndoesSetup | src/frg_descriptor.cpp:4-14 | the destructor destroys exactly the objects the constructor created, each once when they are distinct |
| Descriptor.FrgDescriptor.CreateDescriptorSets | src/frg_descriptor.cpp:104-114 | a successful allocation stores a new graphics set, allocated from the object's pool with the graphics layout; a failed one is the error "failed to allocate descriptor set!" and changes nothing |
| Descriptor.FrgDescriptor.WriteDescriptorSets | src/frg_descriptor.cpp:116-148 | one update is issued: the sampler at binding 0 and the image infos at binding 1 of the graphics set |
| Descriptor.FrgDescriptor.WriteCompDescriptorSets | src/frg_descriptor.cpp:150-214 | the set list is resized to MAX_FRAMES_IN_FLIGHT; a failed allocation is the error and issues no write; otherwise the sets are the allocated ones and the writes are, set by set, uniform buffer i, storage buffer prev(i) and storage buffer i |
| FirstApp.InitialState | src/first_app.cpp:81-98 | before the loop no key counts as pressed, the animation clock is 0, and the camera mode, the SSAO switch and the debug mode come from the scene settings |
| FirstApp.CRem | src/first_app.cpp:135 | C++ integer remainder truncates toward zero: for a non-negative dividend it lies in [0, b), for a negative one in (-b, 0] |
| FirstApp.CycleDebugModeInRange | src/first_app.cpp:133-139 | from a mode in [0, 4), the C key goes to the next mode, wrapping 3 to 0, stays in range, and returns to the start after four presses |
| FirstApp.CycleDebugModeFromNegative | src/first_app.cpp:133-139 | a negative debug mode taken from the scene file cycles to the C++ remainder -((-m - 1) mod 4), in (-4, 0], so -2 goes to -1; the result is negative exactly when m + 1 is not a multiple of 4; four presses always reach a valid mode in [0, 4) |
| FirstApp.CycleDebugModeCorrectedInRange | src/first_app.cpp:133-139 | the corrected cycle, with a never-negative remainder, always lands in [0, 4), steps 0, 1, 2, 3 in turn, agrees with the source from every mode >= -1, and sends -2 to 3 |
| FirstApp.RecordOffscreenPasses | src/first_app.cpp:165-190 | the pre-lighting passes of a frame are the ones given by the SSAO switch |
| FirstApp.RecordLightingPass | src/first_app.cpp:194-230 | the lighting pass, the particle compute and draw, the end of the pass and endFrame(true), as a function of the debug mode and the frame time |
| FirstApp.RunUnfold | src/first_app.cpp:108-232 | running one more iteration is one more Step of the state and one more frame's calls appended to the log |
| FirstApp.UpdateState | src/first_app.cpp:112-158 | the key handling and clock update of one loop pass give the next loop state |
| FirstApp.RecordFrame | src/first_app.cpp:147-231 | one loop pass after the key handling records the calls of that frame |
| FirstApp.Run | src/first_app.cpp:108-232 | the loop over the given iterations ends in the state and with the call log of running Step frame by frame |
| FirstApp.ToggleOnRisingEdgeOnly | src/first_app.cpp:112-139 | the camera mode and the SSAO switch flip exactly on the iteration where their key goes down; the debug mode cycles exactly then; each "was pressed" flag is the key's state at this iteration |
| FirstApp.RunStateFollowsLastKeys | src/first_app.cpp:122-139 | after a non-empty run the "was pressed" flags are the key states of the last iteration |
| FirstApp.HoldingKeyTogglesOnce | src/first_app.cpp:112-130 | holding M and O down for any number of iterations changes the camera mode and the SSAO switch at most once, in the first |
| FirstApp.SwitchToAutoRestartsAnimation | src/first_app.cpp:113-121 | switching to the automatic camera resets the animation clock, which then advances by this frame's time (or restarts at 0 past the animation's end) |
| FirstApp.ManualModeKeepsClock | src/first_app.cpp:147-158 | in manual mode the animation clock does not move |
| FirstApp.AnimationTimeBounded | src/first_app.cpp:147-153 | with non-negative frame times the animation clock stays within [0, end time] for the whole run |
| FirstApp.DebugModeStaysInRange | src/first_app.cpp:133-139 | a debug mode that starts in [0, 4) stays there for the whole run |
| FirstApp.FrameEventsShape | src/first_app.cpp:147-231 | without a frame only the camera is updated; with one, the frame has the swap-chain pass begun and ended and ends with endFrame(true) |
| FirstApp.OffscreenPasses | src/first_app.cpp:165-190 | the pre-lighting events come strictly in the order G-buffer, SSAO, blur, each pass begun before it draws and ended after; the blur pass always runs and ends the sequence; each pass draws exactly when SSAO is on, and with it off only the blur pass is begun and ended |
| SSAORenderSystem.SSAOWritesMatchLayout | src/ssao_render_system.cpp:141-183 | the four SSAO writes (position, normal, noise, kernel) land one per binding of the SSAO layout, in order, each with its binding's type and count, on the SSAO set |
| SSAORenderSystem.BlurWriteMatchesLayout | src/ssao_render_system.cpp:185-211 | the blur write fits the blur layout and binds exactly the image it is given |
| SSAORenderSystem.PoolCoversSets | src/ssao_render_system.cpp:107-124 | the pool's 5 combined image samplers and 1 uniform buffer in at most 2 sets cover the SSAO set's 3 samplers and uniform buffer plus the blur set's sampler, and the writes fill exactly what the two sets hold |
| SSAORenderSystem.WritesFillLayout | src/ssao_render_system.cpp:126-212 | writes that match a layout binding for binding take exactly what a set of that layout holds |
| SSAORenderSystem.DemandsOfConstants | src/ssao_render_system.cpp:46-124 | the pool's capacity and each layout's demand, per descriptor type |
| SSAORenderSystem.ClearsMatchAttachments | src/ssao_render_system.cpp:350-353 | one clear value per attachment: zero for the G-buffer's colour attachments, depth 1 and stencil 0 for its depth attachment, and white for the SSAO and blur targets |
| SSAORenderSystem.ConfigsMatchPasses | src/ssao_render_system.cpp:233-339 | the G-buffer pipeline blends two attachments and tests and writes depth; the full-screen pipelines blend one and do neither; all draw triangle lists and get the Vertex layout from the graphics-only constructor |
| SSAORenderSystem.CreateDescriptors | src/ssao_render_system.cpp:46-212 | the two set layouts, the pool and the two sets are created; the SSAO set gets the G-buffer's position and normal targets, the noise texture and the kernel; the blur set gets the raw SSAO target |
| SSAORenderSystem.CreatePipeline | src/ssao_render_system.cpp:214-339 | a pipeline layout and then a graphics-only pipeline over the G-buffer or full-screen config are created |
| SSAORenderSystem.DrawsOf | src/ssao_render_system.cpp:465-466 | each model's commands are the bind and draw of each of its meshes |
| SSAORenderSystem.ObjectDrawsOnlyItsModel | src/ssao_render_system.cpp:456-466 | an object's push constants and the model's commands draw no more than the model draws |
| SSAORenderSystem.GBufferDrawsEveryMesh | src/ssao_render_system.cpp:455-467 | the G-buffer pass draws exactly what the objects' models draw |
| SSAORenderSystem.ObjectsCmdsPrefix | src/ssao_render_system.cpp:455-467 | the commands of the first objects are a prefix of those of more objects |
| SSAORenderSystem.GBufferPushesEachObject | src/ssao_render_system.cpp:455-467 | object i's commands, starting with its own push constants, follow those of the objects before it |
| SSAORenderSystem.NoDrawsCountZero | src/ssao_render_system.cpp:461-463 | a command list without draws counts no draws |
| SSAORenderSystem.FrgSSAORenderSystem.constructor | src/ssao_render_system.cpp:9-21 | the set layouts, pool, sets, and the three pipeline layouts and pipelines are created in the source's order, all live, the pipelines graphics-only |
| SSAORenderSystem.FrgSSAORenderSystem.Destroy | src/ssao_render_system.cpp:23-44 | each non-null pipeline layout, the pool and each set layout are destroyed, then the owned pipelines in reverse declaration order |
| SSAORenderSystem.FrgSSAORenderSystem.BeginGBufferPass | src/ssao_render_system.cpp:341-374 | the G-buffer render pass begins over its whole extent with its clear values, and the viewport and scissor cover that extent |
| SSAORenderSystem.FrgSSAORenderSystem.EndGBufferPass | src/ssao_render_system.cpp:376-378 | the G-buffer render pass ends |
| SSAORenderSystem.FrgSSAORenderSystem.BeginSSAOPass | src/ssao_render_system.cpp:380-409 | the SSAO render pass begins over the SSAO extent, cleared to white, with viewport and scissor over that extent |
| SSAORenderSystem.FrgSSAORenderSystem.EndSSAOPass | src/ssao_render_system.cpp:411-413 | the SSAO render pass ends |
| SSAORenderSystem.FrgSSAORenderSystem.BeginBlurPass | src/ssao_render_system.cpp:415-444 | the blur render pass begins over the SSAO extent, cleared to white, with viewport and scissor over that extent |
| SSAORenderSystem.FrgSSAORenderSystem.EndBlurPass | src/ssao_render_system.cpp:446-448 | the blur render pass ends |
| SSAORenderSystem.FrgSSAORenderSystem.RenderGBuffer | src/ssao_render_system.cpp:450-468 | the G-buffer pipeline is bound, then each game object in list order pushes its constants and binds and draws its model |
| SSAORenderSystem.FrgSSAORenderSystem.RenderSSAO | src/ssao_render_system.cpp:470-494 | the SSAO pipeline and set are bound, the constants pushed (the noise tile repeated across the extent, the radius, the bias and the kernel size), and one full-screen triangle drawn: one draw in all |
| SSAORenderSystem.FrgSSAORenderSystem.RenderBlur | src/ssao_render_system.cpp:496-505 | the blur pipeline and set are bound and one full-screen triangle drawn |
| SSAORenderSystem.SetsReadTheirInputs | src/ssao_render_system.cpp:141-211 | the blur set reads the raw SSAO target, not the blurred one it renders into; the SSAO set reads the G-buffer's position and normal views, the noise texture with the noise sampler and the whole kernel buffer |
| GBuffer.GBufferPassShape | src/frg_gbuffer.cpp:248-342 | the G-buffer pass has position, normal and depth attachments in those formats, all single-sampled, cleared and stored; the colour attachments end shader-readable and the depth one depth-read-only; exactly two dependencies, one from outside into attachment writes and one out to fragment-shader reads |
| GBuffer.FrgGBuffer.constructor | src/frg_gbuffer.cpp:16-20 | with the depth format chosen, every attachment object is created at the extent, in the source's order, and every handle is live |
| GBuffer.FrgGBuffer.CreateAll | src/frg_gbuffer.cpp:16-20 | createImages, createImageViews, createSampler, createRenderPass and createFramebuffer, in that order, make every handle live |
| GBuffer.FrgGBuffer.CreatePassObjects | src/frg_gbuffer.cpp:223-361 | the sampler, the render pass and the framebuffer over the three views are created, in that order |
| GBuffer.FrgGBuffer.CreateImages | src/frg_gbuffer.cpp:95-161 | the position, normal and depth images and their memory are created at the extent |
| GBuffer.FrgGBuffer.CreateImageViews | src/frg_gbuffer.cpp:163-221 | a view is created for each of the three images, in the image's format |
| GBuffer.FrgGBuffer.Cleanup | src/frg_gbuffer.cpp:36-93 | every live handle is destroyed and set to null; afterwards all handles are null, and a cleanup of an all-null G-buffer makes no driver call |
| GBuffer.FrgGBuffer.NullAll | src/frg_gbuffer.cpp:36-93 | every handle becomes VK_NULL_HANDLE |
| GBuffer.FrgGBuffer.Resize | src/frg_gbuffer.cpp:25-34 | the old objects are destroyed, the extent becomes the new one, and every attachment is rebuilt at it with the same depth format |
| GBuffer.NewGBuffer | src/frg_gbuffer.cpp:8-21 | the depth format is the first of D32, D32S8 and D24S8 the device supports as an optimally tiled depth attachment; when none is, the probe's error is raised and nothing is created |
| GBuffer.CreationDescribesAttachments | src/frg_gbuffer.cpp:95-361 | every image is single-sampled at the extent; the framebuffer has the extent's size, belongs to the G-buffer's render pass, and presents its views in the render pass's attachment order and formats |
| GBuffer.CreatedAreHandles | src/frg_gbuffer.cpp:95-361 | everything the build creates is one of the G-buffer's handles |
| GBuffer.HandlesAreCreated | src/frg_gbuffer.cpp:95-361 | every one of the G-buffer's handles is created by the build |
| GBuffer.CleanupUndoesCreation | src/frg_gbuffer.cpp:36-93 | cleanup after a build destroys exactly the objects the build created, one destruction per handle |
| GBuffer.DescriptorsMatchAttachments | src/frg_gbuffer.cpp:363-385 | the position, normal and depth descriptors name the G-buffer's views with its sampler, each in the layout the render pass leaves its attachment in |
| SSAO.ScaleRange | src/frg_ssao.cpp:151-152 | the scale of sample i, lerp(0.1, 1, (i/64)^2), lies in [0.1, 1) |
| SSAO.ScaleMonotone | src/frg_ssao.cpp:151-152 | later samples are scaled no less than earlier ones, so they spread out from the origin |
| SSAO.KernelSampleInHemisphere | src/frg_ssao.cpp:142-156 | with draws in [0, 1), each kernel sample lies in the +z hemisphere and has w = 0 |
| SSAO.KernelInHemisphere | src/frg_ssao.cpp:131-158 | generateKernel fills 64 samples, all in the +z hemisphere and all with w = 0 |
| SSAO.KernelSampleInUnitBall | src/frg_ssao.cpp:142-156 | when normalize divides the raw point by its true length, the sample's squared length is below 1 |
| SSAO.KernelInUnitBall | src/frg_ssao.cpp:131-158 | with true lengths, every sample of the kernel lies strictly inside the unit ball |
| SSAO.NoiseData | src/frg_ssao.cpp:198-206 | the noise tile has 4 x 4 rotation vectors, entry i made from draws 2i and 2i+1 |
| SSAO.NoiseInTangentPlane | src/frg_ssao.cpp:201-205 | every noise vector lies in the tangent plane (z = 0, w = 0) with x and y in [-1, 1) |
| SSAO.SSAOPassesShape | src/frg_ssao.cpp:439-543 | the SSAO and blur passes are the same: one single-sampled R8_UNORM colour attachment, cleared, stored and left shader-readable, no depth, and two by-region dependencies over fragment-shader reads and attachment writes |
| SSAO.FrgSSAO.constructor | src/frg_ssao.cpp:13-24 | the kernel is generated from the engine's draws; then the device calls are, in the source's order, the kernel upload through its staging buffer, the noise upload through its staging buffer, both targets, the samplers, the passes and the framebuffers, each staging buffer released once copied; every handle the object keeps is live |
| SSAO.FrgSSAO.CreateAll | src/frg_ssao.cpp:16-23 | the creation steps after generateKernel log exactly the constructor's calls, staging buffers and their releases included, in order, and make every kept handle live |
| SSAO.FrgSSAO.CreateSources | src/frg_ssao.cpp:16-19 | the kernel buffer and the noise texture are each uploaded through a staging buffer that is released afterwards, then the SSAO image and the blur image are created with their memory and views; the kept kernel and noise handles are the fresh ones after each staging pair |
| SSAO.FrgSSAO.CreatePassObjects | src/frg_ssao.cpp:20-23 | the two samplers, the two render passes and the two framebuffers are created |
| SSAO.FrgSSAO.GenerateKernel | src/frg_ssao.cpp:131-158 | sample i is built from draws 4i to 4i+3: normalised, scaled by a random length and by the sample's scale, with w = 0 |
| SSAO.FrgSSAO.CreateKernelBuffer | src/frg_ssao.cpp:160-189 | a staging buffer of 64 vec4s and its memory, then the device-local kernel buffer of the same size, then the staging buffer and memory destroyed; the kernel buffer and memory are the two fresh handles after the staging pair |
| SSAO.FrgSSAO.CreateNoiseTexture | src/frg_ssao.cpp:191-313 | the noise tile is built from the draws; a staging buffer of 16 vec4s, then the 4 x 4 image and its memory, then the staging buffer and memory destroyed, then the view |
| SSAO.FrgSSAO.CreateSSAOImage | src/frg_ssao.cpp:315-350 | the SSAO target and its view are created at the extent in R8_UNORM |
| SSAO.FrgSSAO.CreateBlurImage | src/frg_ssao.cpp:352-387 | the blur target and its view are created at the extent in R8_UNORM |
| SSAO.FrgSSAO.CreateSamplers | src/frg_ssao.cpp:389-437 | the target sampler and the noise sampler are created |
| SSAO.FrgSSAO.CreateRenderPasses | src/frg_ssao.cpp:439-543 | the SSAO render pass and then the blur render pass are created |
| SSAO.FrgSSAO.CreateFramebuffers | src/frg_ssao.cpp:545-579 | one framebuffer per pass, over that pass's target view, at the extent |
| SSAO.FrgSSAO.Resize | src/frg_ssao.cpp:28-65 | only the extent-dependent objects are destroyed (their handles keep their values) and rebuilt at the new extent; the kernel, its buffer, the noise texture, the samplers and the render passes stay |
| SSAO.FrgSSAO.CreateSized | src/frg_ssao.cpp:61-64 | the second half of resize creates the SSAO and blur targets and the two framebuffers |
| SSAO.FrgSSAO.Cleanup | src/frg_ssao.cpp:67-129 | every live object is destroyed; the handles keep their values |
| SSAO.KernelDescriptorCoversBuffer | src/frg_ssao.cpp:605-611 | the kernel descriptor covers exactly the device-local buffer the constructor creates after the kernel's staging buffer, from offset 0 over one vec4 per kernel sample |
| SSAO.TargetsMatchPasses | src/frg_ssao.cpp:545-603 | the descriptors name views created in their target's format and ask for the layout the writing pass leaves them in; each framebuffer presents its pass's one attachment |
| SSAO.ConstructionReleasesOnlyStaging | src/frg_ssao.cpp:160-313 | construction destroys exactly the kernel's and the noise tile's staging buffers and their memory, and it created each of them first |
| SSAO.SizedCallsUseExtent | src/frg_ssao.cpp:61-64 | after a resize both targets and both framebuffers have the new extent, and each framebuffer belongs to its pass |
| Pipeline.DefaultPipelineConfigInfo | src/frg_pipeline.cpp:208-276 | point lists for the particle pipeline and triangle lists otherwise, one viewport and scissor, filled polygons without culling, clockwise front faces, one sample, one colour attachment writing RGBA without blending, depth test and write with less-than, viewport and scissor as dynamic state; the vertex lists, the attachments vector, the layout, the render pass and the subpass are left as they were |
| Pipeline.DefaultsIdempotent | src/frg_pipeline.cpp:208-276 | applying the defaults twice is applying them once |
| Pipeline.DefaultsDependOnlyOnKeptFields | src/frg_pipeline.cpp:208-276 | the result depends on the old config only through the fields the defaults leave alone |
| Pipeline.BlendAttachments | src/frg_pipeline.cpp:250-254 | the pipeline blends as many attachments as the count names, from the single attachment or from the vector |
| Pipeline.DefaultBlendsOneAttachment | src/frg_pipeline.cpp:240-254 | a default config blends exactly one attachment, writing all four channels without blending |
| Pipeline.VertexInputFor | src/frg_pipeline.cpp:139-150 | the constructor's descriptions are used when the config gives neither bindings nor attributes; otherwise the config's own lists are used, even when only one of them is empty |
| Pipeline.ClearedConfigUsesVertexLayout | src/frg_pipeline.cpp:11-19 | a config with empty vertex lists gets the Vertex layout from the graphics-only constructor, with its three attributes |
| Pipeline.FrgPipeline.constructor | src/frg_pipeline.cpp:11-19 | the graphics-only constructor creates the two shader modules and the graphics pipeline from the Vertex defaults; the compute objects stay null and no storage slots exist |
| Pipeline.FrgPipeline.WithCompute | src/frg_pipeline.cpp:21-33 | the particle constructor creates the graphics pipeline from the particle descriptions, then the compute shader, a layout over the first set layout and the compute pipeline, then MAX_FRAMES_IN_FLIGHT null storage slots |
| Pipeline.FrgPipeline.Bind | src/frg_pipeline.cpp:200-202 | binds the graphics pipeline |
| Pipeline.FrgPipeline.BindCompute | src/frg_pipeline.cpp:204-206 | binds the compute pipeline |
| Pipeline.FrgPipeline.CreateShaderStorageBuffers | src/frg_pipeline.cpp:277-280 | both slot vectors are resized to MAX_FRAMES_IN_FLIGHT |
| Pipeline.FrgPipeline.Destroy | src/frg_pipeline.cpp:35-49 | the destructor's calls: both shader modules, the compute shader if live, the graphics pipeline, the compute pipeline and its layout if live, then each storage buffer and its memory |
| Pipeline.DestroyIfLive | src/frg_pipeline.cpp:38-44 | a destruction guarded by a null check destroys the handle exactly when it is live |
| Pipeline.DestroyStorage | src/frg_pipeline.cpp:45-48 | the storage loop destroys each buffer and then its memory, slot by slot |
| Pipeline.CreateGraphicsPipeline | src/frg_pipeline.cpp:100-187 | the vertex shader module, the fragment shader module and then the graphics pipeline are created; the config must name a layout and a render pass |
| Pipeline.CreateComputePipeline | src/frg_pipeline.cpp:68-98 | the compute shader module, a pipeline layout over the first set layout and then the compute pipeline are created |
| Pipeline.StorageCallsLength | src/frg_pipeline.cpp:45-48 | n storage slots give 2n calls: buffer k at position 2k and its memory right after it |
| Pipeline.TeardownOfEachKind | src/frg_pipeline.cpp:35-49 | a graphics-only pipeline's teardown is exactly its two shader modules and its pipeline; a particle pipeline's is 6 + 2 MAX_FRAMES_IN_FLIGHT calls |
| Mesh.VertexLayoutTilesTheVertex | src/frg_mesh.cpp:154-184 | one per-vertex binding 0 of the vertex's stride; position, normal and texture coordinate at locations 0, 1, 2 on that binding, each starting where the previous ends, the last ending at the stride |
| Mesh.LoadedTextures.constructor | src/frg_mesh.hpp:33-34 | the registry starts with no paths and the counter at 0 |
| Mesh.LoadedTextures.AssignTextureIdx | src/frg_mesh.cpp:146-152 | a known path gets its stored index and nothing changes; a new path is stored with the current counter, which then advances; afterwards the path maps to the returned index; the invariant that the stored indices are exactly 0 to counter - 1, one per path, is kept |
| Mesh.DistinctPathsDistinctIndices | src/frg_mesh.cpp:146-152 | distinct paths in the registry have distinct indices |
| Mesh.TransitionBarrier | src/frg_mesh.cpp:95-138 | only undefined to transfer-destination and transfer-destination to shader-read-only are accepted, with their access masks and stages; any other pair is the error "unsupported layout transition!" |
| Mesh.TextureUploadTransitionsChain | src/frg_mesh.cpp:48-66 | the two transitions of a texture upload are both accepted and chain: the second waits on the access and stage the first makes available, and the image ends readable by the fragment shader |
| Mesh.Texture.constructor | src/frg_mesh.cpp:7-9 | a texture holds its type name, path, registry index, and its image, image memory and view |
| Mesh.NewTexture | src/frg_mesh.cpp:7-87 | an image file that fails to load is an error with no device call; otherwise a staging buffer of 4 bytes per pixel is created, then an R8G8B8A8 sRGB image of the file's size with its memory, the staging buffer and its memory are released, and the view of the image is created; a failed view is an error after the image is made; on either error the registry is unchanged; otherwise the texture owns the image, memory and view, has the type and path, and its index is the stored one for a known path or the counter for a new path |
| Mesh.UploadImage | src/frg_mesh.cpp:17-67 | the upload logs the staging buffer of 4 bytes per pixel and its memory, the sampled image of the file's size and its memory, then the staging buffer's release, and returns the image and memory |
| Mesh.TextureTeardownUndoesUpload | src/frg_mesh.cpp:7-144 | the upload's own releases and ~Texture together destroy exactly the objects the upload created, and the texture owns exactly those the upload did not release |
| Mesh.TexturesTeardownDestroysOwned | src/frg_mesh.cpp:140-144 | destroying a list of textures destroys exactly the objects some texture of the list owns |
| Mesh.DestroyTextures | src/frg_mesh.cpp:140-144 | destroying the texture vector runs ~Texture on each texture, first to last |
| Mesh.FrgMesh.constructor | src/frg_mesh.cpp:238-290 | setup creates the host-visible vertex buffer and memory; when there are indices it then creates a staging buffer of the indices, the device-local index buffer of the same size, and destroys the staging buffer and memory; without indices the index handles stay null; the kept handles are numbered from the device's next handle |
| Mesh.FrgMesh.BindCmds | src/frg_mesh.cpp:212-218 | bind records the vertex buffer first, then the index buffer exactly when there are indices |
| Mesh.FrgMesh.DrawCmds | src/frg_mesh.cpp:205-211 | draw records one plain draw of all vertices without indices, otherwise one indexed draw of all indices |
| Mesh.FrgMesh.IndexedDrawNeedsBoundIndexBuffer | src/frg_mesh.cpp:205-218 | an indexed draw is recorded exactly when bind has bound an index buffer |
| Mesh.FrgMesh.HasNormalTexture | src/frg_mesh.cpp:220-231 | true exactly when some texture has the type "texture_normal" |
| Mesh.FrgMesh.GetTextureIndex | src/frg_mesh.hpp:75-79 | empty exactly when the mesh has no textures, otherwise the first texture's index |
| Mesh.FrgMesh.Destroy | src/frg_mesh.cpp:194-203 | the destructor's calls: the vertex buffer and memory, then the index buffer and memory only when there are indices, then each texture's view, image and memory, texture by texture |
| Mesh.TeardownMatchesSetup | src/frg_mesh.cpp:140-290 | a handle is destroyed by the mesh's destructor exactly when setup created it and did not release it, or one of the mesh's textures owns it |
| Mesh.SetupKeepsBuffers | src/frg_mesh.cpp:238-290 | what setup leaves alive is exactly the vertex buffer and memory, plus the index buffer and memory when there are indices; the index staging pair is released |
| Model.ConcatMeshRefsAppend | src/frg_model.cpp:33-42 | the mesh references of two node lists together are those of the first list followed by those of the second |
| Model.ConcatMeshRefsLength | src/frg_model.cpp:33-42 | a node list refers to as many meshes as its nodes' mesh counts add up to |
| Model.FlattenIsPreorder | src/frg_model.cpp:33-42 | process_node's mesh order is a pre-order walk: each node's own meshes in order, then its children's subtrees in order |
| Model.ChildrenFlattenIsPreorder | src/frg_model.cpp:39-41 | the meshes of the first n child subtrees are those of their nodes, taken in pre-order |
| Model.MeshCountIsSumOverNodes | src/frg_model.cpp:33-42 | the model ends up with as many meshes as the tree's nodes refer to in total |
| Model.FlattenChildrenPrefix | src/frg_model.cpp:39-41 | walking more children only appends meshes: the meshes of the first j subtrees are a prefix of those of the first n |
| Model.MeshVertices | src/frg_model.cpp:51-71 | one vertex per source vertex, with its position and normal, and the texture coordinate of UV channel 0 when the mesh has one, else (0, 0) |
| Model.Labelled | src/frg_model.cpp:108-113 | one texture request per path of the type, in order, each with the type name |
| Model.MaterialTextures | src/frg_model.cpp:80-96 | the textures a mesh asks for: its diffuse maps as "texture_diffuse", then its specular maps as "texture_specular" |
| Model.RefsLoadLabelled | src/frg_model.cpp:108-113 | the textures of a type all load exactly when every one of its paths loads |
| Model.RefsLoadSplit | src/frg_model.cpp:86-95 | two lists of texture requests load exactly when each of them does |
| Model.TexturesMatchAppend | src/frg_model.cpp:86-95 | appending the textures of two matching lists gives the textures of the two request lists appended |
| Model.AllMeshesLoadSplit | src/frg_model.cpp:33-42 | the meshes of two reference lists all load exactly when each list's meshes do |
| Model.MeshesMatchAppend | src/frg_model.cpp:33-42 | appending the meshes built for two reference lists gives the meshes of the lists appended |
| Model.BuildVertices | src/frg_model.cpp:51-71 | process_mesh's vertex loop builds exactly the vertices described above |
| Model.BuildIndices | src/frg_model.cpp:73-78 | the face loop collects every face's indices, face by face, in order |
| Model.LoadMaterialTextures | src/frg_model.cpp:104-115 | every path of the type becomes a texture with that type name, in order; the call fails exactly when some image does not load, with the texture-load error |
| Model.ProcessMesh | src/frg_model.cpp:44-102 | the mesh is built exactly when all its textures load, and then holds the mesh's vertices, its indices and its diffuse-then-specular textures; the texture registry's invariant is kept |
| Model.ExtendsRefl | src/frg_model.cpp:33-42 | a mesh list extends itself by no meshes |
| Model.ExtendsByOne | src/frg_model.cpp:36 | appending a mesh built from mesh reference mi extends the list by mi |
| Model.ExtendsTrans | src/frg_model.cpp:33-42 | two extensions one after the other are one extension by both reference lists |
| Model.AllMeshesLoadPrefix | src/frg_model.cpp:33-42 | if all meshes of a reference list load, so do those of any prefix of it |
| Model.FrgModel.constructor | src/frg_model.cpp:4-5 | a new model has no meshes and an empty directory |
| Model.FrgModel.ProcessNode | src/frg_model.cpp:33-42 | the subtree's meshes, in pre-order, are appended to the model's meshes; it fails exactly when some texture of the subtree fails to load |
| Model.FrgModel.ProcessMeshes | src/frg_model.cpp:34-37 | the node's own meshes are appended in order; it fails exactly when one of their textures fails to load |
| Model.FrgModel.ProcessChildren | src/frg_model.cpp:39-41 | the first n child subtrees' meshes are appended in order; it fails exactly when one of their textures fails to load |
| Model.FrgModel.Draw | src/frg_model.cpp:8-13 | each mesh is bound and then drawn, in mesh order |
| Model.DrawCountAppend | src/frg_model.cpp:8-13 | the draws of two command lists together add up |
| Model.OneDrawPerMesh | src/frg_model.cpp:8-13 | drawing a model issues exactly one draw per mesh |
| Model.LastSlash | src/frg_model.cpp:28 | find_last_of('/'): none when the path has no '/', otherwise a '/' with none after it |
| Model.Dir | src/frg_model.cpp:28 | the directory is a prefix of the path |
| Model.DirWithoutSlash | src/frg_model.cpp:28 | a path without '/' is its own directory (npos takes the whole string) |
| Model.DirOfJoinedPath | src/frg_model.cpp:28 | the directory of "d/name", with no '/' in name, is d |
| Model.LoadModel | src/frg_model.cpp:15-31 | a missing or incomplete scene, or one without a root node, is the importer's error; otherwise the model loads exactly when all meshes of the tree load, with dir set from the path and the meshes in pre-order |
| Lighting.NewPointLight | src/frg_lighting.cpp:12-15 | a point light has its position with w = 1, its colour with w = the intensity, and its radius |
| Lighting.NewDirectionalLight | src/frg_lighting.cpp:22-24 | a directional light has its direction with w = 0 and its colour with w = the intensity |
| Lighting.WithLightBounded | src/frg_lighting.cpp:41-47 | adding a light never takes a list of at most 10 lights past 10; the list grows by one exactly when it had room, the new light goes last, and the lights already there are kept |
| Lighting.UpdatesChangeOnlyTheirLight | src/frg_lighting.cpp:49-63 | an update changes only light i's position (w = 1), or only its colour and intensity, and keeps the list's length and every other light; an index out of range changes nothing |
| Lighting.BoundedListUploadsWhole | src/frg_lighting.cpp:80 | at most 10 lights are uploaded, a prefix of the list; the whole list is uploaded exactly when it has at most 10 lights |
| Lighting.LightData.constructor | src/frg_lighting.hpp:37-43 | a new block has 10 default point lights, a count of 0 and the default directional light |
| Lighting.LightData.AddPointLight | src/frg_lighting.cpp:27-33 | while a slot is free the light goes into the next one and the count grows by one; when full, nothing changes |
| Lighting.LightData.ClearPointLights | src/frg_lighting.cpp:35-38 | the count drops to 0 |
| Lighting.LightManager.constructor | src/frg_lighting.hpp:53 | a new manager has no point lights and the default directional light, straight down and white |
| Lighting.LightManager.AddPointLight | src/frg_lighting.cpp:41-47 | the new light is appended when fewer than 10 are held and dropped otherwise, so the bound is kept |
| Lighting.LightManager.UpdatePointLight | src/frg_lighting.cpp:49-55 | light index moves to the position when it exists; the list's length is kept |
| Lighting.LightManager.UpdatePointLightColor | src/frg_lighting.cpp:57-63 | light index takes the colour and intensity when it exists; the list's length is kept |
| Lighting.LightManager.ClearPointLights | src/frg_lighting.cpp:65-68 | the list becomes empty |
| Lighting.LightManager.SetDirectionalLight | src/frg_lighting.cpp:70-73 | the directional light is the given normalised direction with w = 0 and the colour with w = the intensity |
| Lighting.LightManager.PointLightCount | src/frg_lighting.hpp:70 | while the bound holds, the list's size is the number of lights getLightData uploads, at most 10 |
| Lighting.LightManager.GetLightData | src/frg_lighting.cpp:75-90 | a fresh block holding the first min(size, 10) lights in order, counted, with the remaining slots at their defaults, and the directional light |
| GameObject.IdCounter.constructor | src/frg_game_object.hpp:32 | the id counter starts at 0 |
| GameObject.FrgGameObject.constructor | src/frg_game_object.hpp:44-49 | a new object has its id, no model, black colour and the default transform (no translation, unit scale, no rotation) |
| GameObject.CreateGameObject | src/frg_game_object.hpp:30-34 | a fresh object with the counter's current id, no model, black and the default transform; the counter moves on by one modulo 2^32 |
| CameraAnimation.InsertKeeps | src/camera_animation_system.cpp:17-21 | inserting a keyframe adds exactly that keyframe to the list's multiset |
| CameraAnimation.PrependSorted | src/camera_animation_system.cpp:19-21 | a keyframe no later than every keyframe of a sorted list can go in front of it |
| CameraAnimation.InsertSorts | src/camera_animation_system.cpp:19-21 | inserting a keyframe into a list sorted by time keeps it sorted |
| CameraAnimation.SortByTime | src/camera_animation_system.cpp:19-21 | sorting by time gives a permutation of the list in which times never decrease |
| CameraAnimation.FirstAtOrAfter | src/camera_animation_system.cpp:44-47 | the search stops at the first index whose keyframe is not before the time: every keyframe it passes is earlier, and it stops at the end only if there is no such keyframe |
| CameraAnimation.SampleBracketsTime | src/camera_animation_system.cpp:44-54 | strictly between the first and last times, the two keyframes found bracket the time (prev.time < time <= next.time), the interpolation factor is in (0, 1], and the pose is the mix between them at that factor, sorted or not |
| CameraAnimation.BetweenAtOne | src/camera_animation_system.cpp:57-63 | mixing the whole way gives the later keyframe's position and rotation |
| CameraAnimation.SampleAtKeyframe | src/camera_animation_system.cpp:29-63 | with strictly increasing times, the pose at a keyframe's own time is that keyframe's pose |
| CameraAnimation.CameraAnimationSystem.constructor | src/camera_animation_system.hpp:28 | a new system has no keyframes |
| CameraAnimation.CameraAnimationSystem.AddKeyframe | src/camera_animation_system.cpp:15-22 | the list grows by one, its multiset gains exactly the new keyframe, and it stays sorted by time |
| CameraAnimation.CameraAnimationSystem.Update | src/camera_animation_system.cpp:24-64 | with no keyframes the camera is left alone; otherwise its translation and rotation become the pose at the time, the first pose up to the first keyframe and the last pose from the last keyframe on; its scale is kept |
| CameraAnimation.CameraAnimationSystem.GetEndTime | src/camera_animation_system.cpp:66-71 | 0 with no keyframes; otherwise some keyframe's time, and, the list being sorted, no keyframe is later |
| SceneLoader.FirstChild | src/scene_loader.cpp:20 | the first element with the name, if any: none exactly when no element has it, otherwise one with the name that no earlier element shares |
| SceneLoader.Named | src/scene_loader.cpp:68-69 | the FirstChildElement/NextSiblingElement chain for a name holds exactly the list's elements with that name |
| SceneLoader.Converted | src/scene_loader.cpp:31 | a flag attribute gives its converted value when present and a bool, and the fallback otherwise |
| SceneLoader.SettingsFrom | src/scene_loader.cpp:26-41 | without Settings the settings are kept; each of AutoCamera, SSAO and DebugMode that is missing keeps its setting; a present one sets it to its attribute's value, or to the default (true, true, 0) when the attribute is missing or does not convert |
| SceneLoader.TransformFrom | src/scene_loader.cpp:117-143 | each of Translation, Rotation and Scale that is missing keeps its part; a present one sets x, y and z each to its attribute or its own fallback (the given translation fallback, 0 for rotation, 1 for scale); scale is only read where asked |
| SceneLoader.CameraTransform | src/scene_loader.cpp:43-65 | the camera's scale never changes; without Camera or its Transform the transform is kept; Translation falls back to (0, -2, -5) per coordinate and Rotation to 0, each only when present |
| SceneLoader.ObjectTransform | src/scene_loader.cpp:117-143 | an object without Transform keeps the default transform; otherwise translation and rotation come from their elements with fallback 0 and scale with fallback 1, each part staying at the default when its element is missing |
| SceneLoader.LoadCamera | src/scene_loader.cpp:43-65 | the camera's new transform is the one the Camera element describes over the old one |
| SceneLoader.LightOf | src/scene_loader.cpp:72-93 | a Point light's position comes from Position (default the origin, w = 1), its colour and intensity from Color (default white and 1), and its radius is ten times the intensity |
| SceneLoader.SceneLights | src/scene_loader.cpp:67-99 | the Light elements give at most one light each |
| SceneLoader.SceneLightsFromPointElements | src/scene_loader.cpp:67-99 | every Point element's light is among the scene's lights, and every scene light comes from a Point element |
| SceneLoader.SceneLightsStep | src/scene_loader.cpp:67-99 | one more Light element adds its light exactly when it is a Point light |
| SceneLoader.AddAllStep | src/scene_loader.cpp:95 | handing one more light to the manager is one more addPointLight on the list so far |
| SceneLoader.AddAllKeepsFirst | src/frg_lighting.cpp:41-47 | handing lights in order to a manager that holds at most 10 keeps the lights already held and the first new ones up to 10 in all, and drops the rest |
| SceneLoader.LoadLight | src/scene_loader.cpp:70-98 | a Point light element adds its light to the manager (while there is room); any other type changes nothing |
| SceneLoader.LoadLights | src/scene_loader.cpp:67-99 | the manager's list becomes the old list with the scene's Point lights added in document order |
| SceneLoader.KeptObjects | src/scene_loader.cpp:101-115 | no more objects are built than there are GameObject elements |
| SceneLoader.KeptObjectsAreTheLoadable | src/scene_loader.cpp:101-115 | an element becomes an object exactly when it names a model and that model loads without throwing |
| SceneLoader.KeptObjectsStep | src/scene_loader.cpp:101-115 | one more GameObject element adds itself to the kept ones exactly when it is kept |
| SceneLoader.LoadObject | src/scene_loader.cpp:103-146 | an object is returned exactly when the element names a model that loads; it is new, holds the model loaded from that path's directory and has the element's transform; with no model attribute nothing changes |
| SceneLoader.LoadObjects | src/scene_loader.cpp:101-147 | the objects already there are kept, and one new object follows, in document order, for each GameObject element whose model loads, loaded from that element |
| SceneLoader.Load | src/scene_loader.cpp:9-148 | when the file does not load or has no Scene nothing changes; otherwise the settings, the camera transform, the point lights and the appended objects are those the Scene element describes |

## Left out

- Vulkan and GLFW: the driver's behaviour, GPU execution, semaphores, fences and `vkDeviceWaitIdle` are not modelled. Calls are logged, and the driver's answers are inputs.
- Creation failures: a Vulkan call that fails (and throws) in the source is not modelled unless the model has an error path for it.
- Concurrency: CPU/GPU and compute/graphics overlap are not modelled.
- The event-polling wait in `recreateSwapChain` (src/frg_renderer.cpp:17-21) is not modelled: the window extent is taken as non-zero.
- `src/frg_device.cpp` and `src/frg_swap_chain.cpp` are not part of this model. `acquireNextImage`, `submitCommandBuffers`, `submitComputeCommandBuffer` and `bindAndDrawCompute` are treated as calls whose results are inputs.
- `renderComputePipeline` and `delegateComputeBindAndDraw` are modelled by the calls they record. They take the function bodies shown, not the older signatures used by some callers.
- Floating point: `real` replaces `float`, and rounding is ignored.
- `glm::normalize` is not modelled: normalised vectors and their lengths are inputs.
- The aspect ratio, and the projection, view and normal matrices, are not modelled.
- `TransformComponent::mat4` and `normalMat` are not modelled. Only the push-constant structures and their sizes as declared are.
- Randomness: the `std::default_random_engine` draws are a supplied stream of numbers in [0, 1).
- File and library I/O: `readFile`, `stbi_load`, the Assimp importer and tinyxml2 are inputs. The XML is an element tree whose attributes carry their converted values.
- Printed messages (`std::cout`, `std::cerr`) are left out. The importer's error text is an input, and the scene loader, which only prints it, passes an empty one.
- `src/simple_render_system.cpp` and `src/frg_particle_dispenser.cpp` are not part of this model. The first is pipeline plumbing; the second is random and trigonometric sampling and buffer copies.
- Uploads: the vertex upload maps a host-visible buffer directly and has no staging buffer. The index, texture, SSAO kernel and SSAO noise uploads log the staging buffer, the destination buffer or image, and the staging buffer's release as device calls. The memory copies, the buffer-to-image copy and the layout barriers run in single-time command buffers inside the device, and only the barriers' choice (`Mesh.TransitionBarrier`) is modelled.
- Texture images: `stbi_load`'s result is an input. `loads` says whether a path loads and `sizes` gives its width and height. The `int` product `4 * height * width` is taken as exact.
- Error paths of `process_mesh` and `load_material_textures`: when a later texture throws, the textures already made are released by their `unique_ptr`s during unwinding. The exception also leaves the `FrgModel` constructor (src/frg_model.cpp:4-7, through `load_model` and `process_node`), so its `meshes` vector is destroyed and every `FrgMesh` already built runs `~FrgMesh`, destroying its buffers and textures. The model logs none of these destroys.
- `Model.LoadModel`: it does not state that the texture registry's invariant survives the whole tree walk (`ProcessNode`, `ProcessMeshes`, `ProcessChildren`). Every step that touches the registry keeps it (`Mesh.NewTexture`, `Model.LoadMaterialTextures`, `Model.ProcessMesh`). Carrying it through the mutually recursive walk makes the walk's proofs too expensive to verify.
- `Mesh.FrgMesh.Destroy`: `std::vector` destroying its elements first to last is an assumption. The standard leaves the order unspecified; libstdc++ and libc++ go first to last.
- `SSAO.NoiseData`: C++ leaves the evaluation order of the `glm::vec3` constructor's arguments unspecified (src/frg_ssao.cpp:201-204). The model takes them left to right, so which draw feeds x and which feeds y is one choice. The tangent-plane property (z = w = 0) holds for any order.
- `SSAO.FrgSSAO.GenerateKernel`: the same holds for the sample's three coordinates (src/frg_ssao.cpp:142-145). The model takes them left to right. The hemisphere (z >= 0) and w = 0 bounds hold for any order, because every draw lies in [0, 1). So does the unit-ball bound of `SSAO.KernelSampleInUnitBall`, which needs only that the length normalize divides by is the raw point's true length.
- `Device.FrgDevice.FindSupportedFormat`: src/frg_device.cpp is not part of this model. Only the declaration is in view (src/frg_device.hpp:59-61). The body is taken to be the same first-match search as `Engine.FindSupportedFormat` (render_forge/src/Engine/Engine.cpp:560-576).
- `Pipeline.FrgPipeline.constructor`: the src/frg_pipeline.hpp in view is an older version that declares no compute fields, so their initial values are not visible. The graphics-only constructor (src/frg_pipeline.cpp:11-19) never sets them. The model takes the compute pipeline, the compute layout and the storage slots to start empty: null handles and no slots.
- The renderer's constructor allocates command buffers twice (once in `recreateSwapChain`, once in `createCommandBuffers`); the model allocates once.
- `recreateSwapChain` allocates fresh command buffers without freeing the old ones (src/frg_renderer.cpp:35, src/frg_renderer.cpp:51-59), so nothing is claimed about balanced allocation.
- `FrgSSAO::cleanup` and `resize` leave the destroyed handles in place (src/frg_ssao.cpp:34-59, src/frg_ssao.cpp:67-129), so nothing is claimed about a second cleanup.
- Resize propagation: descriptor sets are not rewritten after a resize (src/first_app.cpp:49-58), and the model does not add that.
- `FirstApp::get_descriptors_of_game_objects` and `FrgGameObject::get_descriptors` (descriptor collection from the models' textures) are not modelled, and neither is `FirstApp::loadGameObjects`, which only calls the scene loader on a fixed path.
- The getters (`getPointLights`, `getDirectionalLight`, the handle and extent getters) are read as fields.
- Integer widths: the texture registry's counter and descriptor counts are unbounded `nat`. Only the game-object id counter wraps at 2^32, as `id_t` does.
- `uint32_t` casts of sizes are taken as exact.
- `CameraAnimation.SortByTime`: `std::sort` leaves the order among equal times unspecified. The model inserts after equal times, and its contract promises only sorted order and the same keyframes.
- `Lighting.LightData.AddPointLight` is modelled but not used by `getLightData`, which copies the lights directly, as the source does.
- `SceneLoader.Load`: it does not state how far the id counter moves. It moves by one per element with a model attribute, including elements whose model then fails to load.
- `SceneLoader.LoadObject`: `LoadedFrom` states the object's transform and its model's directory, not the meshes of the model. Those are stated by `Model.LoadModel`.

## Findings

| source | as written | input that shows it | evidently intended | confidence | as-written member | corrected member |
|---|---|---|---|---|---|---|
| src/first_app.cpp:135-137 | `debugMode = (debugMode + 1) % 4` uses C++'s truncating remainder, then indexes `modeNames[debugMode]`; a negative mode from the scene file stays negative | debugMode = -2 from the scene file: one C press gives -1, and `modeNames[-1]` is read out of bounds | a remainder that is never negative, so the mode is always in [0, 4) | not executed | FirstApp.CycleDebugModeFromNegative | FirstApp.CycleDebugModeCorrectedInRange |
| src/frg_descriptor.cpp:67 | the compute set layout declares binding 2 as a uniform buffer, but the write for that binding (line 207) is a storage buffer | any frame slot i < 2: the third write of its set has type storage buffer at binding 2 | binding 2 declared as a storage buffer | not executed | Descriptor.CompWritesMissDeclaredLayout | Descriptor.CompWritesFitCorrectedLayout |

The run loop (`FirstApp.Step`) keeps the source's truncating cycle, so the modelled frames are the program's own; `FirstApp.CycleDebugModeCorrected` is stated beside it.
