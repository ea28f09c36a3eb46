# Sky renderer core, modelled in Dafny

This project models the CPU-side decision logic of a Vulkan renderer for
sky, clouds and terrain. Every Vulkan, GLFW and ImGui call is either an event
in a trace or an input value. What is left is sequential logic over integers,
enumerations and `bv32` flag words, and that logic is modelled and proved:

- **Frame loop** (`Frame`, class `Renderer`): `drawComputeFrame` with
  `currentFrame`, the per-slot fence flags, the fence each swap-chain image
  was last used with, the `redrawNoise` gate and counters of submissions and
  presents. GPU completion is a separate `Retire` action. Acquire results are
  an input: acquired, out of date, or failed. The model also covers
  `recreateSwapChain` (poll while minimised, idle, clean up, rebuild),
  `createSyncObjects`, `findInMap`, and a run of many frames that stops at
  the first fatal one.
- **Command recording** (`Recording`): the three per-image buffers of
  `createCommandBuffers` (look-up tables, the sky render pass, post-process),
  recorded as a log of commands. The model gives, at every point, the bound
  pipeline, the open pass and subpass, the pending barrier and the
  timestamp-query operations. It also covers the read-back of the timestamp
  pool.
- **Render pass** (`RenderPass`): the four subpasses of the HDR back-buffer
  pass, their attachment references, the dependency edges between them, and
  which graphics pipeline is created for which subpass.
- **Terrain grid** (`Terrain`): the nested loops that generate the vertex and
  index lists in `createPrimitivesBuffers`.
- **Device and swap chain selection** (`Device`, `Swapchain`): queue-family
  discovery, `isComplete`, the device-extension check, device suitability,
  picking the physical device, the sample count, format and memory-type
  searches, the unique family set, and the surface format, present mode,
  extent, image count, sharing mode and image views of the swap chain.
- **Image helpers** (`Image`): view and image type, the layout-transition
  table with its aspect mask (including `HasStencilComponent`), the mip-level
  count and the `GenerateMipmaps` loop.
- **Worley noise, CPU side** (`Worley`): the cell-to-index mapping of the
  point buffer, the buffer-capacity bound, the per-channel data, the
  descriptor writes, the recorded dispatch order and the submission in
  `generateNoise`.

Integers are unbounded. The model writes out 32-bit behaviour where the
source relies on it: `Add32` for `minImageCount + 1`, and `ToU32` for the
`int`-to-`uint32_t` casts of the window size. Flag words are `bv32` and use
the numeric values from the Vulkan headers.

## Model

| member | source | states |
|---|---|---|
| Common.Add32 | source/vulkan/vulkan_swapchain.cpp:16-17 | the sum of two 32-bit unsigned values is exact when it fits and wraps modulo 2^32 otherwise |
| Device.IsComplete | source/vulkan/vulkan_device.hpp:15-20 | complete exactly when none of the graphics, present and compute families is missing |
| Device.DefaultIsNotComplete | source/vulkan/vulkan_device.hpp:11-20 | a default-constructed set of family indices is not complete |
| Device.AssignKeepsComplete | source/vulkan/vulkan_device.hpp:15-20 | a complete set stays complete when any of the three families is given a new value |
| Device.LastOffering | source/vulkan/VulkanDevice.cpp:92-113 | the index the scan holds for a capability is the last family so far that offers it, and is absent exactly when none does |
| Device.StopFrom | source/vulkan/VulkanDevice.cpp:115-118 | the scan stops at the first index where the set is complete, or at the end of the list |
| Device.StopLength | source/vulkan/VulkanDevice.cpp:92-120 | the scan visits exactly the families before the first point of completeness |
| Device.IndicesAfterStep | source/vulkan/VulkanDevice.cpp:98-113 | visiting family i overwrites graphics, present and compute with i exactly where the family offers them, and leaves the others as they were |
| Device.FindQueueFamilies | source/vulkan/VulkanDevice.cpp:81-123 | the scan throws exactly when it reaches a compute family with no valid timestamp bits before stopping; otherwise it returns the indices held at the stopping point |
| Device.ScanCompleteIffAllOffered | source/vulkan/VulkanDevice.cpp:92-120 | the scan ends complete exactly when some family offers graphics, some offers present and some offers compute (stopping early loses nothing) |
| Device.CheckDeviceExtensionSupport | source/vulkan/VulkanDevice.cpp:125-140 | true exactly when every required extension name is among the available names |
| Device.IsDeviceSuitable | source/vulkan/VulkanDevice.cpp:60-79 | throws exactly when the family scan throws; otherwise true exactly when the families are complete, the extensions are supported, formats and present modes are non-empty and anisotropy is supported |
| Device.GetMaxUsableSampleCount | source/vulkan/VulkanDevice.cpp:172-188 | the highest of 64..2 set in both the colour and the depth sample counts, or 1 when none is set |
| Device.FindSupportedFormat | source/vulkan/VulkanDevice.cpp:235-260 | the first candidate whose features for the tiling cover the requested ones; fails exactly when no candidate does |
| Device.FindMemoryType | source/vulkan/VulkanDevice.cpp:328-346 | the smallest type allowed by the filter whose property flags cover the requested ones; fails exactly when there is none |
| Device.InsertSorted | source/vulkan/VulkanDevice.cpp:194-196 | inserting into a strictly increasing list keeps it strictly increasing and adds exactly the new element (the behaviour of std::set) |
| Device.UniqueQueueFamilies | source/vulkan/VulkanDevice.cpp:194-196 | the set of family indices is strictly increasing and holds exactly the graphics, present and compute families |
| Device.CreateLogicalDeviceInfo | source/vulkan/VulkanDevice.cpp:190-233 | one queue-create entry per distinct family, in set order, with one queue each; the required extensions are enabled, and so are sampler anisotropy and sample-rate shading |
| Device.SharedFamilyGivesOneQueue | source/vulkan/VulkanDevice.cpp:194-207 | when one family serves all three roles a single queue is created |
| Device.NoFirstSuitableAfterThrow | source/vulkan/VulkanDevice.cpp:35-47 | once one device's scan throws, no device counts as the one picked |
| Device.VulkanDevice.constructor | source/vulkan/VulkanDevice.cpp:9 | the sample count starts at 1; there is no physical device, no family index and no logical device yet |
| Device.VulkanDevice.CreateLogicalDevice | source/vulkan/VulkanDevice.cpp:190-233 | the logical device is created from the create info for the families the pick found; the picked device, sample count and families are unchanged |
| Device.NewVulkanDevice | source/vulkan/VulkanDevice.cpp:6-12 | the whole constructor: succeeds exactly when some device is the first suitable one; then the picked device, its sample count and its complete family indices are recorded and the logical device is created from them; on a throw no device is picked and no logical device exists |
| Device.VulkanDevice.PickPhysicalDevice | source/vulkan/VulkanDevice.cpp:21-58 | fails on an empty list; succeeds exactly when some device is the first suitable one, and then records that device, its maximum sample count and its family indices; on a throw no device is picked and the other fields are unchanged |
| Frame.FindInMap | source/vulkan/renderer.cpp:7-18 | returns the mapped value when the key is present and fails when it is absent |
| Frame.RecordedBuffersFound | source/vulkan/renderer.cpp:2076-2078 | the three buffers the frame loop looks up are present and hold the recorded sequences; the ImGui key is absent |
| Frame.NextFrame | source/vulkan/renderer.cpp:2885 | the next slot is below MAX_FRAMES_IN_FLIGHT: the successor, or 0 past the last slot |
| Frame.FrameAfterIsModular | source/vulkan/renderer.cpp:2885 | after n presented frames the slot has advanced by n modulo MAX_FRAMES_IN_FLIGHT, which is always slot 0 since that constant is 1 |
| Frame.FirstRestored | source/vulkan/renderer.cpp:2552-2558 | the first polled window size with both sides non-zero; all earlier sizes are minimised |
| Frame.PollEventsOnlyPoll | source/vulkan/renderer.cpp:2552-2558 | waiting out k minimised sizes makes 2k + 1 calls, each a size poll or a wait for events |
| Frame.RebuildOrder | source/vulkan/renderer.cpp:2549-2575 | a rebuild only polls until the window is usable, then idles the device, then cleans up, then creates, swap chain first and command buffers last |
| Frame.RebuildNeverZeroExtent | source/vulkan/renderer.cpp:2552-2563 | the swap chain is never re-created with a zero width or height |
| Frame.RebuildSubmitsNothing | source/vulkan/renderer.cpp:2549-2575 | a rebuild makes no submission, fence reset or present |
| Frame.OutOfDateAbortsFrame | source/vulkan/renderer.cpp:2783-2788 | an out-of-date acquire rebuilds and returns: the frame is the slot wait, the acquire and the rebuild, with no submission, fence reset or present |
| Frame.AcquireFailureIsFatal | source/vulkan/renderer.cpp:2789-2792 | any other failed acquire is fatal after the slot wait and the acquire |
| Frame.ImageFenceWaitedBeforeUse | source/vulkan/renderer.cpp:2794-2808 | for an acquired image with a previous fence, that fence is waited on before the read-back, the uniform update and every submission or present |
| Frame.PresentedFrameShape | source/vulkan/renderer.cpp:2816-2883 | a presented frame ends with the sky submit, the slot's fence reset, the draw submit and the present, with both submits on the graphics queue |
| Frame.NoiseSubmittedOnlyWhenGated | source/vulkan/renderer.cpp:2809-2814 | a closed gate submits no noise; an open gate submits the base then the detail volume, each once, before either graphics submit |
| Frame.AwaitUsableSize | source/vulkan/renderer.cpp:2552-2558 | the loop returns the first non-minimised size, having made exactly the polls and waits before it |
| Frame.CreateSyncObjects | source/vulkan/renderer.cpp:2420-2444 | one fence per frame in flight, each created signalled |
| Frame.Renderer.constructor | source/vulkan/renderer.cpp:109-203 | slot 0, the noise gate open, every slot fence signalled, no image tied to a fence, all counters zero, and recorded command buffers for every image |
| Frame.Renderer.Retire | source/vulkan/renderer.cpp:2776-2777 | the GPU signals one slot's fence and no other fence changes |
| Frame.Renderer.WaitForFence | source/vulkan/renderer.cpp:2776-2777 | after the wait the fence is signalled, the wait is logged, and nothing else changes |
| Frame.Renderer.RecreateSwapChain | source/vulkan/renderer.cpp:2549-2575 | logs the rebuild sequence and takes the new image count and extent; the slot, the fences, the noise gate and the counters are unchanged |
| Frame.Renderer.NoiseGate | source/vulkan/renderer.cpp:2809-2814 | the gate closes exactly when it was open and both volumes submit; a failure while open is fatal; a closed gate changes nothing |
| Frame.Renderer.SubmitFrame | source/vulkan/renderer.cpp:2816-2885 | the two graphics submits, the fence reset and the present; the slot advances exactly when the frame is presented, and the submit and present counts follow |
| Frame.Renderer.RenderImage | source/vulkan/renderer.cpp:2794-2885 | waits on the image's previous fence, ties the image to the current slot, runs the noise gate and then the submits; no other image's fence changes |
| Frame.Renderer.DrawComputeFrame | source/vulkan/renderer.cpp:2771-2886 | one frame: its outcome and its calls are the reference trace for the acquire result; out of date clears framebufferResized and rebuilds; the slot advances only on present |
| Frame.Renderer.Run | source/Application.cpp:106-112 | frames run until the input ends or one is fatal; the slot advances once per present modulo MAX_FRAMES_IN_FLIGHT; at most two noise submits happen over the whole run, exactly two once any frame has been presented, and no new one when the gate starts closed |
| Image.CreateImageView | source/vulkan/VulkanImage.cpp:3-31 | the view is 3D exactly when depth > 1, with the given image, format and aspect, mip levels from 0 to mipLevels and one layer |
| Image.ImageTypeFor | source/vulkan/VulkanImage.cpp:38 | the image is 2D exactly when depth == 1 |
| Image.ViewTypeMatchesImageType | source/vulkan/VulkanImage.cpp:3-40 | for depth ≥ 1 the view is 3D exactly when the image is; for depth 0 they disagree (2D view, 3D image) |
| Image.VulkanImage.constructor | source/vulkan/VulkanImage.cpp:80 | the object as it stands before CreateImage runs: its handle (standing for the VkImage that vkCreateImage returns) and no create info, memory type or view |
| Image.NewVulkanImage | source/vulkan/VulkanImage.cpp:77-84 | the whole constructor: the create info, format and mip levels are recorded; it throws exactly when no memory type fits, and otherwise records the smallest fitting memory type and the matching view |
| Image.VulkanImage.CreateImage | source/vulkan/VulkanImage.cpp:33-75 | records the format and mip levels and the create info with the depth-chosen image type; fails exactly when no memory type fits, and otherwise records the smallest fitting memory type (as findMemoryType picks it) and the matching view |
| Image.HasStencilComponent | source/vulkan/VulkanImage.cpp:278-282 | true exactly for the two depth formats with an 8-bit stencil part, so never for the 32-bit float depth format |
| Image.AspectMask | source/vulkan/VulkanImage.cpp:193-206 | depth, plus stencil for stencil formats, for the depth-stencil layout; colour for every other layout; no other bit |
| Image.TransitionImageLayout | source/vulkan/VulkanImage.cpp:180-276 | accepts exactly the four supported (old, new) pairs and fails on every other; each accepted pair gets its access masks and stages (from UNDEFINED: no source access, top-of-pipe source stage, all-commands for the GENERAL target, whose destination is no access at all-commands); every barrier covers all mip levels |
| Image.UploadTransitionsChain | source/vulkan/VulkanImage.cpp:217-262 | the upload pair UNDEFINED→TRANSFER_DST→SHADER_READ is accepted, and the second barrier waits on the first one's transfer write |
| Image.TransitionSources | source/vulkan/VulkanImage.cpp:217-262 | an accepted transition changes the layout and starts from UNDEFINED or TRANSFER_DST |
| Image.BitLength | source/vulkan/VulkanImage.cpp:123-124 | for n ≥ 1 the bit length r satisfies 2^(r-1) ≤ n < 2^r, i.e. r = ⌊log2 n⌋ + 1 |
| Image.MipLevelCount | source/vulkan/VulkanImage.cpp:119-125 | 1 for EXR images, and otherwise the bit length of the larger side |
| Image.BlitTarget | source/vulkan/VulkanImage.cpp:372-373 | the destination side is at least 1, and is the source side halved once the source is at least 1 |
| Image.MipExtentPositive | source/vulkan/VulkanImage.cpp:400-401 | a side that starts at 1 or more never drops below 1 however often it is halved |
| Image.FullChainEndsAtOneTexel | source/vulkan/VulkanImage.cpp:119-125 | along the full chain the side of a level is 1 exactly at the last level |
| Image.GenerateMipmaps | source/vulkan/VulkanImage.cpp:317-418 | fails exactly when the format lacks linear-filter support; otherwise records the reference chain of barriers and blits |
| Image.EveryLevelReachesShaderReadOnce | source/vulkan/VulkanImage.cpp:342-415 | the recorded commands move levels 0 .. mipLevels - 1 to shader-read, each exactly once and in order |
| Image.BlitExtents | source/vulkan/VulkanImage.cpp:342-401 | the blit into level k + 1 reads level k at its current extent and writes that extent halved but never below 1 |
| Recording.Timed | source/vulkan/renderer.cpp:2105-2109 | a dispatch or draw bracketed by timestamp writes q and q + 1 is logged with its pipeline, pass, subpass and pending barrier, and these two queries are written |
| Recording.SubpassDraw | source/vulkan/renderer.cpp:2238-2253 | moving to the next subpass with a new pipeline and its sets adds one timed draw in that subpass and clears the pending barrier |
| Recording.TerrainBindings | source/vulkan/renderer.cpp:2213-2230 | beginning the HDR pass and binding the terrain pipeline, sets and buffers opens subpass 0 with the terrain pipeline bound, and adds no work or query |
| Recording.TerrainSubpass | source/vulkan/renderer.cpp:2213-2235 | the terrain subpass adds one timed indexed draw in subpass 0 of the HDR pass, with queries 8 and 9 |
| Recording.SkySubpasses | source/vulkan/renderer.cpp:2238-2295 | the far-sky, clouds and aerial-perspective subpasses add one draw each in the next three subpasses, with queries 10 .. 15 |
| Recording.QueryOpsAppend | source/vulkan/renderer.cpp:2816-2873 | the query operations of two buffers run back to back are those of the first followed by those of the second |
| Recording.WritesOfAvailableRange | source/vulkan/renderer.cpp:2104-2408 | writing each query of a range that is still available is valid and uses up exactly that range |
| Recording.RecordComputeLUTs | source/vulkan/renderer.cpp:2080-2179 | the pool reset, then four timed LUT dispatches with the barriers between them |
| Recording.RecordRenderSky | source/vulkan/renderer.cpp:2182-2297 | the HDR pass: four timed draws, one per subpass, and the pass closed at the end |
| Recording.RecordPostProcess | source/vulkan/renderer.cpp:2300-2416 | the histogram and sum dispatches with their barriers, then the final full-screen pass, all timed |
| Recording.CreateCommandBuffers | source/vulkan/renderer.cpp:2072-2418 | one map per image, holding exactly the three named buffers, each recorded as above |
| Recording.FrameQueriesValid | source/vulkan/renderer.cpp:2104-2408 | a frame resets all 30 queries, then writes 0 .. 21 once each, in order, each while available; 22 .. 29 stay unused |
| Recording.FrameWorkIsTimed | source/vulkan/renderer.cpp:2105-2408 | every dispatch and draw sits between its own pair of timestamps: LUTs 0..7, sky 8..15, post-process 16..21 |
| Recording.SkyDrawsMatchSubpasses | source/vulkan/renderer.cpp:2213-2296 | the k-th draw of the sky pass is in subpass k and uses the pipeline created for subpass k; all four subpasses are drawn and the pass is closed |
| Recording.TerrainDrawCoversGrid | source/vulkan/renderer.cpp:2233 | the terrain draw's index count is exactly the number of indices generated for the 3000 × 3000 grid |
| Recording.HistogramTilesWithinExtent | source/vulkan/renderer.cpp:2328 | the histogram dispatch covers the largest multiple of 16 pixels within each side, so up to 15 columns and rows are left out |
| Recording.ReadbackAsWrittenOverlaps | source/vulkan/renderer.cpp:2803-2805 | as written, queries 0 and 1 land on the same bytes and the call breaks the valid-usage rules |
| Recording.ReadbackCorrectedSeparatesQueries | source/vulkan/renderer.cpp:2803-2805 | the corrected call is valid, reads exactly the 22 written queries, puts query q in words 2q and 2q + 1, and keeps the records apart |
| RenderPass.LastDepthWriter | source/vulkan/renderer.cpp:486-533 | the latest subpass before s that writes the attachment as depth, and absent exactly when none does |
| RenderPass.DepthInputsAreWrittenEarlier | source/vulkan/renderer.cpp:486-598 | every depth attachment a subpass reads as input was written by an earlier subpass, linked to it by a chain of dependency edges (stage masks are not considered) |
| RenderPass.NoSubpassReadsItsOwnDepth | source/vulkan/renderer.cpp:486-533 | no subpass reads as input the depth attachment it writes |
| RenderPass.DependenciesPointForward | source/vulkan/renderer.cpp:535-598 | every subpass-to-subpass dependency goes from an earlier to a later subpass, and 0→1, 1→2, 2→3 are all present |
| RenderPass.ReferenceLayouts | source/vulkan/renderer.cpp:456-533 | inputs are read in shader-read layout, depth is written in depth-stencil layout, and every subpass writes the single HDR colour attachment |
| RenderPass.PipelineSubpass | source/vulkan/renderer.cpp:1087-1368 | each graphics pipeline is created for one of the four subpasses |
| RenderPass.PipelineSubpassRoles | source/vulkan/renderer.cpp:486-1368 | terrain writes depth one, far sky and clouds read it, clouds write depth two and aerial perspective reads it |
| RenderPass.PipelineSubpassIsBijective | source/vulkan/renderer.cpp:1087-1368 | the four pipelines and the four subpasses correspond one to one |
| Swapchain.ChooseSwapSurfaceFormat | source/vulkan/vulkan_swapchain.cpp:104-118 | the first B8G8R8A8_UNORM / SRGB_NONLINEAR format when there is one, and the first format otherwise |
| Swapchain.ChooseSwapPresentMode | source/vulkan/vulkan_swapchain.cpp:120-141 | MAILBOX when it is available, and FIFO otherwise |
| Swapchain.ToU32 | source/vulkan/vulkan_swapchain.cpp:156-160 | the int-to-uint32 cast: unchanged in range, and a negative value wraps by 2^32 |
| Swapchain.Clamp | source/vulkan/vulkan_swapchain.cpp:163-168 | the value clamped into [lo, hi] |
| Swapchain.ChooseSwapExtent | source/vulkan/vulkan_swapchain.cpp:143-171 | the current extent when it is fixed; otherwise each requested side clamped between the minimum and maximum extent: a side below the minimum becomes the minimum and one above the maximum becomes the maximum |
| Swapchain.NegativeSideClampsToMaximum | source/vulkan/vulkan_swapchain.cpp:156-169 | a negative requested width becomes a huge unsigned value and is clamped to the maximum width |
| Swapchain.RequestedImageCount | source/vulkan/vulkan_swapchain.cpp:16-25 | min + 1 by 32-bit arithmetic, capped at max when max > 0 (0 means no limit); a minimum of UINT32_MAX wraps to 0 |
| Swapchain.RequestedCountWithinLimits | source/vulkan/vulkan_swapchain.cpp:16-25 | for consistent limits the count is at least the minimum and at most a non-zero maximum, and is min + 1 when there is no maximum |
| Swapchain.SharingFor | source/vulkan/vulkan_swapchain.cpp:41-59 | concurrent sharing over both families exactly when graphics and present differ, and exclusive with no list otherwise |
| Swapchain.ConcurrentListsTwoDistinctFamilies | source/vulkan/vulkan_swapchain.cpp:41-59 | concurrent sharing names two distinct families |
| Swapchain.SwapChain.constructor | source/vulkan/vulkan_swapchain.cpp:5-93 | the create info takes the chosen format, mode, extent, count and sharing; the object records the capability minimum and the returned images, with exactly one view per image |
| Terrain.Row | source/vulkan/renderer.cpp:1546-1556 | row i holds the vertices (i, 0) .. (i, res - 1) |
| Terrain.CreatePrimitives | source/vulkan/renderer.cpp:1541-1573 | the nested loops produce the row-by-row grid vertices and six indices per cell |
| Terrain.GridVerticesLength | source/vulkan/renderer.cpp:1545-1557 | there are rows · res vertices |
| Terrain.GridVertexAt | source/vulkan/renderer.cpp:1545-1557 | vertex (i, j) is at position j + i · res |
| Terrain.RowIndicesLength | source/vulkan/renderer.cpp:1561-1572 | a row of cols cells has 6 · cols indices |
| Terrain.GridIndicesLength | source/vulkan/renderer.cpp:1560-1573 | rows rows of cells have rows · 6 · (res − 1) indices |
| Terrain.QuadIndicesInRange | source/vulkan/renderer.cpp:1562-1571 | every index of a cell names one of the res² vertices |
| Terrain.RowIndicesInRange | source/vulkan/renderer.cpp:1561-1572 | every index of a row of cells names a vertex |
| Terrain.GridIndicesInRange | source/vulkan/renderer.cpp:1560-1573 | every grid index names a vertex |
| Terrain.QuadCorners | source/vulkan/renderer.cpp:1562-1571 | a cell's indices name its four corners, and its two triangles share one diagonal |
| Terrain.GridIndexCountAndRange | source/vulkan/renderer.cpp:1541-1573 | the full grid has 6 (res − 1)² indices, each below res² |
| Terrain.DrawCountMatchesGrid | source/vulkan/renderer.cpp:2233 | for res = 3000 the index count equals the hard-coded 2999 · 2999 · 6 |
| Terrain.GridIndicesFitInt | source/vulkan/renderer.cpp:1562-1565 | every index of the 3000 grid fits the signed 32-bit int it is computed in |
| Worley.CellIndexInRange | source/noise/worley_noise.cpp:444 | x + n(y + zn) is below n³ for every cell of [0, n)³ |
| Worley.CellOfIndex | source/noise/worley_noise.cpp:444 | decoding the index of a cell gives back that cell |
| Worley.IndexOfCell | source/noise/worley_noise.cpp:432-444 | every slot below n³ is the index of exactly one cell |
| Worley.CellIndexInjective | source/noise/worley_noise.cpp:444 | distinct cells get distinct indices |
| Worley.GenerateWorleyPointsBuffer | source/noise/worley_noise.cpp:430-449 | the buffer has n³ slots, and cell (x, y, z) is written at its index, so every slot is written exactly once |
| Worley.UploadFitsIffWithinMaxDivisions | source/noise/worley_noise.cpp:393-398 | an upload of n³ vec3 fits the MAX_DIV_CNT³ vec3 buffer exactly when n ≤ 50 |
| Worley.FillChannel | source/noise/worley_noise.cpp:386-410 | each channel has n³ points per buffer, slot CellIndex(n, x, y, z) of each holding the point of cell (x, y, z), uploads of that size, min/max starting at {10000000, 0}, and params with its divisions, target (1, 0, 0, 0) and persistence |
| Worley.ChannelWrites | source/noise/worley_noise.cpp:158-207 | six writes, at bindings 0 .. 5, element 0 |
| Worley.ChannelWritesFillChannelLayout | source/noise/worley_noise.cpp:56-207 | the channel writes fill every binding of the channel layout exactly once |
| Worley.NormalizeWrites | source/noise/worley_noise.cpp:262-299 | entries i and i + 4 are binding 0 and 1, element i, for i < 4; entry 8 is binding 2; none is left unset |
| Worley.NormalizeWritesFillNormalizeLayout | source/noise/worley_noise.cpp:213-299 | the nine writes fill every element of the normalize layout exactly once |
| Worley.RecordNoiseCommands | source/noise/worley_noise.cpp:339-368 | the Worley pipeline, then each channel's set and dispatch, then one barrier, then the normalize pipeline, set and dispatch, each dispatch with texDimensions/4 groups |
| Worley.NoiseCommandsWellOrdered | source/noise/worley_noise.cpp:339-368 | every dispatch runs with a set matching its bound pipeline, each channel uses its own set, and the normalize pass comes after a barrier that follows every channel |
| Worley.WorleyPipelineThroughChannels | source/noise/worley_noise.cpp:345-362 | the Worley pipeline stays bound across all channel dispatches |
| Worley.GenerateNoise | source/noise/worley_noise.cpp:451-468 | submits one command buffer to the compute queue with no semaphores and no fence, and fails exactly when the submit fails |

## Left out

- Vulkan, GLFW and ImGui calls are not modelled beyond their place in a trace. Create, destroy, map, copy and unmap are left out, and a failed `vkCreate*` or `vkBeginCommandBuffer`/`vkEndCommandBuffer` is not modelled; those calls throw in the source.
- GPU execution and cross-queue ordering are not modelled, and semaphores are opaque. The noise is submitted with no fence or semaphore, so the model claims nothing about the GPU waiting for it.
- The result of `vkQueuePresentKHR` is ignored by the source, and so by the model. `framebufferResized` is only ever cleared there, which the model keeps.
- Renderer.Run: the frame loop of the application is modelled only as calls to `drawComputeFrame` until one throws. Window events, ImGui frames and the final wait for the device are not modelled.
- Renderer.DrawComputeFrame: the index of an acquired image must be below the swap-chain image count, and no more than three images are supported, because `perFrameData` has three entries. The source checks neither.
- RebuildPossible and AwaitUsableSize: a window that never leaves the minimised state is excluded; the source waits forever in that case (renderer.cpp:2554-2558).
- Renderer.RecreateSwapChain: the new image count and extent are inputs, since they come from the Vulkan surface.
- Renderer.NoiseGate: `redrawNoise` is a global variable in the source and a field here. The "both volumes submitted" count is kept only on paths that do not throw.
- Renderer.constructor: `perFrameData = {}` (renderer.cpp:111) starts every image's inFlightFence as VK_NULL_HANDLE, which the model's None reproduces. Only the command buffers, sync objects, frame index and noise gate of the constructor are modelled.
- VulkanDevice.constructor: `physicalDevice` has no initialiser in the header, and the model starts it as null. A Dafny constructor cannot throw, so it holds only the constructor's first step; NewVulkanDevice runs the whole constructor and returns the throw as a failed outcome.
- VulkanDevice.CreateLogicalDevice: the families are those pickPhysicalDevice stored, which the source's second findQueueFamilies call recomputes unchanged. A failing `vkCreateDevice` and the three `vkGetDeviceQueue` handles are not modelled.
- VulkanImage.constructor: it cannot throw for the same reason, so it builds the object only; NewVulkanImage runs CreateImage on it and returns the throw as a failed outcome. The handle is an input standing for the VkImage of `vkCreateImage`, whose failure is not modelled. Of the texture-loading constructor (`VulkanImage.cpp:86`) only the mip-level count is modelled (`MipLevelCount`); loading the file and the staging upload are I/O.
- Descriptor-set contents, uniform-buffer contents (`updateUniformBuffer`) and ImGui overlay recording are not modelled. The timestamp read-back is modelled only through its parameters.
- Floating point is left out. This covers vertex positions and texture coordinates (the grid keeps the integer coordinates), random point offsets and `cellSize` (points keep their cell), `std::log2` (modelled as the bit length, which equals it on integers), `glm::pow` (modelled as the integer cube) and every parameter literal.
- Image.GenerateMipmaps: the blit's layout and stage flags are recorded as abstract commands, and only their order and extents are stated.
- Files outside the core are not part of this model: shader code, pipeline create-info fillers, buffer wrappers, the camera, the sky-model parameters and the application loop.

## Findings

| source | as written | input that shows it | evidently intended | confidence | as-written member | corrected member |
|---|---|---|---|---|---|---|
| source/vulkan/renderer.cpp:2803-2805 | `vkGetQueryPoolResults` reads 22 queries with the 64-bit and availability flags into `22 * sizeof(uint64_t)` bytes, with stride 0 | any frame: the records of queries 0 and 1 both start at byte 0; once the stride is fixed at 16, 22 records need 352 bytes, not 176 | stride 16 and dataSize 352, so that query q's value and availability land in timestamp words 2q and 2q + 1 | not executed | Recording.ReadbackAsWrittenOverlaps | Recording.ReadbackCorrectedSeparatesQueries |
