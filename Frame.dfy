// The frame loop of the renderer (source/vulkan/renderer.cpp, renderer.hpp):
// drawComputeFrame, recreateSwapChain / cleanupSwapchain, createSyncObjects
// and findInMap, over the state the loop mutates.
//
// Every Vulkan and GLFW call is an event appended to `trace`; what such a call
// reports back (the acquire result, whether a submit succeeded, the window
// size) is part of the frame's input. Fences are numbered by their slot in
// inFlightFences; a fence is either signalled or waiting for the GPU, and the
// GPU finishing the work it guards is the separate action `Retire`.

module Frame {
  import opened Common
  import Recording
  import Worley

  /** MAX_FRAMES_IN_FLIGHT */
  const MAX_FRAMES_IN_FLIGHT: nat := 1
  /** The length of perFrameData: std::array<FrameData, 3>. */
  const FRAME_DATA_COUNT: nat := 3

  // ---------------------------------------------------------------- findInMap

  /** findInMap: the value stored under `key`, or the runtime_error thrown
      when the key is absent. */
  function FindInMap<T>(m: map<string, T>, key: string): (r: Result<T>)
    ensures r.Ok? <==> key in m
    ensures r.Ok? ==> r.value == m[key]
  {
    if key in m then Ok(m[key]) else Err("Value " + key + " not found in umap")
  }

  /** The three buffers recorded for an image are always found, and they are
      the recorded ones. No command buffer is recorded under "ImGui": the
      overlay's buffer comes from the ImGui helper, and "ImGui" is looked up
      only among the framebuffers, so a lookup of it here would throw. */
  lemma RecordedBuffersFound(m: map<string, Recording.Log<Recording.Command>>, width: nat, height: nat)
    requires Recording.ImageBuffersRecorded(m, width, height)
    ensures FindInMap(m, "ComputeLUTs").Ok? && Recording.LUTsRecorded(FindInMap(m, "ComputeLUTs").value)
    ensures FindInMap(m, "RenderSky").Ok? && Recording.SkyRecorded(FindInMap(m, "RenderSky").value)
    ensures FindInMap(m, "PostProcess").Ok? && Recording.PostRecorded(FindInMap(m, "PostProcess").value, width, height)
    ensures FindInMap(m, "ImGui").Err?
  {
    assert "ImGui" !in m.Keys;
  }

  // ---------------------------------------------------------------- frame index

  /** currentFrame = (currentFrame + 1) % MAX_FRAMES_IN_FLIGHT */
  function NextFrame(f: nat): (r: nat)
    ensures r < MAX_FRAMES_IN_FLIGHT
    ensures f + 1 < MAX_FRAMES_IN_FLIGHT ==> r == f + 1
    ensures f + 1 == MAX_FRAMES_IN_FLIGHT ==> r == 0
  {
    (f + 1) % MAX_FRAMES_IN_FLIGHT
  }

  /** currentFrame after `n` presented frames. */
  function FrameAfter(f: nat, n: nat): nat
  {
    if n == 0 then f else NextFrame(FrameAfter(f, n - 1))
  }

  /** After n presented frames the slot index has moved on by n, modulo
      MAX_FRAMES_IN_FLIGHT; with one frame in flight it is always 0. */
  lemma FrameAfterIsModular(f: nat, n: nat)
    requires f < MAX_FRAMES_IN_FLIGHT
    ensures FrameAfter(f, n) == (f + n) % MAX_FRAMES_IN_FLIGHT
    ensures FrameAfter(f, n) == 0
  {
  }

  // ---------------------------------------------------------------- events

  datatype NoiseVolume = BaseNoise | DetailNoise

  /** The calls the frame loop makes, in the order it makes them. */
  datatype Event =
    | WaitFence(fence: nat)
    | AcquireImage(slot: nat)
    | PollSize
    | WaitEvents
    | DeviceWaitIdle
    | CleanupSwapchain(imageCount: nat)
    | CreateSwapchain(width: int, height: int)
    | CreateAttachments
    | CreateRenderPass
    | CreatePipelines
    | PrepareTextureTargets
    | CreateFramebuffers
    | CreateDescriptorPool
    | CreateDescriptorSets
    | CreateCommandBuffers
    | ReadTimestamps(image: nat)
    | UpdateUniforms(image: nat)
    | SubmitNoise(volume: NoiseVolume, submission: Worley.Submission)
    | Submit(queue: Worley.Queue, buffers: seq<string>, waitSemaphores: nat, signalSemaphores: nat, signalFence: Option<nat>)
    | ResetFence(fence: nat)
    | Present(image: nat)

  /** The re-creation steps after the device is idle and the old swap chain
      is gone. */
  predicate IsCreation(e: Event)
  {
    e.CreateSwapchain? || e.CreateAttachments? || e.CreateRenderPass? || e.CreatePipelines?
    || e.PrepareTextureTargets? || e.CreateFramebuffers? || e.CreateDescriptorPool?
    || e.CreateDescriptorSets? || e.CreateCommandBuffers?
  }

  predicate IsSubmission(e: Event)
  {
    e.SubmitNoise? || e.Submit?
  }

  // ---------------------------------------------------------------- window polling

  /** glfwGetFramebufferSize */
  datatype WindowSize = WindowSize(width: int, height: int)

  /** A minimised window reports a side of 0. */
  predicate Minimized(s: WindowSize)
  {
    s.width == 0 || s.height == 0
  }

  /** Some polled size is usable: the window is eventually restored. */
  predicate EventuallyRestored(sizes: seq<WindowSize>)
  {
    exists k :: 0 <= k < |sizes| && !Minimized(sizes[k])
  }

  /** The index of the first usable size. */
  function FirstRestored(sizes: seq<WindowSize>): (k: nat)
    requires EventuallyRestored(sizes)
    ensures k < |sizes| && !Minimized(sizes[k])
    ensures forall j :: 0 <= j < k ==> Minimized(sizes[j])
  {
    if !Minimized(sizes[0]) then 0
    else
      assert EventuallyRestored(sizes[1..]) by {
        var k :| 0 <= k < |sizes| && !Minimized(sizes[k]);
        assert sizes[1..][k - 1] == sizes[k];
      }
      1 + FirstRestored(sizes[1..])
  }

  /** The calls of the polling loop that ends at the k-th size: one query,
      then a query and a wait for events per minimised size. */
  function PollEvents(k: nat): seq<Event>
  {
    if k == 0 then [PollSize] else PollEvents(k - 1) + [PollSize, WaitEvents]
  }

  lemma {:induction false} PollEventsOnlyPoll(k: nat)
    ensures |PollEvents(k)| == 2 * k + 1
    ensures forall j :: 0 <= j < |PollEvents(k)| ==> PollEvents(k)[j] in {PollSize, WaitEvents}
  {
    if k > 0 {
      PollEventsOnlyPoll(k - 1);
    }
  }

  // The trace functions below extend a trace `t` call by call, in the order
  // the calls are made; the ...Events functions are the calls alone.

  /** recreateSwapChain: wait until the window has a usable size, idle the
      device, clean up the old swap chain, then build everything again. */
  function RebuildTrace(t: seq<Event>, sizes: seq<WindowSize>, oldImageCount: nat): seq<Event>
    requires EventuallyRestored(sizes)
  {
    var k := FirstRestored(sizes);
    t + PollEvents(k) + [DeviceWaitIdle, CleanupSwapchain(oldImageCount)]
    + [CreateSwapchain(sizes[k].width, sizes[k].height)]
    + [CreateAttachments, CreateRenderPass, CreatePipelines, PrepareTextureTargets,
       CreateFramebuffers, CreateDescriptorPool, CreateDescriptorSets]
    + [CreateCommandBuffers]
  }

  function RebuildEvents(sizes: seq<WindowSize>, oldImageCount: nat): seq<Event>
    requires EventuallyRestored(sizes)
  {
    RebuildTrace([], sizes, oldImageCount)
  }

  /** A rebuild only polls until the window is usable; then the device is
      idled, then the old swap chain cleaned up, and only after that is
      anything created, the swap chain first and with the first non-zero
      size, the command buffers last. */
  lemma RebuildOrder(sizes: seq<WindowSize>, oldImageCount: nat)
    requires EventuallyRestored(sizes)
    ensures var e := RebuildEvents(sizes, oldImageCount);
            var idle := 2 * FirstRestored(sizes) + 1;
            |e| == idle + 11
            && (forall j :: 0 <= j < idle ==> e[j] in {PollSize, WaitEvents})
            && e[idle] == DeviceWaitIdle
            && e[idle + 1] == CleanupSwapchain(oldImageCount)
            && (forall j :: 0 <= j < |e| && IsCreation(e[j]) ==> idle + 1 < j)
            && e[idle + 2] == CreateSwapchain(sizes[FirstRestored(sizes)].width, sizes[FirstRestored(sizes)].height)
            && e[|e| - 1] == CreateCommandBuffers
  {
    PollEventsOnlyPoll(FirstRestored(sizes));
  }

  /** The swap chain is never re-created with a zero side. */
  lemma RebuildNeverZeroExtent(sizes: seq<WindowSize>, oldImageCount: nat)
    requires EventuallyRestored(sizes)
    ensures forall j :: 0 <= j < |RebuildEvents(sizes, oldImageCount)| && RebuildEvents(sizes, oldImageCount)[j].CreateSwapchain? ==>
              RebuildEvents(sizes, oldImageCount)[j].width != 0 && RebuildEvents(sizes, oldImageCount)[j].height != 0
  {
    PollEventsOnlyPoll(FirstRestored(sizes));
  }

  // ---------------------------------------------------------------- one frame

  /** vkAcquireNextImageKHR: an image (VK_SUCCESS or VK_SUBOPTIMAL_KHR),
      VK_ERROR_OUT_OF_DATE_KHR, or any other result. */
  datatype Acquire = Acquired(image: nat, suboptimal: bool) | OutOfDate | AcquireFailed

  /** What the calls of one frame report: the acquire result, the window
      sizes and the new swap chain (image count and extent) should the frame
      rebuild, and whether each submit succeeds. */
  datatype FrameInput = FrameInput(
    acquire: Acquire,
    window: seq<WindowSize>,
    newImageCount: nat, newWidth: nat, newHeight: nat,
    noiseSubmitOk: bool, detailNoiseSubmitOk: bool,
    lutSubmitOk: bool, drawSubmitOk: bool)

  datatype FrameOutcome = Presented(image: nat) | Rebuilt | Fatal(reason: string)

  /** The submission of the look-up-table and sky buffers: no wait, signals
      postProcessReadySemaphore, no fence. */
  function LutSubmit(): Event
  {
    Submit(Worley.GraphicsQueue, ["ComputeLUTs", "RenderSky"], 0, 1, None)
  }

  /** The submission of the post-process and overlay buffers: waits on the
      image and on the sky, signals renderFinished, and signals the slot's fence. */
  function DrawSubmit(slot: nat): Event
  {
    Submit(Worley.GraphicsQueue, ["PostProcess", "ImGui"], 2, 1, Some(slot))
  }

  /** What generateNoise submits: one buffer to the compute queue, no
      semaphores, no fence. */
  const NoiseSubmission: Worley.Submission := Worley.Submission(Worley.ComputeQueue, 1, 0, 0, false)

  predicate NoiseOk(input: FrameInput)
  {
    input.noiseSubmitOk && input.detailNoiseSubmitOk
  }

  /** The noise gate: while it is open, both volumes, base first; a failed
      submit throws. */
  function GateTrace(t: seq<Event>, redrawNoise: bool, input: FrameInput): seq<Event>
  {
    if !redrawNoise || !input.noiseSubmitOk then t
    else if !input.detailNoiseSubmitOk then t + [SubmitNoise(BaseNoise, NoiseSubmission)]
    else t + [SubmitNoise(BaseNoise, NoiseSubmission)] + [SubmitNoise(DetailNoise, NoiseSubmission)]
  }

  /** From the first submit on: the fence is reset only after the first
      submit succeeded, and the image is presented only after the second.
      A failed submit throws and records nothing. */
  function SubmitTrace(t: seq<Event>, slot: nat, image: nat, input: FrameInput): seq<Event>
  {
    if !input.lutSubmitOk then t
    else if !input.drawSubmitOk then t + [LutSubmit()] + [ResetFence(slot)]
    else t + [LutSubmit()] + [ResetFence(slot)] + [DrawSubmit(slot), Present(image)]
  }

  /** The calls made for an acquired image: the wait on the fence last
      associated with it, the timestamp read-back, the uniform update, the
      noise gate and the submissions. */
  function AcquiredTrace(t: seq<Event>, slot: nat, lastFence: Option<nat>, redrawNoise: bool, image: nat, input: FrameInput): seq<Event>
  {
    var waited := if lastFence.Some? then t + [WaitFence(lastFence.value)] else t;
    var gated := GateTrace(waited + [ReadTimestamps(image), UpdateUniforms(image)], redrawNoise, input);
    if redrawNoise && !NoiseOk(input) then gated else SubmitTrace(gated, slot, image, input)
  }

  predicate RebuildPossible(input: FrameInput)
  {
    input.acquire.OutOfDate? ==> EventuallyRestored(input.window)
  }

  /** The calls drawComputeFrame makes, given the slot, the fence last
      associated with the acquired image, the noise gate and the old image
      count. */
  function FrameTrace(t: seq<Event>, slot: nat, lastFence: Option<nat>, redrawNoise: bool, imageCount: nat, input: FrameInput): seq<Event>
    requires RebuildPossible(input)
  {
    var started := t + [WaitFence(slot)] + [AcquireImage(slot)];
    match input.acquire
    case OutOfDate => RebuildTrace(started, input.window, imageCount)
    case AcquireFailed => started
    case Acquired(image, _) => AcquiredTrace(started, slot, lastFence, redrawNoise, image, input)
  }

  function FrameEvents(slot: nat, lastFence: Option<nat>, redrawNoise: bool, imageCount: nat, input: FrameInput): seq<Event>
    requires RebuildPossible(input)
  {
    FrameTrace([], slot, lastFence, redrawNoise, imageCount, input)
  }

  /** A frame's calls are the same whatever was recorded before it. */
  lemma FrameTraceExtends(t: seq<Event>, slot: nat, lastFence: Option<nat>, redrawNoise: bool, imageCount: nat, input: FrameInput)
    requires RebuildPossible(input)
    ensures FrameTrace(t, slot, lastFence, redrawNoise, imageCount, input) == t + FrameEvents(slot, lastFence, redrawNoise, imageCount, input)
  {
    var started := t + [WaitFence(slot)] + [AcquireImage(slot)];
    var e := [WaitFence(slot)] + [AcquireImage(slot)];
    assert started == t + e;
    assert [] + [WaitFence(slot)] + [AcquireImage(slot)] == e;
    match input.acquire
    case OutOfDate =>
      RebuildTraceExtends(t, e, input.window, imageCount);
    case AcquireFailed =>
    case Acquired(image, _) =>
      AcquiredTraceExtends(t, e, slot, lastFence, redrawNoise, image, input);
  }

  lemma RebuildTraceExtends(t: seq<Event>, e: seq<Event>, sizes: seq<WindowSize>, oldImageCount: nat)
    requires EventuallyRestored(sizes)
    ensures RebuildTrace(t + e, sizes, oldImageCount) == t + RebuildTrace(e, sizes, oldImageCount)
  {
    var k := FirstRestored(sizes);
    var a := PollEvents(k) + [DeviceWaitIdle, CleanupSwapchain(oldImageCount)];
    var b := [CreateSwapchain(sizes[k].width, sizes[k].height)];
    var c := [CreateAttachments, CreateRenderPass, CreatePipelines, PrepareTextureTargets,
              CreateFramebuffers, CreateDescriptorPool, CreateDescriptorSets];
    var d := [CreateCommandBuffers];
    assert t + e + PollEvents(k) + [DeviceWaitIdle, CleanupSwapchain(oldImageCount)] == t + (e + a);
    assert t + (e + a) + b + c + d == t + (e + a + b + c + d);
    assert e + PollEvents(k) + [DeviceWaitIdle, CleanupSwapchain(oldImageCount)] == e + a;
  }

  lemma AcquiredTraceExtends(t: seq<Event>, e: seq<Event>, slot: nat, lastFence: Option<nat>, redrawNoise: bool, image: nat, input: FrameInput)
    ensures AcquiredTrace(t + e, slot, lastFence, redrawNoise, image, input) == t + AcquiredTrace(e, slot, lastFence, redrawNoise, image, input)
  {
    var waited := if lastFence.Some? then t + e + [WaitFence(lastFence.value)] else t + e;
    var waited' := if lastFence.Some? then e + [WaitFence(lastFence.value)] else e;
    assert waited == t + waited';
    var prepared := waited + [ReadTimestamps(image), UpdateUniforms(image)];
    var prepared' := waited' + [ReadTimestamps(image), UpdateUniforms(image)];
    assert prepared == t + prepared';
    assert GateTrace(prepared, redrawNoise, input) == t + GateTrace(prepared', redrawNoise, input);
    var gated' := GateTrace(prepared', redrawNoise, input);
    assert SubmitTrace(t + gated', slot, image, input) == t + SubmitTrace(gated', slot, image, input);
  }

  /** How the submissions end. */
  function SubmitResult(image: nat, input: FrameInput): FrameOutcome
  {
    if !input.lutSubmitOk then Fatal("failed to submit multiscattering compute queue")
    else if !input.drawSubmitOk then Fatal("failed to submit draw command buffer")
    else Presented(image)
  }

  /** How the work for an acquired image ends. */
  function AcquiredResult(redrawNoise: bool, image: nat, input: FrameInput): FrameOutcome
  {
    if redrawNoise && !NoiseOk(input) then Fatal("failed to submit draw command buffer")
    else SubmitResult(image, input)
  }

  /** How drawComputeFrame ends. */
  function FrameResult(redrawNoise: bool, input: FrameInput): FrameOutcome
  {
    match input.acquire
    case OutOfDate => Rebuilt
    case AcquireFailed => Fatal("failed to acquire swap chain image")
    case Acquired(image, _) => AcquiredResult(redrawNoise, image, input)
  }

  // ---------------------------------------------------------------- frame properties

  /** An out-of-date image aborts the frame: after the slot wait and the
      acquire it only rebuilds, and nothing is submitted, no fence is reset
      and nothing is presented. */
  lemma OutOfDateAbortsFrame(slot: nat, lastFence: Option<nat>, redrawNoise: bool, imageCount: nat, input: FrameInput)
    requires input.acquire.OutOfDate? && EventuallyRestored(input.window)
    ensures FrameResult(redrawNoise, input) == Rebuilt
    ensures FrameEvents(slot, lastFence, redrawNoise, imageCount, input)
            == [WaitFence(slot), AcquireImage(slot)] + RebuildEvents(input.window, imageCount)
    ensures forall j :: 0 <= j < |FrameEvents(slot, lastFence, redrawNoise, imageCount, input)| ==>
              var e := FrameEvents(slot, lastFence, redrawNoise, imageCount, input)[j];
              !IsSubmission(e) && !e.ResetFence? && !e.Present?
  {
    var e := FrameEvents(slot, lastFence, redrawNoise, imageCount, input);
    var rebuild := RebuildEvents(input.window, imageCount);
    assert e == [WaitFence(slot), AcquireImage(slot)] + rebuild;
    RebuildSubmitsNothing(input.window, imageCount);
    forall j | 0 <= j < |e|
      ensures !IsSubmission(e[j]) && !e[j].ResetFence? && !e[j].Present?
    {
      if j >= 2 {
        assert e[j] == rebuild[j - 2];
      }
    }
  }

  /** A rebuild submits nothing, resets no fence and presents nothing. */
  lemma RebuildSubmitsNothing(sizes: seq<WindowSize>, oldImageCount: nat)
    requires EventuallyRestored(sizes)
    ensures forall j :: 0 <= j < |RebuildEvents(sizes, oldImageCount)| ==>
              var e := RebuildEvents(sizes, oldImageCount)[j];
              !IsSubmission(e) && !e.ResetFence? && !e.Present?
  {
    PollEventsOnlyPoll(FirstRestored(sizes));
  }

  /** Any acquire result other than an image or out-of-date is fatal, right
      after the acquire. */
  lemma AcquireFailureIsFatal(slot: nat, lastFence: Option<nat>, redrawNoise: bool, imageCount: nat, input: FrameInput)
    requires input.acquire.AcquireFailed?
    ensures FrameResult(redrawNoise, input).Fatal?
    ensures FrameEvents(slot, lastFence, redrawNoise, imageCount, input) == [WaitFence(slot), AcquireImage(slot)]
  {
  }

  /** Before anything is done for an acquired image, the fence last
      associated with it has been waited on; every submission comes after
      that wait. */
  lemma ImageFenceWaitedBeforeUse(slot: nat, lastFence: Option<nat>, redrawNoise: bool, imageCount: nat, input: FrameInput)
    requires input.acquire.Acquired? && lastFence.Some?
    ensures var e := FrameEvents(slot, lastFence, redrawNoise, imageCount, input);
            |e| >= 5 && e[..5] == [WaitFence(slot), AcquireImage(slot), WaitFence(lastFence.value),
                                   ReadTimestamps(input.acquire.image), UpdateUniforms(input.acquire.image)]
            && forall j :: 0 <= j < |e| && (IsSubmission(e[j]) || e[j].Present?) ==> 5 <= j
  {
  }

  /** A presented frame submits the sky and then the draw, resets the slot's
      fence between the two so that the draw signals it, and presents the
      acquired image last; both submissions go to the graphics queue. */
  lemma PresentedFrameShape(slot: nat, lastFence: Option<nat>, redrawNoise: bool, imageCount: nat, input: FrameInput)
    requires FrameResult(redrawNoise, input).Presented?
    ensures var e := FrameEvents(slot, lastFence, redrawNoise, imageCount, input);
            |e| >= 4 && e[|e| - 4..] == [LutSubmit(), ResetFence(slot), DrawSubmit(slot), Present(input.acquire.image)]
            && LutSubmit().queue == Worley.GraphicsQueue && DrawSubmit(slot).queue == Worley.GraphicsQueue
            && FrameResult(redrawNoise, input) == Presented(input.acquire.image)
  {
  }

  predicate NoNoise(e: seq<Event>)
  {
    forall j :: 0 <= j < |e| ==> !e[j].SubmitNoise?
  }

  /** The base volume is submitted at `i` and the detail volume right after,
      no other noise submission occurs, and every graphics submission comes
      later. */
  predicate NoiseOnceAt(e: seq<Event>, i: nat)
  {
    i + 1 < |e| && e[i] == SubmitNoise(BaseNoise, NoiseSubmission)
    && e[i + 1] == SubmitNoise(DetailNoise, NoiseSubmission)
    && (forall j :: 0 <= j < |e| && e[j].SubmitNoise? ==> j == i || j == i + 1)
    && (forall j :: 0 <= j < |e| && e[j].Submit? ==> i + 1 < j)
  }

  /** The noise volumes are submitted only while the gate is open, base
      volume first, each once, to the compute queue with nothing to wait on
      and no fence, and before either graphics submission. */
  lemma NoiseSubmittedOnlyWhenGated(slot: nat, lastFence: Option<nat>, redrawNoise: bool, imageCount: nat, input: FrameInput)
    requires RebuildPossible(input)
    ensures !redrawNoise ==> NoNoise(FrameEvents(slot, lastFence, redrawNoise, imageCount, input))
    ensures redrawNoise && input.acquire.Acquired? && NoiseOk(input) ==>
              NoiseOnceAt(FrameEvents(slot, lastFence, redrawNoise, imageCount, input), if lastFence.Some? then 5 else 4)
  {
    if input.acquire.OutOfDate? {
      OutOfDateAbortsFrame(slot, lastFence, redrawNoise, imageCount, input);
    }
  }

  // ---------------------------------------------------------------- the renderer

  /** The polling loop of recreateSwapChain: query the framebuffer size, and
      while a side is 0, query again and wait for window events. Returns the
      usable size and the calls made. */
  method AwaitUsableSize(sizes: seq<WindowSize>) returns (size: WindowSize, calls: seq<Event>)
    requires EventuallyRestored(sizes)
    ensures size == sizes[FirstRestored(sizes)] && !Minimized(size)
    ensures calls == PollEvents(FirstRestored(sizes))
  {
    var k := 0;
    size := sizes[0];
    calls := [PollSize];
    while Minimized(size)
      invariant 0 <= k <= FirstRestored(sizes)
      invariant size == sizes[k]
      invariant forall j :: 0 <= j < k ==> Minimized(sizes[j])
      invariant calls == PollEvents(k)
      decreases FirstRestored(sizes) - k
    {
      k := k + 1;
      size := sizes[k];
      calls := calls + [PollSize, WaitEvents];
    }
  }

  /** createSyncObjects: one fence per frame in flight, created signalled so
      that the first wait returns at once. Semaphores are opaque and not
      represented; a failing creation is not modelled. */
  method CreateSyncObjects() returns (fenceSignalled: array<bool>)
    ensures fresh(fenceSignalled) && fenceSignalled.Length == MAX_FRAMES_IN_FLIGHT
    ensures forall i :: 0 <= i < MAX_FRAMES_IN_FLIGHT ==> fenceSignalled[i]
  {
    fenceSignalled := new bool[MAX_FRAMES_IN_FLIGHT];
    var i := 0;
    while i < MAX_FRAMES_IN_FLIGHT
      invariant 0 <= i <= MAX_FRAMES_IN_FLIGHT
      invariant forall k :: 0 <= k < i ==> fenceSignalled[k]
    {
      fenceSignalled[i] := true;
      i := i + 1;
    }
  }

  /** Every image's three buffers hold what createCommandBuffers recorded. */
  predicate AllRecorded(buffers: seq<map<string, Recording.Log<Recording.Command>>>, width: nat, height: nat)
  {
    forall i {:trigger Recording.ImageBuffersRecorded(buffers[i], width, height)} :: 0 <= i < |buffers| ==>
      Recording.ImageBuffersRecorded(buffers[i], width, height)
  }

  class Renderer {
    /** currentFrame */
    var currentFrame: nat
    /** inFlightFences: whether each slot's fence is signalled. */
    var fenceSignalled: array<bool>
    /** perFrameData[i].inFlightFence: the slot whose fence last guarded image i. */
    const imageFence: array<Option<nat>>
    /** perFrameData[i].commandBuffers for the images of the swap chain. */
    var commandBuffers: seq<map<string, Recording.Log<Recording.Command>>>
    /** vSwapChain->imageCount and swapChainExtent */
    var imageCount: nat
    var width: nat
    var height: nat
    var framebufferResized: bool
    /** The global redrawNoise gate. */
    var redrawNoise: bool
    /** Counts of successful submissions and presents. */
    var noiseSubmits: nat
    var graphicsSubmits: nat
    var presents: nat
    /** Every call made, in order. */
    var trace: seq<Event>

    predicate Valid()
      reads this, fenceSignalled, imageFence
    {
      fenceSignalled.Length == MAX_FRAMES_IN_FLIGHT
      && imageFence.Length == FRAME_DATA_COUNT
      && currentFrame < MAX_FRAMES_IN_FLIGHT
      && (forall i :: 0 <= i < FRAME_DATA_COUNT && imageFence[i].Some? ==> imageFence[i].value < MAX_FRAMES_IN_FLIGHT)
      && imageCount <= FRAME_DATA_COUNT
      && |commandBuffers| == imageCount
      && (forall i :: 0 <= i < imageCount ==> commandBuffers[i].Keys == Recording.BUFFER_NAMES)
      && AllRecorded(commandBuffers, width, height)
      && graphicsSubmits >= 2 * presents
    }

    /** Both volumes have been submitted once the gate is closed, and none
        while it is open. A failed noise submit throws, which ends the
        program, so the count is kept on the paths that do not throw. */
    predicate NoiseCounted()
      reads this
    {
      (redrawNoise ==> noiseSubmits == 0) && (!redrawNoise ==> noiseSubmits == 2)
    }

    /** The part of the constructor this model covers: the command buffers of
        a swap chain with `count` images of the given extent, the sync
        objects, no image yet associated with a fence, frame 0 and the noise
        gate open. `perFrameData = {}` starts every image's inFlightFence as
        VK_NULL_HANDLE, which None reproduces. */
    constructor (count: nat, w: nat, h: nat)
      requires count <= FRAME_DATA_COUNT
      ensures Valid() && NoiseCounted() && fresh(fenceSignalled) && fresh(imageFence)
      ensures currentFrame == 0 && redrawNoise && !framebufferResized
      ensures imageCount == count && width == w && height == h
      ensures forall i :: 0 <= i < MAX_FRAMES_IN_FLIGHT ==> fenceSignalled[i]
      ensures forall i :: 0 <= i < FRAME_DATA_COUNT ==> imageFence[i] == None
      ensures noiseSubmits == 0 && graphicsSubmits == 0 && presents == 0 && trace == []
    {
      var buffers := Recording.CreateCommandBuffers(count, w, h);
      var fences := CreateSyncObjects();
      currentFrame := 0;
      fenceSignalled := fences;
      imageFence := new Option<nat>[FRAME_DATA_COUNT](_ => None);
      commandBuffers := buffers;
      imageCount := count;
      width := w;
      height := h;
      framebufferResized := false;
      redrawNoise := true;
      noiseSubmits := 0;
      graphicsSubmits := 0;
      presents := 0;
      trace := [];
    }

    /** The GPU finishes the work guarded by slot `s`'s fence and signals it. */
    method Retire(s: nat)
      requires Valid() && s < MAX_FRAMES_IN_FLIGHT
      modifies fenceSignalled
      ensures Valid()
      ensures fenceSignalled[s]
      ensures forall i :: 0 <= i < fenceSignalled.Length && i != s ==> fenceSignalled[i] == old(fenceSignalled[i])
    {
      fenceSignalled[s] := true;
    }

    /** vkWaitForFences with no timeout: returns once the fence is signalled,
        which, when it is not, means once the GPU has retired its work. */
    method WaitForFence(s: nat)
      requires Valid() && s < MAX_FRAMES_IN_FLIGHT
      modifies this, fenceSignalled
      ensures Valid()
      ensures fenceSignalled[s]
      ensures forall i :: 0 <= i < fenceSignalled.Length && i != s ==> fenceSignalled[i] == old(fenceSignalled[i])
      ensures trace == old(trace) + [WaitFence(s)]
      ensures currentFrame == old(currentFrame) && fenceSignalled == old(fenceSignalled)
      ensures commandBuffers == old(commandBuffers) && imageCount == old(imageCount)
      ensures width == old(width) && height == old(height) && framebufferResized == old(framebufferResized)
      ensures redrawNoise == old(redrawNoise) && noiseSubmits == old(noiseSubmits)
      ensures graphicsSubmits == old(graphicsSubmits) && presents == old(presents)
    {
      if !fenceSignalled[s] {
        Retire(s);
      }
      trace := trace + [WaitFence(s)];
    }

    /** recreateSwapChain and cleanupSwapchain. The new swap chain has
        `newCount` images and the extent `newWidth` x `newHeight`, which
        chooseSwapExtent derives from the size; per-image fences survive. */
    method RecreateSwapChain(sizes: seq<WindowSize>, newCount: nat, newWidth: nat, newHeight: nat)
      requires Valid() && EventuallyRestored(sizes) && newCount <= FRAME_DATA_COUNT
      modifies this
      ensures Valid()
      ensures trace == RebuildTrace(old(trace), sizes, old(imageCount))
      ensures imageCount == newCount && width == newWidth && height == newHeight
      ensures currentFrame == old(currentFrame) && fenceSignalled == old(fenceSignalled)
      ensures framebufferResized == old(framebufferResized)
      ensures redrawNoise == old(redrawNoise) && noiseSubmits == old(noiseSubmits)
      ensures graphicsSubmits == old(graphicsSubmits) && presents == old(presents)
    {
      var size, polls := AwaitUsableSize(sizes);
      trace := trace + polls + [DeviceWaitIdle, CleanupSwapchain(imageCount)];
      commandBuffers := [];
      trace := trace + [CreateSwapchain(size.width, size.height)];
      imageCount := newCount;
      width := newWidth;
      height := newHeight;
      trace := trace + [CreateAttachments, CreateRenderPass, CreatePipelines, PrepareTextureTargets,
                        CreateFramebuffers, CreateDescriptorPool, CreateDescriptorSets];
      commandBuffers := Recording.CreateCommandBuffers(imageCount, width, height);
      trace := trace + [CreateCommandBuffers];
    }

    /** The noise gate of drawComputeFrame: while redrawNoise is set, submit
        both volumes and close the gate; a failed submit throws. */
    method NoiseGate(input: FrameInput) returns (ok: bool)
      requires Valid() && NoiseCounted()
      modifies this
      ensures Valid() && (ok ==> NoiseCounted())
      ensures ok == !(old(redrawNoise) && !NoiseOk(input))
      ensures trace == GateTrace(old(trace), old(redrawNoise), input)
      ensures redrawNoise == (old(redrawNoise) && !NoiseOk(input))
      ensures !old(redrawNoise) ==> noiseSubmits == old(noiseSubmits)
      ensures noiseSubmits <= old(noiseSubmits) + 2
      ensures currentFrame == old(currentFrame) && fenceSignalled == old(fenceSignalled)
      ensures commandBuffers == old(commandBuffers) && imageCount == old(imageCount)
      ensures width == old(width) && height == old(height) && framebufferResized == old(framebufferResized)
      ensures graphicsSubmits == old(graphicsSubmits) && presents == old(presents)
    {
      if !redrawNoise {
        return true;
      }
      var base := Worley.GenerateNoise(input.noiseSubmitOk);
      if base.Err? {
        return false;
      }
      trace := trace + [SubmitNoise(BaseNoise, base.value)];
      noiseSubmits := noiseSubmits + 1;
      var detail := Worley.GenerateNoise(input.detailNoiseSubmitOk);
      if detail.Err? {
        return false;
      }
      trace := trace + [SubmitNoise(DetailNoise, detail.value)];
      noiseSubmits := noiseSubmits + 1;
      redrawNoise := false;
      return true;
    }

    /** The two graphics submissions and the present of drawComputeFrame; the
        slot's fence is reset just before the second submission signals it. */
    method SubmitFrame(slot: nat, image: nat, input: FrameInput) returns (outcome: FrameOutcome)
      requires Valid() && slot == currentFrame && image < imageCount
      modifies this, fenceSignalled
      ensures Valid()
      ensures outcome == SubmitResult(image, input)
      ensures trace == SubmitTrace(old(trace), slot, image, input)
      ensures currentFrame == (if outcome.Presented? then NextFrame(old(currentFrame)) else old(currentFrame))
      ensures outcome.Presented? ==>
                graphicsSubmits == old(graphicsSubmits) + 2 && presents == old(presents) + 1
                && !fenceSignalled[slot]
      ensures !outcome.Presented? ==> presents == old(presents)
      ensures fenceSignalled == old(fenceSignalled)
      ensures commandBuffers == old(commandBuffers) && imageCount == old(imageCount)
      ensures width == old(width) && height == old(height) && framebufferResized == old(framebufferResized)
      ensures redrawNoise == old(redrawNoise) && noiseSubmits == old(noiseSubmits)
    {
      var skyBuffers := [FindInMap(commandBuffers[image], "ComputeLUTs").value,
                         FindInMap(commandBuffers[image], "RenderSky").value];
      if !input.lutSubmitOk {
        return Fatal("failed to submit multiscattering compute queue");
      }
      trace := trace + [LutSubmit()];
      graphicsSubmits := graphicsSubmits + 1;
      var postBuffer := FindInMap(commandBuffers[image], "PostProcess").value;
      fenceSignalled[slot] := false;
      trace := trace + [ResetFence(slot)];
      if !input.drawSubmitOk {
        return Fatal("failed to submit draw command buffer");
      }
      trace := trace + [DrawSubmit(slot), Present(image)];
      graphicsSubmits := graphicsSubmits + 1;
      presents := presents + 1;
      currentFrame := NextFrame(currentFrame);
      return Presented(image);
    }

    /** drawComputeFrame once an image is acquired: wait on the fence the
        image was last submitted with, hand the image the slot's fence, then
        the read-back, the uniforms, the noise gate and the submissions. */
    method RenderImage(slot: nat, image: nat, input: FrameInput) returns (outcome: FrameOutcome)
      requires Valid() && NoiseCounted() && slot == currentFrame && image < imageCount
      modifies this, fenceSignalled, imageFence
      ensures Valid() && (!outcome.Fatal? ==> NoiseCounted())
      ensures outcome == AcquiredResult(old(redrawNoise), image, input)
      ensures trace == AcquiredTrace(old(trace), slot, old(imageFence[image]), old(redrawNoise), image, input)
      ensures currentFrame == (if outcome.Presented? then NextFrame(old(currentFrame)) else old(currentFrame))
      ensures imageFence[image] == Some(slot)
      ensures forall i :: 0 <= i < FRAME_DATA_COUNT && i != image ==> imageFence[i] == old(imageFence[i])
      ensures redrawNoise == (old(redrawNoise) && !NoiseOk(input))
      ensures !old(redrawNoise) ==> noiseSubmits == old(noiseSubmits)
      ensures noiseSubmits <= old(noiseSubmits) + 2
      ensures outcome.Presented? ==>
                graphicsSubmits == old(graphicsSubmits) + 2 && presents == old(presents) + 1
                && !fenceSignalled[slot]
      ensures !outcome.Presented? ==> presents == old(presents)
      ensures fenceSignalled == old(fenceSignalled)
      ensures commandBuffers == old(commandBuffers) && imageCount == old(imageCount)
      ensures width == old(width) && height == old(height) && framebufferResized == old(framebufferResized)
    {
      var last := imageFence[image];
      if last.Some? {
        WaitForFence(last.value);
      }
      imageFence[image] := Some(slot);
      trace := trace + [ReadTimestamps(image), UpdateUniforms(image)];
      var noiseOk := NoiseGate(input);
      if !noiseOk {
        return Fatal("failed to submit draw command buffer");
      }
      outcome := SubmitFrame(slot, image, input);
    }

    /** drawComputeFrame. */
    method DrawComputeFrame(input: FrameInput) returns (outcome: FrameOutcome)
      requires Valid() && NoiseCounted() && RebuildPossible(input)
      requires input.acquire.Acquired? ==> input.acquire.image < imageCount
      requires input.acquire.OutOfDate? ==> input.newImageCount <= FRAME_DATA_COUNT
      modifies this, fenceSignalled, imageFence
      ensures Valid() && (!outcome.Fatal? ==> NoiseCounted())
      ensures outcome == FrameResult(old(redrawNoise), input)
      ensures trace == FrameTrace(old(trace), old(currentFrame),
                                 if input.acquire.Acquired? then old(imageFence[input.acquire.image]) else None,
                                 old(redrawNoise), old(imageCount), input)
      ensures trace == old(trace) + FrameEvents(old(currentFrame),
                                                if input.acquire.Acquired? then old(imageFence[input.acquire.image]) else None,
                                                old(redrawNoise), old(imageCount), input)
      ensures currentFrame == (if outcome.Presented? then NextFrame(old(currentFrame)) else old(currentFrame))
      ensures framebufferResized == (if input.acquire.OutOfDate? then false else old(framebufferResized))
      ensures input.acquire.OutOfDate? ==>
                imageCount == input.newImageCount && width == input.newWidth && height == input.newHeight
                && fenceSignalled[old(currentFrame)]
      ensures !input.acquire.OutOfDate? ==>
                commandBuffers == old(commandBuffers) && imageCount == old(imageCount)
                && width == old(width) && height == old(height)
      ensures input.acquire.Acquired? ==> imageFence[input.acquire.image] == Some(old(currentFrame))
      ensures forall i :: 0 <= i < FRAME_DATA_COUNT && !(input.acquire.Acquired? && i == input.acquire.image) ==>
                imageFence[i] == old(imageFence[i])
      ensures redrawNoise == (old(redrawNoise) && !(input.acquire.Acquired? && NoiseOk(input)))
      ensures !old(redrawNoise) ==> noiseSubmits == old(noiseSubmits)
      ensures noiseSubmits <= old(noiseSubmits) + 2
      ensures outcome.Presented? ==>
                graphicsSubmits == old(graphicsSubmits) + 2 && presents == old(presents) + 1
                && !fenceSignalled[old(currentFrame)]
      ensures !outcome.Presented? ==> presents == old(presents)
      ensures fenceSignalled == old(fenceSignalled)
    {
      var slot := currentFrame;
      ghost var before := trace;
      ghost var lastFence := if input.acquire.Acquired? then imageFence[input.acquire.image] else None;
      FrameTraceExtends(before, slot, lastFence, redrawNoise, imageCount, input);
      WaitForFence(slot);
      trace := trace + [AcquireImage(slot)];
      match input.acquire
      case OutOfDate => {
        framebufferResized := false;
        RecreateSwapChain(input.window, input.newImageCount, input.newWidth, input.newHeight);
        return Rebuilt;
      }
      case AcquireFailed => {
        return Fatal("failed to acquire swap chain image");
      }
      case Acquired(image, _) => {
        outcome := RenderImage(slot, image, input);
      }
    }

    /** The main loop: one drawComputeFrame per input until one throws. The
        acquired images lie below `minImages`, and every rebuilt swap chain
        has at least that many images and at most three. */
    method Run(inputs: seq<FrameInput>, minImages: nat) returns (outcomes: seq<FrameOutcome>)
      requires Valid() && NoiseCounted() && minImages <= imageCount
      requires forall k :: 0 <= k < |inputs| ==> InputFits(inputs[k], minImages)
      modifies this, fenceSignalled, imageFence
      ensures Valid()
      ensures |outcomes| <= |inputs|
      ensures forall k :: 0 <= k < |outcomes| - 1 ==> !outcomes[k].Fatal?
      ensures |outcomes| < |inputs| ==> |outcomes| > 0 && outcomes[|outcomes| - 1].Fatal?
      ensures currentFrame == FrameAfter(old(currentFrame), Presentations(outcomes))
      ensures presents == old(presents) + Presentations(outcomes)
      ensures noiseSubmits <= 2
      ensures Presentations(outcomes) > 0 ==> !redrawNoise && noiseSubmits == 2
      ensures !old(redrawNoise) ==> noiseSubmits == old(noiseSubmits)
    {
      outcomes := [];
      var k := 0;
      while k < |inputs|
        invariant 0 <= k <= |inputs| && |outcomes| == k
        invariant Valid() && NoiseCounted() && minImages <= imageCount
        invariant fenceSignalled == old(fenceSignalled)
        invariant forall j :: 0 <= j < k ==> !outcomes[j].Fatal?
        invariant currentFrame == FrameAfter(old(currentFrame), Presentations(outcomes))
        invariant presents == old(presents) + Presentations(outcomes)
        invariant Presentations(outcomes) > 0 ==> !redrawNoise
        invariant !old(redrawNoise) ==> noiseSubmits == old(noiseSubmits)
      {
        ghost var presented := Presentations(outcomes);
        var outcome := DrawComputeFrame(inputs[k]);
        assert outcomes + [outcome] == (outcomes + [outcome])[..|outcomes|] + [outcome];
        outcomes := outcomes + [outcome];
        if outcome.Fatal? {
          return;
        }
        k := k + 1;
      }
    }
  }

  /** What the driver and the window may report in a frame of `Run`. */
  predicate InputFits(input: FrameInput, minImages: nat)
  {
    (input.acquire.Acquired? ==> input.acquire.image < minImages)
    && (input.acquire.OutOfDate? ==>
          EventuallyRestored(input.window) && minImages <= input.newImageCount <= FRAME_DATA_COUNT)
  }

  /** The number of presented frames. */
  function Presentations(outcomes: seq<FrameOutcome>): nat
  {
    if outcomes == [] then 0
    else Presentations(outcomes[..|outcomes| - 1]) + (if outcomes[|outcomes| - 1].Presented? then 1 else 0)
  }
}
