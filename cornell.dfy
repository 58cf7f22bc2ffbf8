/**
 * The SDFCornell application object: the GPU objects it owns, the frame
 * slot it is on, the settings its control panel edits, and the deferred
 * rebuild of the reflective shadow map (RSM) when its resolution changes.
 *
 * GPU objects are handles in a registry; the work the GPU still has to do
 * for each frame slot is a ghost set of the handles that work reads, and
 * what the host asks of the GPU is a ghost trace of events.
 */
module Cornell {
  import opened Wrappers
  import opened Handles
  import opened Commands
  import opened CornellHeader
  import opened CornellFrame
  import opened CornellObjects
  import opened FrameLoop
  import opened Vectors

  /**
   * What one turn of `mainLoop` takes from outside the program: the cursor
   * position the window reports (if it moved), the image the swapchain
   * hands out, whether the queue accepts the submission, the clock, the
   * light-space quantities the float code computes, and the panel's input.
   */
  datatype CornellFrameInput = CornellFrameInput(
    cursor: Option<Vec2>,
    imageIndex: nat,
    submitOk: bool,
    time: real,
    lightDir: Vec3,
    rightLength: real,
    ui: Option<CornellUi>)

  class SDFCornell {
    const platform: Platform

    /**
     * The registry and the objects it holds: what `initVulkanPC` builds,
     * the shadow map at its current size, and one descriptor set per
     * swapchain image, rebuilt with the shadow map.
     */
    var resources: Resources
    /** What each swapchain image's command buffer was last recorded with. */
    var recordings: seq<seq<Command>>
    var currentFrame: nat
    var frameCounter: nat
    var mouseX: real
    var mouseY: real
    var settings: Settings
    /** The combo entry, the size it names, and whether a rebuild at that size is pending. */
    var request: ResizeRequest
    /** The contents of the mapped uniform buffer, once written. */
    var uploaded: Option<CornellUniforms>

    /** For each frame slot, the objects its submitted, not yet waited-for work reads. */
    ghost var inFlight: seq<set<Handle>>
    /** What the object has asked of the GPU and the window system, in order. */
    ghost var trace: seq<Event>
    /** Whether the cursor callback is installed (desktop builds, once `setupMouseCallback` ran). */
    var cursorCallbackInstalled: bool

    /** Frames in flight. */
    function Slots(): nat
    {
      FrameNum(platform)
    }

    /**
     * The state once `initVulkanPC` has run, kept by every frame: every
     * object a frame reads is live, the work in flight reads only live
     * objects, and the current slot is the number of completed frames
     * modulo the slot count.
     */
    ghost predicate Valid()
      reads `resources, `recordings, `inFlight, `currentFrame, `frameCounter
    {
      && resources.Live(Slots())
      && |inFlight| == Slots() && InFlightLive(resources.table, inFlight)
      && |recordings| == |resources.gpu.swapchain.images|
      && currentFrame == frameCounter % Slots()
    }

    /**
     * The resolution request agrees with itself, and while no rebuild is
     * pending the shadow map has the size the combo shows.
     */
    ghost predicate Consistent()
      reads `request, `resources
    {
      && RequestConsistent(request)
      && (!request.pending ==> resources.rsmWidth == request.pendingSize && resources.rsmHeight == request.pendingSize)
    }

    /**
     * The declared initial state: nothing created, every handle null, frame
     * and frame count 0, the header's settings with RSM off, and a 1024 by
     * 1024 shadow map matching combo entry 1 with no rebuild pending.
     */
    constructor(p: Platform)
      ensures platform == p && resources == NoResources && trace == [] && inFlight == []
      ensures resources.table == EmptyTable && resources.gpu == NoGpu && resources.rsm == NoRsm
      ensures resources.rsmWidth == InitialRsmSize && resources.rsmHeight == InitialRsmSize
      ensures currentFrame == 0 && frameCounter == 0 && mouseX == 0.0 && mouseY == 0.0
      ensures settings == DefaultSettings && !settings.toggles.rsm
      ensures request == ResizeRequest(InitialRsmResolutionIndex, InitialRsmSize, false)
      ensures Consistent()
      ensures recordings == [] && uploaded == None && !cursorCallbackInstalled
    {
      platform := p;
      resources := Resources(EmptyTable, NoGpu, NoRsm, 1024, 1024, []);
      recordings := [];
      currentFrame := 0;
      frameCounter := 0;
      mouseX := 0.0;
      mouseY := 0.0;
      settings := DefaultSettings;
      request := ResizeRequest(1, 1024, false);
      uploaded := None;
      inFlight := [];
      trace := [];
      cursorCallbackInstalled := false;
    }

    /** `setupMouseCallback`: the cursor callback exists on desktop builds only. */
    method SetupMouseCallback()
      modifies `cursorCallbackInstalled
      ensures cursorCallbackInstalled <==> platform != Ohos
    {
      cursorCallbackInstalled := platform != Ohos;
    }

    /** The cursor callback: it stores the cursor position. */
    method OnCursorPos(x: real, y: real)
      requires cursorCallbackInstalled
      modifies `mouseX, `mouseY
      ensures mouseX == x && mouseY == y
    {
      mouseX, mouseY := x, y;
    }

    /**
     * `initVulkanPC` from the swapchain on: every object is built (see
     * `BuildObjects`) with the shadow map at its current size, the cursor
     * callback is installed on desktop builds, nothing is recorded and
     * nothing is in flight; the settings, the resolution request and the
     * frame counters are untouched.
     */
    method InitVulkanPC(imageCount: nat, width: nat, height: nat)
      requires resources.table.Valid()
      requires resources.gpu.commandPool == NullHandle || resources.table.Holds(resources.gpu.commandPool, CommandPool)
      requires currentFrame == frameCounter % Slots()
      modifies `resources, `recordings, `inFlight, `cursorCallbackInstalled
      ensures Valid()
      ensures resources.rsmWidth == old(resources.rsmWidth) && resources.rsmHeight == old(resources.rsmHeight)
      ensures old(resources.table).KeptIn(resources.table)
      ensures |resources.gpu.swapchain.images| == imageCount
      ensures resources.gpu.swapchain.width == width && resources.gpu.swapchain.height == height
      ensures forall k | 0 <= k < |inFlight| :: inFlight[k] == {}
      ensures forall i | 0 <= i < |recordings| :: recordings[i] == []
      ensures cursorCallbackInstalled <==> platform != Ohos
    {
      var before := resources;
      var t', g, r, sets := BuildObjects(before.table, imageCount, width, height, before.rsmWidth, before.rsmHeight, before.gpu.commandPool, Slots());
      var idle: seq<set<Handle>> := Repeat({}, Slots());
      var unrecorded: seq<seq<Command>> := Repeat([], |g.swapchain.images|);
      // The source installs the callback just before the synchronisation objects are created; it reads only
      // the platform and touches no Vulkan or synchronisation object, so installing it after BuildObjects
      // changes nothing any contract here observes.
      SetupMouseCallback();
      recordings, inFlight, resources := unrecorded, idle, Resources(t', g, r, before.rsmWidth, before.rsmHeight, sets);
    }

    /**
     * `recreateRSMResources(newSize)`: wait for the device to go idle, so no
     * slot has work in flight, then rebuild the shadow-map targets and
     * framebuffer at `newSize` with the same render pass and sampler, and
     * rebuild every descriptor set against the new views (see `RebuildRsm`).
     * The old targets, framebuffer and sets are destroyed, no object the
     * frames read dangles, and the start-up objects are untouched.
     */
    method RecreateRSMResources(newSize: nat)
      requires Valid()
      modifies `resources, `inFlight, `trace
      ensures Valid()
      ensures trace == old(trace) + [DeviceWaitIdle]
      ensures forall k | 0 <= k < |inFlight| :: inFlight[k] == {}
      ensures resources.gpu == old(resources.gpu)
      ensures resources.rsmWidth == newSize && resources.rsmHeight == newSize
      ensures resources.rsm.renderPass == old(resources.rsm.renderPass) && resources.rsm.sampler == old(resources.rsm.sampler)
      ensures RebuiltGone(resources.table, old(resources.rsm))
      ensures forall i | 0 <= i < |old(resources.descriptorSets)| :: old(resources.descriptorSets)[i].id !in resources.table.objects
      ensures RebuiltFrom(resources.rsm, old(resources.table.next))
      ensures KeptApartFrom(old(resources.table), resources.table)
    {
      var after := RebuildResources(resources, newSize, Slots());
      trace := trace + [DeviceWaitIdle];
      inFlight := Repeat({}, Slots());
      resources := after;
    }

    /**
     * `updateUniformBuffer`: the joystick advances the rotation, then the
     * block is packed from the settings, the swapchain extent, the cursor,
     * the frame count and the current shadow-map size, and uploaded.
     */
    method UpdateUniformBuffer(time: real, lightDir: Vec3, rightLength: real)
      requires rightLength > 0.0
      modifies `settings, `uploaded, `trace
      ensures settings == StickStep(old(settings))
      ensures uploaded == Some(PackUniforms(settings, Inputs(time, lightDir, rightLength)))
      ensures trace == old(trace) + [UploadUniforms]
    {
      settings := StickStep(settings);
      uploaded := Some(PackUniforms(settings, Inputs(time, lightDir, rightLength)));
      trace := trace + [UploadUniforms];
    }

    /** What the uniform block is packed from besides the settings. */
    function Inputs(time: real, lightDir: Vec3, rightLength: real): FrameInputs
      reads `resources, `mouseX, `mouseY, `frameCounter
    {
      FrameInputs(time, resources.gpu.swapchain.width, resources.gpu.swapchain.height, Vec2(mouseX, mouseY), frameCounter,
        resources.rsmWidth, resources.rsmHeight, lightDir, rightLength)
    }

    /**
     * `recordCommandBuffer(imageIndex)`: begin the buffer; the offscreen pass
     * or, with RSM off, the three layout transitions; the main pass up to the
     * draw; when the context has an ImGui manager (`ui` is not `None`), the
     * control panel, whose widgets edit the settings and the resolution
     * request, and its draw commands; the end of the pass and of the buffer.
     * The branch is taken on the RSM switch as it was before the panel ran.
     * Without an ImGui manager the settings and the request are left alone.
     */
    method RecordCommandBuffer(imageIndex: nat, ui: Option<CornellUi>)
      requires imageIndex < |resources.gpu.framebuffers| && imageIndex < |resources.descriptorSets|
      requires imageIndex < |recordings| && imageIndex < |resources.gpu.commandBuffers|
      modifies `recordings, `settings, `request, `trace
      ensures recordings == old(recordings)[imageIndex := CornellCommands(old(settings).toggles.rsm, resources.Targets(imageIndex), ui.Some?)]
      ensures settings == ApplyUi(old(settings), PanelInput(ui))
      ensures request == PickResolution(old(request), PanelInput(ui).resolutionPick)
      ensures ui.None? ==> settings == old(settings) && request == old(request)
      ensures trace == old(trace) + [Event.RecordCommandBuffer(resources.gpu.commandBuffers[imageIndex])]
    {
      var f := resources.Targets(imageIndex);
      var rsmOn := settings.toggles.rsm;
      var cmds := [BeginCommandBuffer];
      if rsmOn {
        cmds := cmds + RsmPass(f);
      } else {
        cmds := cmds + RsmTransitions(f);
      }
      assert cmds == [BeginCommandBuffer] + RsmBranch(rsmOn, f);
      cmds := cmds + MainPass(f, ui.Some?)[..7];
      if ui.Some? {
        settings := ApplyUi(settings, ui.value);
        request := PickResolution(request, ui.value.resolutionPick);
        cmds := cmds + [RecordUi];
      } else {
        NoInteractionKeepsSettings(settings);
      }
      cmds := cmds + [EndRenderPass, EndCommandBuffer];
      assert MainPass(f, ui.Some?) == MainPass(f, ui.Some?)[..7] + UiRecording(ui.Some?) + [EndRenderPass];
      assert cmds == CornellCommands(rsmOn, f, ui.Some?);
      recordings := recordings[imageIndex := cmds];
      trace := trace + [Event.RecordCommandBuffer(resources.gpu.commandBuffers[imageIndex])];
    }

    /**
     * The start of `drawFrame`: wait on the current slot's fence, so the
     * slot's previous work is done; run the pending shadow-map rebuild, if
     * any, and clear the flag; acquire the image and reset the fence.
     */
    method BeginFrame(imageIndex: nat)
      requires Valid() && Consistent()
      modifies `resources, `inFlight, `trace, `request
      ensures Valid() && Consistent()
      ensures resources.gpu == old(resources.gpu)
      ensures trace == old(trace) + BeginEvents(resources.gpu.sync[currentFrame], imageIndex, old(request.pending))
      ensures inFlight[currentFrame] == {}
      ensures forall k | 0 <= k < Slots() && k != currentFrame :: inFlight[k] == if old(request.pending) then {} else old(inFlight[k])
      ensures request == old(request).(pending := false)
      ensures old(request.pending) ==> resources.rsmWidth == old(request.pendingSize) && resources.rsmHeight == old(request.pendingSize)
      ensures !old(request.pending) ==> resources == old(resources)
    {
      var s := resources.gpu.sync[currentFrame];
      ghost var before := trace;
      trace := trace + [WaitForFence(s.fence)];
      inFlight := inFlight[currentFrame := {}];
      if request.pending {
        RecreateRSMResources(request.pendingSize);
        request := request.(pending := false);
      }
      trace := trace + [AcquireImage(s.imageAvailable, imageIndex), ResetFence(s.fence)];
    }

    /**
     * The end of `drawFrame`: submit the command buffer of `imageIndex`. A
     * rejected submission throws before presenting and before the slot
     * advances. Otherwise the slot's work is the recording with the command
     * buffer and the slot's fence and semaphores, the image is presented,
     * the slot advances and the frame count grows by one.
     */
    method SubmitFrame(imageIndex: nat, submitOk: bool, ghost rsmOn: bool, ghost hasUi: bool) returns (outcome: Outcome)
      requires Valid() && imageIndex < |resources.gpu.swapchain.images|
      requires recordings[imageIndex] == CornellCommands(rsmOn, resources.Targets(imageIndex), hasUi)
      modifies `inFlight, `trace, `currentFrame, `frameCounter
      ensures Valid()
      ensures trace == old(trace) + SubmitEvents(resources.gpu.sync[old(currentFrame)], imageIndex,
        resources.gpu.commandBuffers[imageIndex], submitOk)
      ensures submitOk ==>
        outcome == Completed && currentFrame == NextSlot(old(currentFrame), Slots()) && frameCounter == old(frameCounter) + 1
      ensures !submitOk ==> outcome == Threw(SubmitFailed) && currentFrame == old(currentFrame) && frameCounter == old(frameCounter)
      ensures inFlight == if submitOk then
        old(inFlight)[old(currentFrame) := Refs(recordings[imageIndex]) + {resources.gpu.commandBuffers[imageIndex],
          resources.gpu.sync[old(currentFrame)].fence, resources.gpu.sync[old(currentFrame)].imageAvailable,
          resources.gpu.sync[old(currentFrame)].renderFinished}]
        else old(inFlight)
    {
      var g := resources.gpu;
      var s := g.sync[currentFrame];
      var cb := g.commandBuffers[imageIndex];
      trace := trace + [Submit(cb, s.imageAvailable, s.renderFinished, s.fence)];
      if !submitOk {
        return Threw(SubmitFailed);
      }
      SlotLiveObjects(resources.table, g, Slots(), currentFrame, imageIndex);
      var r := resources;
      RecordingLive(r.table, r.gpu, r.rsm, r.rsmWidth, r.rsmHeight, r.descriptorSets, Slots(), rsmOn, hasUi, imageIndex);
      inFlight := inFlight[currentFrame := Refs(recordings[imageIndex]) + {cb, s.fence, s.imageAvailable, s.renderFinished}];
      trace := trace + [Present(imageIndex, s.renderFinished)];
      AdvanceTracksCount(frameCounter, Slots());
      currentFrame, frameCounter := (currentFrame + 1) % Slots(), frameCounter + 1;
      return Completed;
    }

    /**
     * The middle of `drawFrame`: the uniform upload, then the reset and
     * re-recording of the acquired image's command buffer.
     */
    method RecordFrame(imageIndex: nat, time: real, lightDir: Vec3, rightLength: real, ui: Option<CornellUi>)
      requires imageIndex < |resources.gpu.framebuffers| && imageIndex < |resources.descriptorSets|
      requires imageIndex < |recordings| && imageIndex < |resources.gpu.commandBuffers| && rightLength > 0.0
      modifies `settings, `uploaded, `trace, `recordings, `request
      ensures trace == old(trace) + RecordEvents(resources.gpu.commandBuffers[imageIndex])
      ensures request == PickResolution(old(request), PanelInput(ui).resolutionPick)
      ensures settings == ApplyUi(StickStep(old(settings)), PanelInput(ui))
      ensures uploaded == Some(PackUniforms(StickStep(old(settings)), FrameInputs(time, resources.gpu.swapchain.width,
        resources.gpu.swapchain.height, Vec2(mouseX, mouseY), frameCounter, resources.rsmWidth, resources.rsmHeight,
        lightDir, rightLength)))
      ensures recordings == old(recordings)[imageIndex := CornellCommands(old(settings).toggles.rsm, resources.Targets(imageIndex), ui.Some?)]
    {
      var cb := resources.gpu.commandBuffers[imageIndex];
      UpdateUniformBuffer(time, lightDir, rightLength);
      trace := trace + [ResetCommandBuffer(cb)];
      RecordCommandBuffer(imageIndex, ui);
      RecordEventsInSteps(old(trace), cb);
    }

    /**
     * The rest of `drawFrame` once the frame has started: the upload and
     * recording (see `RecordFrame`) and the submission (see `SubmitFrame`).
     */
    method RenderFrame(imageIndex: nat, submitOk: bool, time: real, lightDir: Vec3, rightLength: real, ui: Option<CornellUi>)
      returns (outcome: Outcome)
      requires Valid() && imageIndex < |resources.gpu.swapchain.images| && rightLength > 0.0
      modifies `settings, `uploaded, `trace, `recordings, `request, `inFlight, `currentFrame, `frameCounter
      ensures Valid()
      ensures trace == old(trace) + RenderEvents(resources.gpu.sync[old(currentFrame)], imageIndex,
        resources.gpu.commandBuffers[imageIndex], submitOk)
      ensures request == PickResolution(old(request), PanelInput(ui).resolutionPick)
      ensures settings == ApplyUi(StickStep(old(settings)), PanelInput(ui))
      ensures uploaded == Some(PackUniforms(StickStep(old(settings)), FrameInputs(time, resources.gpu.swapchain.width,
        resources.gpu.swapchain.height, Vec2(mouseX, mouseY), old(frameCounter), resources.rsmWidth, resources.rsmHeight,
        lightDir, rightLength)))
      ensures recordings == old(recordings)[imageIndex := CornellCommands(old(settings).toggles.rsm, resources.Targets(imageIndex), ui.Some?)]
      ensures submitOk ==>
        outcome == Completed && currentFrame == NextSlot(old(currentFrame), Slots()) && frameCounter == old(frameCounter) + 1
      ensures !submitOk ==> outcome == Threw(SubmitFailed) && currentFrame == old(currentFrame) && frameCounter == old(frameCounter)
      ensures inFlight == if submitOk then
        old(inFlight)[old(currentFrame) := Refs(recordings[imageIndex]) + {resources.gpu.commandBuffers[imageIndex],
          resources.gpu.sync[old(currentFrame)].fence, resources.gpu.sync[old(currentFrame)].imageAvailable,
          resources.gpu.sync[old(currentFrame)].renderFinished}]
        else old(inFlight)
    {
      var rsmOn := settings.toggles.rsm;
      RecordFrame(imageIndex, time, lightDir, rightLength, ui);
      outcome := SubmitFrame(imageIndex, submitOk, rsmOn, ui.Some?);
      RenderEventsInSteps(old(trace), resources.gpu.sync[old(currentFrame)], imageIndex, resources.gpu.commandBuffers[imageIndex], submitOk);
    }

    /**
     * `drawFrame` with the acquired image `imageIndex` and the submission's
     * outcome `submitOk`: the start of the frame (see `BeginFrame`), then
     * the upload, recording and submission (see `RenderFrame`).
     */
    method DrawFrame(imageIndex: nat, submitOk: bool, time: real, lightDir: Vec3, rightLength: real, ui: Option<CornellUi>)
      returns (outcome: Outcome)
      requires Valid() && Consistent()
      requires imageIndex < |resources.gpu.swapchain.images| && rightLength > 0.0
      modifies `resources, `settings, `uploaded, `trace, `recordings, `request, `inFlight, `currentFrame, `frameCounter
      ensures Valid() && Consistent()
      ensures resources.gpu == old(resources.gpu) && mouseX == old(mouseX) && mouseY == old(mouseY)
      ensures trace == old(trace) + FrameEvents(old(resources.gpu.sync[currentFrame]), imageIndex,
        resources.gpu.commandBuffers[imageIndex], old(request.pending), submitOk)
      ensures old(request.pending) ==> resources.rsmWidth == old(request.pendingSize) && resources.rsmHeight == old(request.pendingSize)
      ensures !old(request.pending) ==> resources == old(resources)
      ensures request == PickResolution(old(request).(pending := false), PanelInput(ui).resolutionPick)
      ensures settings == ApplyUi(StickStep(old(settings)), PanelInput(ui))
      ensures uploaded == Some(PackUniforms(StickStep(old(settings)), FrameInputs(time, resources.gpu.swapchain.width,
        resources.gpu.swapchain.height, Vec2(mouseX, mouseY), old(frameCounter), resources.rsmWidth, resources.rsmHeight,
        lightDir, rightLength)))
      ensures recordings == old(recordings)[imageIndex := CornellCommands(old(settings).toggles.rsm, resources.Targets(imageIndex), ui.Some?)]
      ensures submitOk ==>
        outcome == Completed && currentFrame == NextSlot(old(currentFrame), Slots()) && frameCounter == old(frameCounter) + 1
      ensures !submitOk ==> outcome == Threw(SubmitFailed) && currentFrame == old(currentFrame) && frameCounter == old(frameCounter)
      ensures inFlight[old(currentFrame)] == if submitOk then
        Refs(recordings[imageIndex]) + {resources.gpu.commandBuffers[imageIndex], old(resources.gpu.sync[currentFrame]).fence,
          old(resources.gpu.sync[currentFrame]).imageAvailable, old(resources.gpu.sync[currentFrame]).renderFinished}
        else {}
      ensures forall k | 0 <= k < Slots() && k != old(currentFrame) ::
        inFlight[k] == if old(request.pending) then {} else old(inFlight[k])
    {
      BeginFrame(imageIndex);
      outcome := RenderFrame(imageIndex, submitOk, time, lightDir, rightLength, ui);
      PickKeepsConsistent(old(request).(pending := false), PanelInput(ui).resolutionPick);
      FrameEventsInSteps(old(trace), old(resources.gpu.sync[currentFrame]), imageIndex,
        resources.gpu.commandBuffers[imageIndex], old(request.pending), submitOk);
    }

    /**
     * `mainLoop` over the turns `frames`: each turn delivers the cursor
     * events and draws one frame; a rejected submission ends the loop with
     * its exception, and once the window closes the device is waited idle.
     * The frame count grows by one per completed frame and the slot follows it.
     */
    method MainLoop(frames: seq<CornellFrameInput>) returns (outcome: Outcome, completed: nat)
      requires Valid() && Consistent()
      requires forall k | 0 <= k < |frames| ::
        frames[k].imageIndex < |resources.gpu.swapchain.images| && frames[k].rightLength > 0.0
      modifies this
      ensures Valid() && Consistent() && resources.gpu == old(resources.gpu)
      ensures completed <= |frames| && frameCounter == old(frameCounter) + completed
      ensures currentFrame == (old(frameCounter) + completed) % Slots()
      ensures outcome == Completed ==> completed == |frames| && |trace| > 0 && trace[|trace| - 1] == DeviceWaitIdle
      ensures outcome != Completed ==> outcome == Threw(SubmitFailed) && completed < |frames| && !frames[completed].submitOk
    {
      completed := 0;
      while completed < |frames|
        invariant Valid() && Consistent() && completed <= |frames|
        invariant resources.gpu == old(resources.gpu)
        invariant frameCounter == old(frameCounter) + completed
        decreases |frames| - completed
      {
        var f := frames[completed];
        if f.cursor.Some? && cursorCallbackInstalled {
          OnCursorPos(f.cursor.value.x, f.cursor.value.y);
        }
        outcome := DrawFrame(f.imageIndex, f.submitOk, f.time, f.lightDir, f.rightLength, f.ui);
        if outcome != Completed {
          return;
        }
        completed := completed + 1;
      }
      trace := trace + [DeviceWaitIdle];
      outcome := Completed;
    }
  }
}
