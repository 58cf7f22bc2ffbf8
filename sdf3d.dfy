/**
 * The SDF3D application object: the GPU objects it owns, the frame slot and
 * the frame count, and the four light toggles of its panel; and how its
 * uniform block is packed from them.
 *
 * GPU objects are handles in a registry, and what the host asks of the GPU
 * is a ghost trace of events.
 */
module Sdf3d {
  import opened Wrappers
  import opened Handles
  import opened Commands
  import opened FrameLoop
  import opened FrameResources
  import opened SinglePass
  import opened Vectors
  import opened Sdf3dHeader

  /** The clear colour of the render pass. */
  const ClearDark: Color := Color(0.05, 0.07, 0.10, 1.0)

  /** The contents of `ShaderToy3DUniforms`, one lane per float or int. */
  datatype Uniforms3D = Uniforms3D(iTime: real, iResolution: Vec2, iMouse: Vec2, iFrame: int, enableLights: IVec4)

  /** A host bool as an int lane: 1 when set, 0 otherwise. */
  function IntFlag(b: bool): (n: int)
    ensures n == 0 || n == 1
    ensures n == 1 <==> b
  {
    if b then 1 else 0
  }

  /** How the shader reads the four switches: a light is on when its lane is not 0. */
  function EnabledLights(u: Uniforms3D): Toggles3D
  {
    Toggles3D(u.enableLights.x != 0, u.enableLights.y != 0, u.enableLights.z != 0, u.enableLights.w != 0)
  }

  /**
   * `updateUniformBuffer`: the time, the swapchain extent, the frame count as
   * iFrame and the four toggles as 1 or 0. iMouse is always (0, 0), so the
   * cursor never reaches the shader. Reading the lanes back gives the
   * toggles.
   */
  function PackUniforms(time: real, width: nat, height: nat, frameCounter: int, t: Toggles3D): (u: Uniforms3D)
    ensures u.iTime == time && u.iResolution == Vec2(width as real, height as real)
    ensures u.iMouse == Vec2(0.0, 0.0) && u.iFrame == frameCounter
    ensures EnabledLights(u) == t
    ensures forall n | n in [u.enableLights.x, u.enableLights.y, u.enableLights.z, u.enableLights.w] :: n == 0 || n == 1
  {
    Uniforms3D(time, Vec2(width as real, height as real), Vec2(0.0, 0.0), frameCounter,
      IVec4(IntFlag(t.key), IntFlag(t.sky), IntFlag(t.fill), IntFlag(t.rim)))
  }

  /** The checkboxes clicked in the control panel during one frame, by light number 1 to 4. */
  datatype Panel3D = Panel3D(clicked: set<nat>)

  /** A clicked checkbox flips its light; the others keep theirs. */
  function ApplyPanel(t: Toggles3D, p: Panel3D): (r: Toggles3D)
    ensures r.key != t.key <==> 1 in p.clicked
    ensures r.sky != t.sky <==> 2 in p.clicked
    ensures r.fill != t.fill <==> 3 in p.clicked
    ensures r.rim != t.rim <==> 4 in p.clicked
  {
    Toggles3D(
      if 1 in p.clicked then !t.key else t.key,
      if 2 in p.clicked then !t.sky else t.sky,
      if 3 in p.clicked then !t.fill else t.fill,
      if 4 in p.clicked then !t.rim else t.rim)
  }

  /** Clicking the same checkboxes twice restores them. */
  lemma ClickTwice(t: Toggles3D, p: Panel3D)
    ensures ApplyPanel(ApplyPanel(t, p), p) == t
  {
    var once := ApplyPanel(t, p);
    var twice := ApplyPanel(once, p);
    assert twice.key == t.key && twice.sky == t.sky && twice.fill == t.fill && twice.rim == t.rim;
  }

  /**
   * One turn of the main loop: the cursor position the poll delivers, if
   * the cursor moved; the image the swapchain hands out; whether the queue
   * accepts the submission; the time since start; the panel input, or
   * `None` when the context has no ImGui manager.
   */
  datatype FrameInput3D = FrameInput3D(cursor: Option<Vec2>, imageIndex: nat, submitOk: bool, time: real, panel: Option<Panel3D>)

  class SDF3D {
    const platform: Platform

    /** The registry and what `initVulkanPC` builds in it. */
    var table: Table
    var gpu: DemoGpu
    /** What each swapchain image's command buffer was last recorded with. */
    var recordings: seq<seq<Command>>
    var currentFrame: nat
    var frameCounter: nat
    var mouseX: real
    var mouseY: real
    /** `enableLight1` to `enableLight4`. */
    var toggles: Toggles3D
    /** The contents of the mapped uniform buffer, once written. */
    var uploaded: Option<Uniforms3D>

    /** What the object has asked of the GPU and the window system, in order. */
    ghost var trace: seq<Event>
    /** Whether the window has the cursor callback, which each poll of events runs on a cursor move. */
    var cursorCallbackInstalled: bool

    /** Frames in flight. */
    function Slots(): nat
    {
      FrameNum(platform)
    }

    /**
     * The state once `initVulkanPC` has run, kept by every frame: every
     * object a frame reads is live, there is a recording per swapchain
     * image, and the current slot is the frame count modulo the slot count.
     */
    ghost predicate Valid()
      reads `table, `gpu, `recordings, `currentFrame, `frameCounter
    {
      && DemoLive(table, gpu, Slots())
      && |recordings| == |gpu.swapchain.images|
      && currentFrame == frameCounter % Slots()
    }

    /**
     * The declared initial state: nothing created, every handle null, frame
     * slot and frame count 0, cursor at (0, 0), all four lights enabled.
     */
    constructor(p: Platform)
      ensures platform == p && table == EmptyTable && gpu == NoDemoGpu && recordings == []
      ensures currentFrame == 0 && frameCounter == 0 && currentFrame == frameCounter % Slots()
      ensures mouseX == 0.0 && mouseY == 0.0
      ensures toggles == DefaultToggles3D && toggles.key && toggles.sky && toggles.fill && toggles.rim
      ensures uploaded == None && trace == [] && !cursorCallbackInstalled
    {
      platform := p;
      table := EmptyTable;
      gpu := NoDemoGpu;
      recordings := [];
      currentFrame, frameCounter := 0, 0;
      mouseX, mouseY := 0.0, 0.0;
      toggles := DefaultToggles3D;
      uploaded := None;
      trace := [];
      cursorCallbackInstalled := false;
    }

    /** `setupMouseCallback`: the cursor callback exists on desktop builds only. */
    method SetupMouseCallback()
      modifies `cursorCallbackInstalled
      ensures cursorCallbackInstalled <==> platform != Ohos
    {
      cursorCallbackInstalled := platform != Ohos;
    }

    /** The cursor callback: it stores the cursor position and nothing else. */
    method OnCursorPos(x: real, y: real)
      requires cursorCallbackInstalled
      modifies `mouseX, `mouseY
      ensures mouseX == x && mouseY == y
    {
      mouseX, mouseY := x, y;
    }

    /**
     * `initVulkanPC` from the swapchain on: every object is built (see
     * `BuildDemo`) and nothing is recorded. It does not set up the cursor
     * callback.
     */
    method InitVulkanPC(imageCount: nat, width: nat, height: nat)
      requires table.Valid() && currentFrame == frameCounter % Slots()
      requires gpu.commandPool == NullHandle || table.Holds(gpu.commandPool, CommandPool)
      modifies `table, `gpu, `recordings
      ensures Valid() && old(table).KeptIn(table)
      ensures |gpu.swapchain.images| == imageCount && gpu.swapchain.width == width && gpu.swapchain.height == height
      ensures forall i | 0 <= i < |recordings| :: recordings[i] == []
      ensures cursorCallbackInstalled == old(cursorCallbackInstalled)
    {
      var t', g := BuildDemo(table, imageCount, width, height, gpu.commandPool, Slots());
      table, gpu, recordings := t', g, seq(imageCount, _ => []);
    }

    /** `updateUniformBuffer`: the block packed from the time, the extent, the frame count and the toggles, uploaded. */
    method UpdateUniformBuffer(time: real)
      modifies `uploaded, `trace
      ensures uploaded == Some(PackUniforms(time, gpu.swapchain.width, gpu.swapchain.height, frameCounter, toggles))
      ensures trace == old(trace) + [UploadUniforms]
    {
      uploaded := Some(PackUniforms(time, gpu.swapchain.width, gpu.swapchain.height, frameCounter, toggles));
      trace := trace + [UploadUniforms];
    }

    /**
     * `recordCommandBuffer(imageIndex)`: the single pass (see
     * `DemoCommands`), cleared to dark blue. When the context has an ImGui
     * manager (`ui` is not `None`) the four checkboxes run inside the pass;
     * without one the switches are left alone and no panel is recorded.
     */
    method RecordCommandBuffer(imageIndex: nat, ui: Option<Panel3D>)
      requires imageIndex < |gpu.framebuffers| && imageIndex < |gpu.descriptorSets|
      requires imageIndex < |recordings| && imageIndex < |gpu.commandBuffers|
      modifies `recordings, `toggles, `trace
      ensures recordings == old(recordings)[imageIndex := DemoCommands(gpu, imageIndex, ClearDark, ui.Some?)]
      ensures toggles == if ui.Some? then ApplyPanel(old(toggles), ui.value) else old(toggles)
      ensures trace == old(trace) + [Event.RecordCommandBuffer(gpu.commandBuffers[imageIndex])]
    {
      var g := gpu;
      var w, h := g.swapchain.width, g.swapchain.height;
      var cmds := [BeginCommandBuffer];
      cmds := cmds + [BeginRenderPass(g.renderPass, g.framebuffers[imageIndex], [ClearDark], w, h)];
      cmds := cmds + [BindPipeline(g.pipeline), SetViewport(w, h), SetScissor(w, h)];
      cmds := cmds + [BindDescriptorSet(g.pipelineLayout, g.descriptorSets[imageIndex]), BindVertexBuffer(g.vertexBuffer), Draw(4)];
      if ui.Some? {
        toggles := ApplyPanel(toggles, ui.value);
        cmds := cmds + [RecordUi];
      }
      cmds := cmds + [EndRenderPass, EndCommandBuffer];
      assert cmds == DemoCommands(g, imageIndex, ClearDark, ui.Some?);
      recordings := recordings[imageIndex := cmds];
      trace := trace + [Event.RecordCommandBuffer(g.commandBuffers[imageIndex])];
    }

    /** The middle of `drawFrame`: the uniform upload, then the reset and re-recording of the acquired image's command buffer. */
    method RecordFrame(imageIndex: nat, time: real, ui: Option<Panel3D>)
      requires imageIndex < |gpu.framebuffers| && imageIndex < |gpu.descriptorSets|
      requires imageIndex < |recordings| && imageIndex < |gpu.commandBuffers|
      modifies `recordings, `toggles, `uploaded, `trace
      ensures trace == old(trace) + RecordEvents(gpu.commandBuffers[imageIndex])
      ensures uploaded == Some(PackUniforms(time, gpu.swapchain.width, gpu.swapchain.height, frameCounter, old(toggles)))
      ensures recordings == old(recordings)[imageIndex := DemoCommands(gpu, imageIndex, ClearDark, ui.Some?)]
      ensures toggles == if ui.Some? then ApplyPanel(old(toggles), ui.value) else old(toggles)
    {
      var cb := gpu.commandBuffers[imageIndex];
      UpdateUniformBuffer(time);
      trace := trace + [ResetCommandBuffer(cb)];
      RecordCommandBuffer(imageIndex, ui);
      RecordEventsInSteps(old(trace), cb);
    }

    /**
     * The end of `drawFrame`: submit the command buffer of `imageIndex`. A
     * rejected submission throws before presenting, before the slot advances
     * and before the frame is counted; otherwise the image is presented, the
     * slot advances and the frame count grows by one.
     */
    method SubmitFrame(imageIndex: nat, submitOk: bool) returns (outcome: Outcome)
      requires currentFrame == frameCounter % Slots() && currentFrame < |gpu.sync| && imageIndex < |gpu.commandBuffers|
      modifies `trace, `currentFrame, `frameCounter
      ensures currentFrame == frameCounter % Slots()
      ensures trace == old(trace) + SubmitEvents(gpu.sync[old(currentFrame)], imageIndex, gpu.commandBuffers[imageIndex], submitOk)
      ensures submitOk ==>
        outcome == Completed && currentFrame == NextSlot(old(currentFrame), Slots()) && frameCounter == old(frameCounter) + 1
      ensures !submitOk ==> outcome == Threw(SubmitFailed) && currentFrame == old(currentFrame) && frameCounter == old(frameCounter)
    {
      var s := gpu.sync[currentFrame];
      trace := trace + [Submit(gpu.commandBuffers[imageIndex], s.imageAvailable, s.renderFinished, s.fence)];
      if !submitOk {
        return Threw(SubmitFailed);
      }
      trace := trace + [Present(imageIndex, s.renderFinished)];
      AdvanceTracksCount(frameCounter, Slots());
      currentFrame := (currentFrame + 1) % Slots();
      frameCounter := frameCounter + 1;
      return Completed;
    }

    /**
     * `drawFrame` with the acquired image `imageIndex` and the submission's
     * outcome `submitOk`: wait on the slot's fence, acquire, reset the fence,
     * upload the uniforms, reset and re-record the command buffer of
     * `imageIndex`, and submit it (see `SubmitFrame`). The recording reads
     * only live objects.
     */
    method DrawFrame(imageIndex: nat, submitOk: bool, time: real, ui: Option<Panel3D>) returns (outcome: Outcome)
      requires Valid() && imageIndex < |gpu.swapchain.images|
      modifies `recordings, `toggles, `uploaded, `trace, `currentFrame, `frameCounter
      ensures Valid()
      ensures trace == old(trace) + FrameEvents(gpu.sync[old(currentFrame)], imageIndex, gpu.commandBuffers[imageIndex], false, submitOk)
      ensures uploaded == Some(PackUniforms(time, gpu.swapchain.width, gpu.swapchain.height, old(frameCounter), old(toggles)))
      ensures recordings == old(recordings)[imageIndex := DemoCommands(gpu, imageIndex, ClearDark, ui.Some?)]
      ensures toggles == if ui.Some? then ApplyPanel(old(toggles), ui.value) else old(toggles)
      ensures Refs(recordings[imageIndex]) <= table.objects.Keys
      ensures submitOk ==>
        outcome == Completed && currentFrame == NextSlot(old(currentFrame), Slots()) && frameCounter == old(frameCounter) + 1
      ensures !submitOk ==> outcome == Threw(SubmitFailed) && currentFrame == old(currentFrame) && frameCounter == old(frameCounter)
    {
      DemoSizing(table, gpu, Slots());
      var s := gpu.sync[currentFrame];
      var cb := gpu.commandBuffers[imageIndex];
      trace := trace + BeginEvents(s, imageIndex, false);
      RecordFrame(imageIndex, time, ui);
      outcome := SubmitFrame(imageIndex, submitOk);
      DemoRecordingLive(table, gpu, Slots(), imageIndex, ClearDark, ui.Some?);
      RenderEventsInSteps(old(trace) + BeginEvents(s, imageIndex, false), s, imageIndex, cb, submitOk);
      FrameEventsInSteps(old(trace), s, imageIndex, cb, false, submitOk);
    }

    /**
     * `mainLoop` over `frames`, the turns before the window closes: each
     * turn polls events, which runs the cursor callback if it is installed,
     * and draws the frame. A frame that throws ends the loop; otherwise the
     * device is idled at the end. After the loop the frame count has grown
     * by the frames completed and the slot is still the count modulo the
     * slot count.
     */
    method MainLoop(frames: seq<FrameInput3D>) returns (outcome: Outcome, completed: nat)
      requires Valid()
      requires forall k | 0 <= k < |frames| :: frames[k].imageIndex < |gpu.swapchain.images|
      modifies `recordings, `toggles, `uploaded, `trace, `currentFrame, `frameCounter, `mouseX, `mouseY
      ensures Valid()
      ensures completed <= |frames| && frameCounter == old(frameCounter) + completed
      ensures currentFrame == (old(frameCounter) + completed) % Slots()
      ensures outcome == Completed ==> completed == |frames| && |trace| > 0 && trace[|trace| - 1] == DeviceWaitIdle
      ensures outcome != Completed ==> outcome == Threw(SubmitFailed) && completed < |frames| && !frames[completed].submitOk
    {
      completed := 0;
      while completed < |frames|
        invariant Valid() && completed <= |frames|
        invariant frameCounter == old(frameCounter) + completed
        decreases |frames| - completed
      {
        var f := frames[completed];
        if f.cursor.Some? && cursorCallbackInstalled {
          OnCursorPos(f.cursor.value.x, f.cursor.value.y);
        }
        outcome := DrawFrame(f.imageIndex, f.submitOk, f.time, f.panel);
        if outcome != Completed {
          return;
        }
        completed := completed + 1;
      }
      trace := trace + [DeviceWaitIdle];
      outcome := Completed;
    }
  }
}
