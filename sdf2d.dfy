/**
 * The SDF2D application object: the GPU objects it owns, the frame slot it
 * is on, the cursor and the ball it moves, the light controls of its panel,
 * and the frame-time statistics of its main loop.
 *
 * GPU objects are handles in a registry, and what the host asks of the GPU
 * is a ghost trace of events.
 */
module Sdf2d {
  import opened Wrappers
  import opened Handles
  import opened Commands
  import opened FrameLoop
  import opened FrameResources
  import opened SinglePass
  import opened Vectors
  import opened Sdf2dHeader
  import opened Sdf2dRules

  /** The clear colour of the render pass. */
  const ClearWhite: Color := Color(1.0, 1.0, 1.0, 1.0)

  /**
   * One turn of the main loop: the cursor position the poll delivers, if
   * the cursor moved; the image the swapchain hands out; whether the queue
   * accepts the submission; the time since start; the panel input, or
   * `None` when the context has no ImGui manager; and the wall-clock time
   * the turn takes, in milliseconds.
   */
  datatype FrameInput2D = FrameInput2D(cursor: Option<Vec2>, imageIndex: nat, submitOk: bool, time: real, panel: Option<Panel2D>,
    duration: real)

  /** The frame times of a run of turns, in order. */
  function Durations(frames: seq<FrameInput2D>): (ds: seq<real>)
    ensures |ds| == |frames| && forall k | 0 <= k < |frames| :: ds[k] == frames[k].duration
  {
    seq(|frames|, k requires 0 <= k < |frames| => frames[k].duration)
  }

  lemma DurationsStep(frames: seq<FrameInput2D>, n: nat)
    requires n < |frames|
    ensures Durations(frames[..n + 1]) == Durations(frames[..n]) + [frames[n].duration]
  {
    assert frames[..n + 1] == frames[..n] + [frames[n]];
  }

  class SDF2D {
    const platform: Platform

    /** The registry and what `initVulkanPC` builds in it. */
    var table: Table
    var gpu: DemoGpu
    /** What each swapchain image's command buffer was last recorded with. */
    var recordings: seq<seq<Command>>
    var currentFrame: nat
    var mouseX: real
    var mouseY: real
    var mouseSensitivity: real
    var ballX: real
    var ballY: real
    /** `lightEnabled`, `lightRadii` and light 1's position. */
    var lights: Lights2D
    /** The contents of the mapped uniform buffer, once written. */
    var uploaded: Option<Uniforms2D>

    /** What the object has asked of the GPU and the window system, in order. */
    ghost var trace: seq<Event>
    /** Whether the window has the cursor callback, which each poll of events runs on a cursor move. */
    var cursorCallbackInstalled: bool

    /** Frames in flight. */
    function Slots(): nat
    {
      FrameNum(platform)
    }

    /**
     * The state once `initVulkanPC` has run, kept by every frame: every
     * object a frame reads is live, there is a recording per swapchain
     * image, the current slot is a slot, and the light arrays have one entry
     * per light.
     */
    ghost predicate Valid()
      reads `table, `gpu, `recordings, `currentFrame, `lights
    {
      && DemoLive(table, gpu, Slots())
      && |recordings| == |gpu.swapchain.images|
      && currentFrame < Slots()
      && LightsSized(lights)
    }

    /** The ball lies within the swapchain extent. */
    ghost predicate BallInside()
      reads `ballX, `ballY, `gpu
    {
      0.0 <= ballX <= gpu.swapchain.width as real && 0.0 <= ballY <= gpu.swapchain.height as real
    }

    /**
     * The declared initial state: nothing created, every handle null, frame
     * slot 0, cursor and ball at (0, 0), sensitivity 1, lights 1 and 2 on
     * with radii 60, 80 and 12, and light 1 at (400, 300).
     */
    constructor(p: Platform)
      ensures platform == p && table == EmptyTable && gpu == NoDemoGpu && recordings == []
      ensures currentFrame == 0 && mouseX == 0.0 && mouseY == 0.0 && ballX == 0.0 && ballY == 0.0
      ensures mouseSensitivity == 1.0 && lights == DefaultLights && LightsSized(lights)
      ensures lights.enabled == [true, true, false] && lights.radii == [60.0, 80.0, 12.0]
      ensures uploaded == None && trace == [] && !cursorCallbackInstalled
    {
      platform := p;
      table := EmptyTable;
      gpu := NoDemoGpu;
      recordings := [];
      currentFrame := 0;
      mouseX, mouseY := 0.0, 0.0;
      mouseSensitivity := DefaultSensitivity;
      ballX, ballY := 0.0, 0.0;
      lights := DefaultLights;
      uploaded := None;
      trace := [];
      cursorCallbackInstalled := false;
    }

    /**
     * `setupMouseCallback`: on desktop builds, place the ball at the centre
     * of the swapchain extent and install the cursor callback; on OpenHarmony
     * builds, nothing.
     */
    method SetupMouseCallback()
      modifies `ballX, `ballY, `cursorCallbackInstalled
      ensures cursorCallbackInstalled <==> platform != Ohos
      ensures platform != Ohos ==>
        ballX == gpu.swapchain.width as real * 0.5 && ballY == gpu.swapchain.height as real * 0.5 && BallInside()
      ensures platform == Ohos ==> ballX == old(ballX) && ballY == old(ballY)
    {
      if platform != Ohos {
        ballX := gpu.swapchain.width as real * 0.5;
        ballY := gpu.swapchain.height as real * 0.5;
        cursorCallbackInstalled := true;
      } else {
        cursorCallbackInstalled := false;
      }
    }

    /**
     * The cursor callback: store the cursor, then move the ball to the
     * cursor times the sensitivity, clamped into the extent.
     */
    method OnCursorPos(x: real, y: real)
      requires cursorCallbackInstalled
      modifies `mouseX, `mouseY, `ballX, `ballY
      ensures mouseX == x && mouseY == y
      ensures Vec2(ballX, ballY) == BallFromCursor(Vec2(x, y), mouseSensitivity, gpu.swapchain.width, gpu.swapchain.height)
      ensures BallInside()
    {
      mouseX, mouseY := x, y;
      var w := gpu.swapchain.width as real;
      var h := gpu.swapchain.height as real;
      ballX, ballY := mouseX * mouseSensitivity, mouseY * mouseSensitivity;
      ballX := ClampToExtent(ballX, w);
      ballY := ClampToExtent(ballY, h);
    }

    /**
     * `initVulkanPC` from the swapchain on: every object is built (see
     * `BuildDemo`), nothing is recorded, and the cursor callback is set up.
     * The callback touches no GPU object, so it is set up once they are all
     * built rather than just before the frame slots.
     */
    method InitVulkanPC(imageCount: nat, width: nat, height: nat)
      requires table.Valid() && LightsSized(lights) && currentFrame < Slots()
      requires gpu.commandPool == NullHandle || table.Holds(gpu.commandPool, CommandPool)
      modifies `table, `gpu, `recordings, `ballX, `ballY, `cursorCallbackInstalled
      ensures Valid() && old(table).KeptIn(table)
      ensures |gpu.swapchain.images| == imageCount && gpu.swapchain.width == width && gpu.swapchain.height == height
      ensures forall i | 0 <= i < |recordings| :: recordings[i] == []
      ensures cursorCallbackInstalled <==> platform != Ohos
      ensures platform != Ohos ==> ballX == width as real * 0.5 && ballY == height as real * 0.5 && BallInside()
    {
      var t', g := BuildDemo(table, imageCount, width, height, gpu.commandPool, Slots());
      table, gpu, recordings := t', g, seq(imageCount, _ => []);
      SetupMouseCallback();
    }

    /**
     * `updateUniformBuffer`: the block packed from the time, the extent, the
     * ball and the lights (see `PackUniforms`), uploaded.
     */
    method UpdateUniformBuffer(time: real)
      requires LightsSized(lights)
      modifies `uploaded, `trace
      ensures uploaded == Some(PackUniforms(time, gpu.swapchain.width, gpu.swapchain.height, Vec2(ballX, ballY), lights))
      ensures trace == old(trace) + [UploadUniforms]
    {
      uploaded := Some(PackUniforms(time, gpu.swapchain.width, gpu.swapchain.height, Vec2(ballX, ballY), lights));
      trace := trace + [UploadUniforms];
    }

    /**
     * `recordCommandBuffer(imageIndex)`: the single pass (see
     * `DemoCommands`), cleared to white. When the context has an ImGui
     * manager (`ui` is not `None`) the control panel runs inside the pass and
     * edits the lights and the mouse sensitivity; without one they are left
     * alone and no panel is recorded.
     */
    method RecordCommandBuffer(imageIndex: nat, ui: Option<Panel2D>)
      requires imageIndex < |gpu.framebuffers| && imageIndex < |gpu.descriptorSets|
      requires imageIndex < |recordings| && imageIndex < |gpu.commandBuffers|
      modifies `recordings, `lights, `mouseSensitivity, `trace
      ensures recordings == old(recordings)[imageIndex := DemoCommands(gpu, imageIndex, ClearWhite, ui.Some?)]
      ensures ui.Some? ==> (lights, mouseSensitivity) == ApplyPanel(old(lights), old(mouseSensitivity), ui.value)
      ensures ui.None? ==> lights == old(lights) && mouseSensitivity == old(mouseSensitivity)
      ensures trace == old(trace) + [Event.RecordCommandBuffer(gpu.commandBuffers[imageIndex])]
    {
      var g := gpu;
      var w, h := g.swapchain.width, g.swapchain.height;
      var cmds := [BeginCommandBuffer];
      cmds := cmds + [BeginRenderPass(g.renderPass, g.framebuffers[imageIndex], [ClearWhite], w, h)];
      cmds := cmds + [BindPipeline(g.pipeline), SetViewport(w, h), SetScissor(w, h)];
      cmds := cmds + [BindDescriptorSet(g.pipelineLayout, g.descriptorSets[imageIndex]), BindVertexBuffer(g.vertexBuffer), Draw(4)];
      if ui.Some? {
        var edited := ApplyPanel(lights, mouseSensitivity, ui.value);
        lights, mouseSensitivity := edited.0, edited.1;
        cmds := cmds + [RecordUi];
      }
      cmds := cmds + [EndRenderPass, EndCommandBuffer];
      assert cmds == DemoCommands(g, imageIndex, ClearWhite, ui.Some?);
      recordings := recordings[imageIndex := cmds];
      trace := trace + [Event.RecordCommandBuffer(g.commandBuffers[imageIndex])];
    }

    /** The middle of `drawFrame`: the uniform upload, then the reset and re-recording of the acquired image's command buffer. */
    method RecordFrame(imageIndex: nat, time: real, ui: Option<Panel2D>)
      requires imageIndex < |gpu.framebuffers| && imageIndex < |gpu.descriptorSets|
      requires imageIndex < |recordings| && imageIndex < |gpu.commandBuffers| && LightsSized(lights)
      modifies `recordings, `lights, `mouseSensitivity, `uploaded, `trace
      ensures trace == old(trace) + RecordEvents(gpu.commandBuffers[imageIndex])
      ensures uploaded == Some(PackUniforms(time, gpu.swapchain.width, gpu.swapchain.height, Vec2(ballX, ballY), old(lights)))
      ensures recordings == old(recordings)[imageIndex := DemoCommands(gpu, imageIndex, ClearWhite, ui.Some?)]
      ensures ui.Some? ==> (lights, mouseSensitivity) == ApplyPanel(old(lights), old(mouseSensitivity), ui.value)
      ensures ui.None? ==> lights == old(lights) && mouseSensitivity == old(mouseSensitivity)
    {
      var cb := gpu.commandBuffers[imageIndex];
      UpdateUniformBuffer(time);
      trace := trace + [ResetCommandBuffer(cb)];
      RecordCommandBuffer(imageIndex, ui);
      RecordEventsInSteps(old(trace), cb);
    }

    /**
     * The end of `drawFrame`: submit the command buffer of `imageIndex`. A
     * rejected submission throws before presenting and before the slot
     * advances; otherwise the image is presented and the slot advances.
     */
    method SubmitFrame(imageIndex: nat, submitOk: bool) returns (outcome: Outcome)
      requires currentFrame < |gpu.sync| && imageIndex < |gpu.commandBuffers|
      modifies `trace, `currentFrame
      ensures trace == old(trace) + SubmitEvents(gpu.sync[old(currentFrame)], imageIndex, gpu.commandBuffers[imageIndex], submitOk)
      ensures submitOk ==> outcome == Completed && currentFrame == NextSlot(old(currentFrame), Slots())
      ensures !submitOk ==> outcome == Threw(SubmitFailed) && currentFrame == old(currentFrame)
    {
      var s := gpu.sync[currentFrame];
      trace := trace + [Submit(gpu.commandBuffers[imageIndex], s.imageAvailable, s.renderFinished, s.fence)];
      if !submitOk {
        return Threw(SubmitFailed);
      }
      trace := trace + [Present(imageIndex, s.renderFinished)];
      currentFrame := (currentFrame + 1) % Slots();
      return Completed;
    }

    /**
     * `drawFrame` with the acquired image `imageIndex` and the submission's
     * outcome `submitOk`: wait on the slot's fence, acquire, reset the fence,
     * upload the uniforms, reset and re-record the command buffer of
     * `imageIndex`, and submit it (see `SubmitFrame`). The recording reads
     * only live objects.
     */
    method DrawFrame(imageIndex: nat, submitOk: bool, time: real, ui: Option<Panel2D>) returns (outcome: Outcome)
      requires Valid() && imageIndex < |gpu.swapchain.images|
      modifies `recordings, `lights, `mouseSensitivity, `uploaded, `trace, `currentFrame
      ensures Valid()
      ensures trace == old(trace) + FrameEvents(gpu.sync[old(currentFrame)], imageIndex, gpu.commandBuffers[imageIndex], false, submitOk)
      ensures uploaded == Some(PackUniforms(time, gpu.swapchain.width, gpu.swapchain.height, Vec2(ballX, ballY), old(lights)))
      ensures recordings == old(recordings)[imageIndex := DemoCommands(gpu, imageIndex, ClearWhite, ui.Some?)]
      ensures ui.Some? ==> (lights, mouseSensitivity) == ApplyPanel(old(lights), old(mouseSensitivity), ui.value)
      ensures ui.None? ==> lights == old(lights) && mouseSensitivity == old(mouseSensitivity)
      ensures Refs(recordings[imageIndex]) <= table.objects.Keys
      ensures submitOk ==> outcome == Completed && currentFrame == NextSlot(old(currentFrame), Slots())
      ensures !submitOk ==> outcome == Threw(SubmitFailed) && currentFrame == old(currentFrame)
    {
      DemoSizing(table, gpu, Slots());
      var s := gpu.sync[currentFrame];
      var cb := gpu.commandBuffers[imageIndex];
      trace := trace + BeginEvents(s, imageIndex, false);
      RecordFrame(imageIndex, time, ui);
      outcome := SubmitFrame(imageIndex, submitOk);
      DemoRecordingLive(table, gpu, Slots(), imageIndex, ClearWhite, ui.Some?);
      RenderEventsInSteps(old(trace) + BeginEvents(s, imageIndex, false), s, imageIndex, cb, submitOk);
      FrameEventsInSteps(old(trace), s, imageIndex, cb, false, submitOk);
    }

    /**
     * One turn of the loop: the poll runs the cursor callback if the cursor
     * moved and the callback is installed, then the frame is drawn.
     */
    method Turn(f: FrameInput2D) returns (outcome: Outcome)
      requires Valid() && f.imageIndex < |gpu.swapchain.images|
      modifies `recordings, `lights, `mouseSensitivity, `uploaded, `trace, `currentFrame, `mouseX, `mouseY, `ballX, `ballY
      ensures Valid()
      ensures f.submitOk ==> outcome == Completed && currentFrame == NextSlot(old(currentFrame), Slots())
      ensures !f.submitOk ==> outcome == Threw(SubmitFailed) && currentFrame == old(currentFrame)
      ensures old(BallInside()) || (f.cursor.Some? && cursorCallbackInstalled) ==> BallInside()
    {
      if f.cursor.Some? && cursorCallbackInstalled {
        OnCursorPos(f.cursor.value.x, f.cursor.value.y);
      }
      outcome := DrawFrame(f.imageIndex, f.submitOk, f.time, f.panel);
    }

    /**
     * `mainLoop` over `frames`, the turns before the window closes: each
     * turn delivers the cursor to the callback, draws the frame and times
     * it. Only frames after the first two add to the total, and statistics
     * are printed whenever the count is a multiple of the interval and
     * beyond the first two (see `Reports`). A frame that throws ends the
     * loop without being counted; otherwise the device is idled at the end.
     */
    method MainLoop(frames: seq<FrameInput2D>)
      returns (outcome: Outcome, frameCount: nat, totalTime: real, frameTimes: seq<real>, reports: seq<Report>)
      requires Valid()
      requires forall k | 0 <= k < |frames| :: frames[k].imageIndex < |gpu.swapchain.images|
      modifies `recordings, `lights, `mouseSensitivity, `uploaded, `trace, `currentFrame, `mouseX, `mouseY, `ballX, `ballY
      ensures Valid()
      ensures frameCount <= |frames| && frameTimes == Durations(frames[..frameCount])
      ensures totalTime == TotalTime(frameTimes) && reports == Reports(frameTimes)
      ensures currentFrame == (old(currentFrame) + frameCount) % Slots()
      ensures outcome == Completed ==> frameCount == |frames| && |trace| > 0 && trace[|trace| - 1] == DeviceWaitIdle
      ensures outcome != Completed ==> outcome == Threw(SubmitFailed) && frameCount < |frames| && !frames[frameCount].submitOk
      ensures old(BallInside()) ==> BallInside()
    {
      frameCount, totalTime, frameTimes, reports := 0, 0.0, [], [];
      var start := currentFrame;
      ghost var ballWasInside := BallInside();
      FrameLoop.SmallMod(start, Slots());
      while frameCount < |frames|
        invariant Valid() && frameCount <= |frames|
        invariant frameTimes == Durations(frames[..frameCount])
        invariant totalTime == TotalTime(frameTimes) && reports == Reports(frameTimes)
        invariant currentFrame == (start + frameCount) % Slots()
        invariant ballWasInside ==> BallInside()
        decreases |frames| - frameCount
      {
        var f := frames[frameCount];
        outcome := Turn(f);
        if outcome != Completed {
          return;
        }
        AdvanceTracksCount(start + frameCount, Slots());
        DurationsStep(frames, frameCount);
        frameCount, totalTime, frameTimes, reports := CountFrame(frameCount, totalTime, frameTimes, reports, f.duration);
      }
      trace := trace + [DeviceWaitIdle];
      outcome := Completed;
    }
  }

  /**
   * The bookkeeping of one turn of `mainLoop`: count the frame, store its
   * time, add the time to the total from the third frame on, and print the
   * statistics when they are due. It keeps the total and the prints equal to
   * what `TotalTime` and `Reports` say of the stored times.
   */
  method CountFrame(frameCount: nat, totalTime: real, frameTimes: seq<real>, reports: seq<Report>, d: real)
    returns (frameCount': nat, totalTime': real, frameTimes': seq<real>, reports': seq<Report>)
    requires |frameTimes| == frameCount && totalTime == TotalTime(frameTimes) && reports == Reports(frameTimes)
    ensures frameCount' == frameCount + 1 && frameTimes' == frameTimes + [d]
    ensures totalTime' == TotalTime(frameTimes') && reports' == Reports(frameTimes')
  {
    TotalTimeStep(frameTimes, d);
    frameCount' := frameCount + 1;
    frameTimes' := frameTimes + [d];
    totalTime' := totalTime;
    if frameCount' > 2 {
      totalTime' := totalTime' + d;
    }
    assert frameTimes'[..|frameTimes'| - 1] == frameTimes && frameTimes'[..frameCount'] == frameTimes';
    reports' := reports;
    if frameCount' % FramePauseInterval == 0 && frameCount' > 2 {
      reports' := reports' + [Report(frameCount', frameTimes'[|frameTimes'| - 1], totalTime', frameCount' - 2)];
    }
  }
}
