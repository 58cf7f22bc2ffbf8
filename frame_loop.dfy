/**
 * The frame loop shared by the three demos: a fixed number of frame slots,
 * each with its own fence and semaphore pair, used round robin, and the
 * order in which one frame talks to the GPU.
 */
module FrameLoop {
  import opened Handles

  /** The build target; it fixes how many frames may be in flight. */
  datatype Platform = Desktop | Ohos

  /** Frames in flight: four on OpenHarmony, three elsewhere. */
  function FrameNum(p: Platform): nat
  {
    if p == Ohos then 4 else 3
  }

  /** The slot used by the frame after one that used `slot`. */
  function NextSlot(slot: nat, n: nat): (r: nat)
    requires n > 0
    ensures r < n
    ensures slot + 1 < n ==> r == slot + 1
    ensures slot + 1 == n ==> r == 0
  {
    (slot + 1) % n
  }

  /** The slot reached from `start` after `frames` completed frames. */
  function SlotAfter(start: nat, frames: nat, n: nat): nat
    requires n > 0
    decreases frames
  {
    if frames == 0 then start else NextSlot(SlotAfter(start, frames - 1, n), n)
  }

  lemma ModAddMultiple(k: nat, n: nat, y: nat)
    requires n > 0
    ensures (k * n + y) % n == y % n
  {
    var x := k * n + y;
    var d := x / n - k - y / n;
    assert x == n * (x / n) + x % n;
    assert y == n * (y / n) + y % n;
    assert n * d == y % n - x % n;
    assert d >= 1 ==> n * d >= n;
    assert d <= -1 ==> n * d <= -(n as int);
  }

  /** Advancing the slot of a count advances to the slot of the next count. */
  lemma AdvanceTracksCount(count: nat, n: nat)
    requires n > 0
    ensures NextSlot(count % n, n) == (count + 1) % n
  {
    ModAddMultiple(count / n, n, count % n + 1);
    assert count + 1 == (count / n) * n + (count % n + 1);
  }

  lemma SmallMod(x: nat, n: nat)
    requires x < n
    ensures x % n == x
  {
  }

  /** One more frame advances the slot reached so far by one, modulo `n`. */
  lemma SlotAfterStep(start: nat, frames: nat, n: nat)
    requires start < n && frames > 0
    requires SlotAfter(start, frames - 1, n) == (start + frames - 1) % n
    ensures SlotAfter(start, frames, n) == (start + frames) % n
  {
    AdvanceTracksCount(start + frames - 1, n);
  }

  /** Slots cycle: after `frames` frames from slot `start` the slot is `(start + frames) mod n`. */
  lemma {:induction false} SlotsCycle(start: nat, frames: nat, n: nat)
    requires start < n
    ensures SlotAfter(start, frames, n) == (start + frames) % n
    decreases frames
  {
    if frames == 0 {
      SmallMod(start, n);
    } else {
      SlotsCycle(start, frames - 1, n);
      SlotAfterStep(start, frames, n);
    }
  }

  /** The message `drawFrame` throws when the queue rejects the submission. */
  const SubmitFailed: string := "failed to submit command buffer!"

  /** What one frame asks of the GPU and the window system, in order. */
  datatype Event =
    | WaitForFence(fence: Handle)
    | DeviceWaitIdle
    | AcquireImage(semaphore: Handle, image: nat)
    | ResetFence(fence: Handle)
    | UploadUniforms
    | ResetCommandBuffer(commandBuffer: Handle)
    | RecordCommandBuffer(commandBuffer: Handle)
    | Submit(commandBuffer: Handle, wait: Handle, signal: Handle, fence: Handle)
    | Present(image: nat, wait: Handle)

  /** The synchronisation objects of one frame slot. */
  datatype SlotSync = SlotSync(fence: Handle, imageAvailable: Handle, renderFinished: Handle)

  /**
   * The start of a frame: wait for the slot's fence; if a resize of the
   * offscreen targets is pending, wait for the whole device; acquire a
   * swapchain image; reset the fence.
   */
  function BeginEvents(s: SlotSync, image: nat, resized: bool): seq<Event>
  {
    [WaitForFence(s.fence)] + (if resized then [DeviceWaitIdle] else []) + [AcquireImage(s.imageAvailable, image), ResetFence(s.fence)]
  }

  /** The end of a frame: submit the command buffer; present only if the submission was accepted. */
  function SubmitEvents(s: SlotSync, image: nat, cmd: Handle, submitted: bool): seq<Event>
  {
    [Submit(cmd, s.imageAvailable, s.renderFinished, s.fence)] + (if submitted then [Present(image, s.renderFinished)] else [])
  }

  /**
   * One frame: its start; upload the uniforms; reset and re-record the
   * command buffer of the acquired image; its end.
   */
  function FrameEvents(s: SlotSync, image: nat, cmd: Handle, resized: bool, submitted: bool): seq<Event>
  {
    BeginEvents(s, image, resized) + [UploadUniforms, ResetCommandBuffer(cmd), RecordCommandBuffer(cmd)]
    + SubmitEvents(s, image, cmd, submitted)
  }

  /** What a frame uploads and records between its start and its submission. */
  function RecordEvents(cmd: Handle): seq<Event>
  {
    [UploadUniforms, ResetCommandBuffer(cmd), RecordCommandBuffer(cmd)]
  }

  /** What a frame records and submits after its start. */
  function RenderEvents(s: SlotSync, image: nat, cmd: Handle, submitted: bool): seq<Event>
  {
    RecordEvents(cmd) + SubmitEvents(s, image, cmd, submitted)
  }

  /** The upload and recording events, appended one at a time, make up `RecordEvents`. */
  lemma RecordEventsInSteps(before: seq<Event>, cmd: Handle)
    ensures before + [UploadUniforms] + [ResetCommandBuffer(cmd)] + [RecordCommandBuffer(cmd)] == before + RecordEvents(cmd)
  {
  }

  /** The recording events followed by the submission make up `RenderEvents`. */
  lemma RenderEventsInSteps(before: seq<Event>, s: SlotSync, image: nat, cmd: Handle, submitted: bool)
    ensures before + RecordEvents(cmd) + SubmitEvents(s, image, cmd, submitted) == before + RenderEvents(s, image, cmd, submitted)
  {
  }

  /** A frame's start followed by the rest makes up `FrameEvents`. */
  lemma FrameEventsInSteps(before: seq<Event>, s: SlotSync, image: nat, cmd: Handle, resized: bool, submitted: bool)
    ensures before + BeginEvents(s, image, resized) + RenderEvents(s, image, cmd, submitted)
      == before + FrameEvents(s, image, cmd, resized, submitted)
  {
    var b := BeginEvents(s, image, resized);
    assert b + RenderEvents(s, image, cmd, submitted) == b + RecordEvents(cmd) + SubmitEvents(s, image, cmd, submitted);
  }

  ghost predicate Precedes(evs: seq<Event>, a: Event, b: Event)
  {
    exists i, j | 0 <= i < j < |evs| :: evs[i] == a && evs[j] == b
  }

  /** Where each event of a frame sits. */
  lemma FrameEventsAt(s: SlotSync, image: nat, cmd: Handle, resized: bool, submitted: bool)
    ensures var evs := FrameEvents(s, image, cmd, resized, submitted);
      var k := if resized then 1 else 0;
      && |evs| == k + (if submitted then 8 else 7)
      && evs[0] == WaitForFence(s.fence) && (resized ==> evs[1] == DeviceWaitIdle)
      && evs[k + 1] == AcquireImage(s.imageAvailable, image) && evs[k + 2] == ResetFence(s.fence)
      && evs[k + 3] == UploadUniforms && evs[k + 4] == ResetCommandBuffer(cmd) && evs[k + 5] == RecordCommandBuffer(cmd)
      && evs[k + 6] == Submit(cmd, s.imageAvailable, s.renderFinished, s.fence)
      && (submitted ==> evs[k + 7] == Present(image, s.renderFinished))
  {
  }

  /**
   * The order of a frame: the fence wait comes first, a pending resize waits
   * for the device before the image is acquired, the fence is reset only
   * after the slot's previous work is known complete, uniforms are uploaded
   * before the command buffer is re-recorded, and presentation happens
   * after the submission, waiting on the semaphore the submission signals.
   */
  lemma FrameOrder(s: SlotSync, image: nat, cmd: Handle, resized: bool, submitted: bool)
    ensures var evs := FrameEvents(s, image, cmd, resized, submitted);
      && evs[0] == WaitForFence(s.fence)
      && (resized ==> evs[1] == DeviceWaitIdle && Precedes(evs, DeviceWaitIdle, AcquireImage(s.imageAvailable, image)))
      && Precedes(evs, WaitForFence(s.fence), ResetFence(s.fence))
      && Precedes(evs, AcquireImage(s.imageAvailable, image), ResetFence(s.fence))
      && Precedes(evs, UploadUniforms, RecordCommandBuffer(cmd))
      && Precedes(evs, ResetCommandBuffer(cmd), RecordCommandBuffer(cmd))
      && Precedes(evs, RecordCommandBuffer(cmd), Submit(cmd, s.imageAvailable, s.renderFinished, s.fence))
      && (submitted ==> Precedes(evs, Submit(cmd, s.imageAvailable, s.renderFinished, s.fence), Present(image, s.renderFinished)))
  {
    FrameEventsAt(s, image, cmd, resized, submitted);
  }

  /** The device-wide wait happens exactly when a resize is pending, and presentation exactly when the submission was accepted. */
  lemma FrameConditionalEvents(s: SlotSync, image: nat, cmd: Handle, resized: bool, submitted: bool)
    ensures var evs := FrameEvents(s, image, cmd, resized, submitted);
      && (DeviceWaitIdle in evs <==> resized)
      && (Present(image, s.renderFinished) in evs <==> submitted)
  {
    FrameEventsAt(s, image, cmd, resized, submitted);
  }
}
