/**
 * What SDF2D and SDF3D have in common: the objects their `initVulkanPC`
 * builds, in the same order, and the single render pass their
 * `recordCommandBuffer` records into the command buffer of a swapchain image.
 */
module SinglePass {
  import opened Wrappers
  import opened Handles
  import opened Commands
  import opened FrameLoop
  import opened FrameResources

  /**
   * The objects of a single-pass demo: the swapchain, the render pass and
   * its framebuffers, the vertex buffer, the uniform buffer and its memory,
   * the descriptor layout and one descriptor set per swapchain image, the
   * pipeline and its layout, the command pool and buffers, the frame slots.
   */
  datatype DemoGpu = DemoGpu(
    swapchain: Swapchain,
    renderPass: RenderPass,
    framebuffers: seq<Framebuffer>,
    vertexBuffer: Handle,
    uniformBuffer: Handle,
    uniformAllocation: Handle,
    descriptorSetLayout: Handle,
    descriptorSets: seq<DescriptorSet>,
    pipeline: Handle,
    pipelineLayout: Handle,
    commandPool: Handle,
    commandBuffers: seq<Handle>,
    sync: seq<SlotSync>)

  /** Nothing built yet: every handle is VK_NULL_HANDLE and every list is empty. */
  const NoDemoGpu: DemoGpu := DemoGpu(NoSwapchain, NoRenderPass, [], NullHandle, NullHandle, NullHandle, NullHandle, [],
    NullHandle, NullHandle, NullHandle, [], [])

  /** What every descriptor set holds: the uniform buffer at binding 0, and nothing else. */
  function UniformBindings(uniformBuffer: Handle): seq<Binding>
  {
    [UniformBufferBinding(uniformBuffer)]
  }

  /** The names of the vertex buffer, the uniform buffer and its memory, and the descriptor layout, in creation order. */
  const DemoBufferRoles: seq<Role> := [VertexBuffer, UniformBuffer, UniformAllocation, DescriptorLayout]

  const DemoPipelineRoles: seq<Role> := [MainPipeline, MainPipelineLayout]

  function DemoBufferHandles(g: DemoGpu): seq<Handle>
  {
    [g.vertexBuffer, g.uniformBuffer, g.uniformAllocation, g.descriptorSetLayout]
  }

  /**
   * Every object `initVulkanPC` builds is live, with one framebuffer,
   * descriptor set and command buffer per swapchain image, every set binding
   * the uniform buffer, and one fence and semaphore pair per frame slot.
   */
  predicate DemoLive(t: Table, g: DemoGpu, slots: nat)
  {
    && SwapchainLive(t, g.swapchain) && MainPassLive(t, g.renderPass) && FramebuffersLive(t, g.swapchain, g.framebuffers)
    && t.HoldsEach(DemoBufferHandles(g), DemoBufferRoles)
    && DescriptorSetsLive(t, g.descriptorSets, |g.swapchain.images|, UniformBindings(g.uniformBuffer))
    && t.HoldsEach([g.pipeline, g.pipelineLayout], DemoPipelineRoles)
    && CommandBuffersLive(t, g.commandPool, g.commandBuffers, |g.swapchain.images|)
    && SyncLive(t, g.sync, slots)
  }

  /**
   * The per-image lists are as long as the swapchain, and every descriptor
   * set is a live object binding exactly the uniform buffer, at binding 0.
   */
  lemma DemoSizing(t: Table, g: DemoGpu, slots: nat)
    requires DemoLive(t, g, slots)
    ensures |g.framebuffers| == |g.swapchain.images| && |g.commandBuffers| == |g.swapchain.images|
    ensures |g.descriptorSets| == |g.swapchain.images| && |g.sync| == slots
    ensures forall i | 0 <= i < |g.descriptorSets| ::
      && g.descriptorSets[i].bindings == [UniformBufferBinding(g.uniformBuffer)]
      && g.descriptorSets[i].id in t.objects
  {
    forall i | 0 <= i < |g.descriptorSets|
      ensures g.descriptorSets[i].bindings == [UniformBufferBinding(g.uniformBuffer)] && g.descriptorSets[i].id in t.objects
    {
      assert t.Holds(g.descriptorSets[i].id, DescriptorSetFor(i));
    }
  }

  /** The first part of `initVulkanPC`: the swapchain, `createRenderPass` and `createFramebuffers`. */
  method BuildDemoTargets(t: Table, imageCount: nat, width: nat, height: nat)
    returns (t': Table, sc: Swapchain, pass: RenderPass, fbs: seq<Framebuffer>)
    requires t.Valid()
    ensures t'.Valid() && t.KeptIn(t')
    ensures |sc.images| == imageCount && sc.width == width && sc.height == height
    ensures SwapchainLive(t', sc) && MainPassLive(t', pass) && FramebuffersLive(t', sc, fbs)
  {
    var t1, t2;
    t1, sc := CreateSwapchain(t, imageCount, width, height);
    t2, pass := CreateRenderPass(t1);
    t', fbs := BuildFramebuffers(t2, sc.images, sc.views, sc.width, sc.height);
    KeptInTransitive(t1, t2, t');
    SwapchainStaysLive(t1, t', sc);
    HoldsEachStays(t2, t', [pass.id], [MainRenderPass]);
  }

  /**
   * The second part: `createVertexBuffer`, `createUniformBuffer`,
   * `createDescriptorSetLayout` and `createDescriptorSets`, one set per
   * swapchain image, each binding the uniform buffer.
   */
  method BuildDemoBindings(t: Table, imageCount: nat) returns (t': Table, bufs: seq<Handle>, sets: seq<DescriptorSet>)
    requires t.Valid()
    ensures t'.Valid() && t.KeptIn(t')
    ensures t'.HoldsEach(bufs, DemoBufferRoles)
    ensures DescriptorSetsLive(t', sets, imageCount, UniformBindings(bufs[1]))
  {
    var built := t.CreateAll(DemoBufferRoles);
    bufs := built.1;
    t', sets := BuildDescriptorSets(built.0, imageCount, UniformBindings(bufs[1]));
    HoldsEachStays(built.0, t', bufs, DemoBufferRoles);
  }

  /** The third part: `createPipeline`, `createCommandBuffers` and the frame slots. */
  method BuildDemoPipelines(t: Table, pool: Handle, imageCount: nat, slots: nat)
    returns (t': Table, p: Handle, pl: Handle, pool': Handle, cbs: seq<Handle>, sync: seq<SlotSync>)
    requires t.Valid() && (pool == NullHandle || t.Holds(pool, CommandPool))
    ensures t'.Valid() && t.KeptIn(t')
    ensures pool != NullHandle ==> pool' == pool
    ensures t'.HoldsEach([p, pl], DemoPipelineRoles)
    ensures CommandBuffersLive(t', pool', cbs, imageCount) && SyncLive(t', sync, slots)
  {
    var built := t.CreateAll(DemoPipelineRoles);
    p, pl := built.1[0], built.1[1];
    assert [p, pl] == built.1;
    var t2;
    t2, pool', cbs := CreateCommandBuffers(built.0, pool, imageCount);
    t', sync := CreateFrameSynchronization(t2, slots);
    KeptInTransitive(built.0, t2, t');
    HoldsEachStays(built.0, t', [p, pl], DemoPipelineRoles);
    CommandBuffersStayLive(t2, t', pool', cbs, imageCount);
  }

  /**
   * The objects of `initVulkanPC`, in its order. Nothing live before is
   * lost, an existing command pool is reused, and afterwards every object a
   * frame reads is live.
   */
  method BuildDemo(t: Table, imageCount: nat, width: nat, height: nat, pool: Handle, slots: nat)
    returns (t': Table, g: DemoGpu)
    requires t.Valid() && (pool == NullHandle || t.Holds(pool, CommandPool))
    ensures t'.Valid() && t.KeptIn(t')
    ensures |g.swapchain.images| == imageCount && g.swapchain.width == width && g.swapchain.height == height
    ensures pool != NullHandle ==> g.commandPool == pool
    ensures DemoLive(t', g, slots)
  {
    var t1, sc, pass, fbs := BuildDemoTargets(t, imageCount, width, height);
    var t2, bufs, sets := BuildDemoBindings(t1, |sc.images|);
    var p, pl, pool', cbs, sync;
    t', p, pl, pool', cbs, sync := BuildDemoPipelines(t2, pool, |sc.images|, slots);
    g := DemoGpu(sc, pass, fbs, bufs[0], bufs[1], bufs[2], bufs[3], sets, p, pl, pool', cbs, sync);
    assert DemoBufferHandles(g) == bufs;
    DemoPartsLive(t1, t2, t', g, slots);
    KeptInTransitive(t, t1, t2);
    KeptInTransitive(t, t2, t');
  }

  /** The three parts' objects, each live where it was built, are all live at the end. */
  lemma DemoPartsLive(t1: Table, t2: Table, t': Table, g: DemoGpu, slots: nat)
    requires t1.KeptIn(t2) && t2.KeptIn(t')
    requires SwapchainLive(t1, g.swapchain) && MainPassLive(t1, g.renderPass) && FramebuffersLive(t1, g.swapchain, g.framebuffers)
    requires t2.HoldsEach(DemoBufferHandles(g), DemoBufferRoles)
    requires DescriptorSetsLive(t2, g.descriptorSets, |g.swapchain.images|, UniformBindings(g.uniformBuffer))
    requires t'.HoldsEach([g.pipeline, g.pipelineLayout], DemoPipelineRoles)
    requires CommandBuffersLive(t', g.commandPool, g.commandBuffers, |g.swapchain.images|) && SyncLive(t', g.sync, slots)
    ensures DemoLive(t', g, slots)
  {
    KeptInTransitive(t1, t2, t');
    SwapchainStaysLive(t1, t', g.swapchain);
    HoldsEachStays(t1, t', [g.renderPass.id], [MainRenderPass]);
    FramebuffersStayLive(t1, t', g.swapchain, g.framebuffers);
    HoldsEachStays(t2, t', DemoBufferHandles(g), DemoBufferRoles);
    DescriptorSetsKept(t2, t', g.descriptorSets, |g.swapchain.images|, UniformBindings(g.uniformBuffer));
  }

  /**
   * `recordCommandBuffer(i)`: begin the buffer; begin the render pass on
   * framebuffer `i` over the whole extent, cleared to `clear`; bind the
   * pipeline, set viewport and scissor, bind descriptor set `i` and the
   * vertex buffer; draw the 4-vertex strip; when the context has an ImGui
   * manager, record the control panel inside the pass; end the pass and the
   * buffer.
   */
  function DemoCommands(g: DemoGpu, i: nat, clear: Color, hasUi: bool): seq<Command>
    requires i < |g.framebuffers| && i < |g.descriptorSets|
  {
    [BeginCommandBuffer,
     BeginRenderPass(g.renderPass, g.framebuffers[i], [clear], g.swapchain.width, g.swapchain.height),
     BindPipeline(g.pipeline),
     SetViewport(g.swapchain.width, g.swapchain.height),
     SetScissor(g.swapchain.width, g.swapchain.height),
     BindDescriptorSet(g.pipelineLayout, g.descriptorSets[i]),
     BindVertexBuffer(g.vertexBuffer),
     Draw(4)]
    + UiRecording(hasUi) + [EndRenderPass, EndCommandBuffer]
  }

  /** The first two commands begin the buffer and open the render pass on framebuffer `i`. */
  lemma DemoPassOpens(st: GpuState, g: DemoGpu, i: nat, clear: Color, hasUi: bool)
    requires i < |g.framebuffers| && i < |g.descriptorSets|
    ensures Replay(st, DemoCommands(g, i, clear, hasUi)[..2]) == st.(open := Some(OpenPass(g.renderPass, g.framebuffers[i])))
  {
    var cmds := DemoCommands(g, i, clear, hasUi);
    var two := cmds[..2];
    assert two[0] == BeginCommandBuffer && two[1..] == [cmds[1]];
    assert Replay(st, two) == Replay(st, [cmds[1]]);
    assert Replay(st, [cmds[1]]) == Replay(Step(st, cmds[1]), []);
  }

  /** From the pipeline bind to the control panel, the pass opened by the second command stays open. */
  lemma DemoPassStaysOpen(st: GpuState, g: DemoGpu, i: nat, clear: Color, hasUi: bool)
    requires i < |g.framebuffers| && i < |g.descriptorSets|
    ensures var cmds := DemoCommands(g, i, clear, hasUi);
      forall k | 2 <= k <= |cmds| - 2 :: Replay(st, cmds[..k]).open == Some(OpenPass(g.renderPass, g.framebuffers[i]))
  {
    var cmds := DemoCommands(g, i, clear, hasUi);
    var inPass := st.(open := Some(OpenPass(g.renderPass, g.framebuffers[i])));
    DemoPassOpens(st, g, i, clear, hasUi);
    var inside := cmds[2..|cmds| - 2];
    assert forall j | 0 <= j < |inside| :: !inside[j].BeginRenderPass? && !inside[j].EndRenderPass? && !inside[j].TransitionLayout?;
    forall k | 2 <= k <= |cmds| - 2
      ensures Replay(st, cmds[..k]).open == inPass.open
    {
      assert cmds[..k] == cmds[..2] + inside[..k - 2];
      ReplayAppend(st, cmds[..2], inside[..k - 2]);
      ReplayInsidePass(inPass, inside[..k - 2]);
    }
  }

  /** The control panel is recorded exactly when there is an ImGui manager, and only while the pass is open. */
  lemma DemoPanelInPass(st: GpuState, g: DemoGpu, i: nat, clear: Color, hasUi: bool)
    requires i < |g.framebuffers| && i < |g.descriptorSets|
    ensures var cmds := DemoCommands(g, i, clear, hasUi);
      && (RecordUi in cmds <==> hasUi)
      && (forall k | 0 <= k < |cmds| && cmds[k] == RecordUi :: Replay(st, cmds[..k]).open == Some(OpenPass(g.renderPass, g.framebuffers[i])))
  {
    var cmds := DemoCommands(g, i, clear, hasUi);
    assert forall k | 0 <= k < |cmds| && cmds[k] == RecordUi :: k == 8;
    DemoPassStaysOpen(st, g, i, clear, hasUi);
  }

  /** Ending the pass applies its final layouts to the framebuffer's images and closes it. */
  lemma DemoPassEnds(st: GpuState, g: DemoGpu, i: nat, clear: Color, hasUi: bool)
    requires i < |g.framebuffers| && i < |g.descriptorSets|
    ensures var cmds := DemoCommands(g, i, clear, hasUi);
      Replay(st, cmds) == GpuState(ApplyFinalLayouts(st.layouts, g.framebuffers[i].images, g.renderPass.finalLayouts), None)
  {
    var cmds := DemoCommands(g, i, clear, hasUi);
    var inPass := st.(open := Some(OpenPass(g.renderPass, g.framebuffers[i])));
    DemoPassOpens(st, g, i, clear, hasUi);
    var inside := cmds[2..|cmds| - 2];
    assert forall j | 0 <= j < |inside| :: !inside[j].BeginRenderPass? && !inside[j].EndRenderPass? && !inside[j].TransitionLayout?;
    assert cmds == cmds[..2] + (inside + [EndRenderPass, EndCommandBuffer]);
    ReplayAppend(st, cmds[..2], inside + [EndRenderPass, EndCommandBuffer]);
    ReplayAppend(inPass, inside, [EndRenderPass, EndCommandBuffer]);
    ReplayInsidePass(inPass, inside);
  }

  /** Only the second command begins a render pass. */
  lemma DemoBeginsOnce(g: DemoGpu, i: nat, clear: Color, hasUi: bool)
    requires i < |g.framebuffers| && i < |g.descriptorSets|
    ensures CountBegins(DemoCommands(g, i, clear, hasUi), g.renderPass.id) == 1
  {
    var cmds := DemoCommands(g, i, clear, hasUi);
    assert cmds == [cmds[0], cmds[1]] + cmds[2..];
    CountBeginsAppend([cmds[0], cmds[1]], cmds[2..], g.renderPass.id);
    NoBegins(cmds[2..], g.renderPass.id);
  }

  /**
   * The recording runs the one render pass on image `i`'s framebuffer: it
   * begins that pass exactly once; every command from the pipeline bind to
   * the control panel, among them the only draw (of 4 vertices), runs while
   * that pass is open; the control panel is recorded exactly when there is
   * an ImGui manager, and then inside the pass; the pass is ended, so
   * nothing stays open, and image `i` is left in PRESENT_SRC for
   * presentation.
   */
  lemma DemoRecordingShape(t: Table, g: DemoGpu, slots: nat, i: nat, clear: Color, hasUi: bool, st: GpuState)
    requires DemoLive(t, g, slots) && i < |g.swapchain.images| && st.open == None
    ensures var cmds := DemoCommands(g, i, clear, hasUi);
      var inPass := Some(OpenPass(g.renderPass, g.framebuffers[i]));
      && cmds[1] == BeginRenderPass(g.renderPass, g.framebuffers[i], [clear], g.swapchain.width, g.swapchain.height)
      && CountBegins(cmds, g.renderPass.id) == 1
      && cmds[7] == Draw(4) && (forall k | 0 <= k < |cmds| && cmds[k].Draw? :: k == 7)
      && (RecordUi in cmds <==> hasUi)
      && (forall k | 0 <= k < |cmds| && cmds[k] == RecordUi :: Replay(st, cmds[..k]).open == inPass)
      && (forall k | 2 <= k <= |cmds| - 2 :: Replay(st, cmds[..k]).open == inPass)
      && Replay(st, cmds).open == None
      && g.swapchain.images[i] in Replay(st, cmds).layouts && Replay(st, cmds).layouts[g.swapchain.images[i]] == PresentSrc
  {
    var fb := g.framebuffers[i];
    assert t.Holds(fb.id, SwapchainFramebuffer(i));
    DemoSizing(t, g, slots);
    DemoPanelInPass(st, g, i, clear, hasUi);
    DemoPassStaysOpen(st, g, i, clear, hasUi);
    DemoPassEnds(st, g, i, clear, hasUi);
    UniformFinalLayouts(st.layouts, fb.images, g.renderPass.finalLayouts, PresentSrc);
    DemoBeginsOnce(g, i, clear, hasUi);
  }

  /** Every object the recording for swapchain image `i` reads is live: the submitted work names no destroyed object. */
  lemma DemoRecordingLive(t: Table, g: DemoGpu, slots: nat, i: nat, clear: Color, hasUi: bool)
    requires DemoLive(t, g, slots) && i < |g.swapchain.images|
    ensures Refs(DemoCommands(g, i, clear, hasUi)) <= t.objects.Keys
  {
    var cmds := DemoCommands(g, i, clear, hasUi);
    var live := t.objects.Keys;
    MainPassLiveMeans(t, g.renderPass);
    SwapchainFramebuffersNoDangling(t, g.swapchain, g.framebuffers);
    var bs := DemoBufferHandles(g);
    assert t.Holds(bs[0], DemoBufferRoles[0]) && t.Holds(bs[1], DemoBufferRoles[1]);
    assert t.Holds([g.pipeline, g.pipelineLayout][0], DemoPipelineRoles[0]);
    assert t.Holds([g.pipeline, g.pipelineLayout][1], DemoPipelineRoles[1]);
    DemoSizing(t, g, slots);
    var set_ := g.descriptorSets[i];
    assert BindingsRefs(set_.bindings) == {g.uniformBuffer} by {
      assert BindingsRefs(set_.bindings) == BindingRefs(set_.bindings[0]) + BindingsRefs(set_.bindings[1..]);
    }
    assert FramebufferRefs(g.framebuffers[i]) <= live;
    RefsWithin(cmds, live);
  }
}
