/**
 * The GPU objects SDFCornell owns, what it means for them to be live in the
 * resource registry, and the steps that build them: the start-up sequence of
 * `initVulkanPC` and the rebuild of the reflective shadow map (RSM) when its
 * resolution changes. Every step takes a registry and returns the registry
 * afterwards together with the objects the application stores.
 */
module CornellObjects {
  import opened Wrappers
  import opened Handles
  import opened Commands
  import opened CornellFrame
  import opened FrameLoop
  import opened FrameResources
  import opened CornellHeader

  const NoAttachment: Attachment := Attachment(NullHandle, NullHandle, NullHandle)
  const NoRsm: RsmTargets := RsmTargets(NoAttachment, NoAttachment, NoAttachment, NoRenderPass, NoFramebuffer, NullHandle)
  const NoTexture: Texture := Texture(NullHandle, NullHandle, NullHandle, NullHandle)

  /**
   * The objects `initVulkanPC` builds once and the frames only read: the
   * swapchain, the main render pass and its framebuffers, the buffers, the
   * flower texture, the descriptor layout, the two pipelines with their
   * layouts, the command pool and buffers, and the frame slots' fences and
   * semaphores.
   */
  datatype Gpu = Gpu(
    swapchain: Swapchain,
    renderPass: RenderPass,
    framebuffers: seq<Framebuffer>,
    vertexBuffer: Handle,
    uniformBuffer: Handle,
    uniformAllocation: Handle,
    flower: Texture,
    descriptorSetLayout: Handle,
    pipeline: Handle,
    pipelineLayout: Handle,
    rsmPipeline: Handle,
    rsmPipelineLayout: Handle,
    commandPool: Handle,
    commandBuffers: seq<Handle>,
    sync: seq<SlotSync>)

  /** Nothing built yet: every handle is VK_NULL_HANDLE and every list is empty. */
  const NoGpu: Gpu := Gpu(NoSwapchain, NoRenderPass, [], NullHandle, NullHandle, NullHandle, NoTexture, NullHandle,
    NullHandle, NullHandle, NullHandle, NullHandle, NullHandle, [], [])

  /** The shadow map's objects: each target's image, view and memory, then the render pass, the framebuffer and the sampler. */
  function RsmHandles(r: RsmTargets): (hs: seq<Handle>)
    ensures |hs| == 12
  {
    [r.position.image, r.position.view, r.position.allocation,
     r.normal.image, r.normal.view, r.normal.allocation,
     r.flux.image, r.flux.view, r.flux.allocation,
     r.renderPass.id, r.framebuffer.id, r.sampler]
  }

  /** The names the three targets' images, views and memory are registered under, in creation order. */
  const AttachmentRoles: seq<Role> := [
    RsmAttachment(Position), RsmAttachment(Position), RsmAttachment(Position),
    RsmAttachment(Normal), RsmAttachment(Normal), RsmAttachment(Normal),
    RsmAttachment(Flux), RsmAttachment(Flux), RsmAttachment(Flux)]

  /** The names of the shadow map's objects, in the order of `RsmHandles`. */
  const RsmRoles: seq<Role> := AttachmentRoles + [RsmRenderPass, RsmFramebuffer, RsmSampler]

  /** Every object of the shadow map is live under its own name. */
  predicate RsmLive(t: Table, r: RsmTargets)
  {
    t.HoldsEach(RsmHandles(r), RsmRoles)
  }

  predicate AttachmentLive(t: Table, a: Attachment, target: RsmTarget)
  {
    t.Holds(a.image, RsmAttachment(target)) && t.Holds(a.view, RsmAttachment(target)) && t.Holds(a.allocation, RsmAttachment(target))
  }

  /** What `RsmLive` says object by object. */
  predicate RsmObjectsLive(t: Table, r: RsmTargets)
  {
    && AttachmentLive(t, r.position, Position) && AttachmentLive(t, r.normal, Normal) && AttachmentLive(t, r.flux, Flux)
    && t.Holds(r.renderPass.id, RsmRenderPass) && t.Holds(r.framebuffer.id, RsmFramebuffer) && t.Holds(r.sampler, RsmSampler)
  }

  /** `RsmLive` holds exactly when each of the shadow map's twelve objects is live under its own name. */
  lemma RsmLiveMeans(t: Table, r: RsmTargets)
    ensures RsmLive(t, r) <==> RsmObjectsLive(t, r)
  {
    if RsmLive(t, r) {
      RsmLiveElim(t, r);
    } else if RsmObjectsLive(t, r) {
      RsmLiveIntro(t, r);
    }
  }

  lemma RsmLiveElim(t: Table, r: RsmTargets)
    requires RsmLive(t, r)
    ensures RsmObjectsLive(t, r)
  {
    var hs := RsmHandles(r);
    assert t.Holds(hs[0], RsmRoles[0]) && t.Holds(hs[1], RsmRoles[1]) && t.Holds(hs[2], RsmRoles[2]);
    assert t.Holds(hs[3], RsmRoles[3]) && t.Holds(hs[4], RsmRoles[4]) && t.Holds(hs[5], RsmRoles[5]);
    assert t.Holds(hs[6], RsmRoles[6]) && t.Holds(hs[7], RsmRoles[7]) && t.Holds(hs[8], RsmRoles[8]);
    assert t.Holds(hs[9], RsmRoles[9]) && t.Holds(hs[10], RsmRoles[10]) && t.Holds(hs[11], RsmRoles[11]);
  }

  lemma RsmLiveIntro(t: Table, r: RsmTargets)
    requires RsmObjectsLive(t, r)
    ensures RsmLive(t, r)
  {
  }

  /** The vertex buffer, the uniform buffer and its memory, the flower texture's image, view, memory and sampler, the descriptor layout. */
  function BufferHandles(vertexBuffer: Handle, uniformBuffer: Handle, uniformAllocation: Handle, flower: Texture, layout: Handle): seq<Handle>
  {
    [vertexBuffer, uniformBuffer, uniformAllocation, flower.image, flower.view, flower.allocation, flower.sampler, layout]
  }

  /** The names of the buffers, texture and layout, in creation order. */
  const BufferRoles: seq<Role> :=
    [VertexBuffer, UniformBuffer, UniformAllocation, FlowerTexture, FlowerTexture, FlowerTexture, FlowerSampler, DescriptorLayout]

  /** The vertex buffer, the uniform buffer and its memory, the flower texture and the descriptor layout are live. */
  predicate BuffersLive(t: Table, vertexBuffer: Handle, uniformBuffer: Handle, uniformAllocation: Handle, flower: Texture, layout: Handle)
  {
    t.HoldsEach(BufferHandles(vertexBuffer, uniformBuffer, uniformAllocation, flower, layout), BufferRoles)
  }

  /** What `BuffersLive` says object by object. */
  predicate BufferObjectsLive(t: Table, vertexBuffer: Handle, uniformBuffer: Handle, uniformAllocation: Handle, flower: Texture, layout: Handle)
  {
    && t.Holds(vertexBuffer, VertexBuffer) && t.Holds(uniformBuffer, UniformBuffer) && t.Holds(uniformAllocation, UniformAllocation)
    && t.Holds(flower.image, FlowerTexture) && t.Holds(flower.view, FlowerTexture) && t.Holds(flower.allocation, FlowerTexture)
    && t.Holds(flower.sampler, FlowerSampler) && t.Holds(layout, DescriptorLayout)
  }

  lemma BuffersLiveMeans(t: Table, vertexBuffer: Handle, uniformBuffer: Handle, uniformAllocation: Handle, flower: Texture, layout: Handle)
    requires BuffersLive(t, vertexBuffer, uniformBuffer, uniformAllocation, flower, layout)
    ensures BufferObjectsLive(t, vertexBuffer, uniformBuffer, uniformAllocation, flower, layout)
  {
    var hs := BufferHandles(vertexBuffer, uniformBuffer, uniformAllocation, flower, layout);
    assert t.Holds(hs[0], BufferRoles[0]) && t.Holds(hs[1], BufferRoles[1]) && t.Holds(hs[2], BufferRoles[2]);
    assert t.Holds(hs[3], BufferRoles[3]) && t.Holds(hs[4], BufferRoles[4]) && t.Holds(hs[5], BufferRoles[5]);
    assert t.Holds(hs[6], BufferRoles[6]) && t.Holds(hs[7], BufferRoles[7]);
  }

  const PipelineRoles: seq<Role> := [MainPipeline, MainPipelineLayout, RsmPipeline, RsmPipelineLayout]

  /** The main and the offscreen pipeline and their layouts are live. */
  predicate PipelinesLive(t: Table, pipeline: Handle, layout: Handle, rsmPipeline: Handle, rsmLayout: Handle)
  {
    t.HoldsEach([pipeline, layout, rsmPipeline, rsmLayout], PipelineRoles)
  }

  /** Every object `initVulkanPC` builds once is live, with one framebuffer and command buffer per swapchain image and one slot per frame in flight. */
  predicate GpuLive(t: Table, g: Gpu, slots: nat)
  {
    && SwapchainLive(t, g.swapchain) && MainPassLive(t, g.renderPass) && FramebuffersLive(t, g.swapchain, g.framebuffers)
    && BuffersLive(t, g.vertexBuffer, g.uniformBuffer, g.uniformAllocation, g.flower, g.descriptorSetLayout)
    && PipelinesLive(t, g.pipeline, g.pipelineLayout, g.rsmPipeline, g.rsmPipelineLayout)
    && CommandBuffersLive(t, g.commandPool, g.commandBuffers, |g.swapchain.images|)
    && SyncLive(t, g.sync, slots)
  }

  /**
   * The whole set of live objects a frame may read: the start-up objects, the
   * shadow map built as `createRSMPassResources` builds it at the given size,
   * and one descriptor set per swapchain image binding the uniform buffer,
   * the shadow-map views and the flower texture.
   */
  predicate LiveState(t: Table, g: Gpu, r: RsmTargets, rsmWidth: nat, rsmHeight: nat, sets: seq<DescriptorSet>, slots: nat)
  {
    && GpuLive(t, g, slots) && RsmLive(t, r) && RsmConsistent(r, rsmWidth, rsmHeight)
    && DescriptorSetsLive(t, sets, |g.swapchain.images|, DescriptorBindings(g.uniformBuffer, r, g.flower))
  }

  /**
   * What the application owns on the GPU: the registry, the start-up
   * objects, the shadow map with its current size, and one descriptor set
   * per swapchain image.
   */
  datatype Resources = Resources(
    table: Table,
    gpu: Gpu,
    rsm: RsmTargets,
    rsmWidth: nat,
    rsmHeight: nat,
    descriptorSets: seq<DescriptorSet>)
  {
    /** The registry is well formed and every object a frame reads is live in it. */
    ghost predicate Live(slots: nat)
    {
      table.Valid() && LiveState(table, gpu, rsm, rsmWidth, rsmHeight, descriptorSets, slots)
    }

    /** What `recordCommandBuffer(i)` reads from the application. */
    function Targets(i: nat): FrameTargets
      requires i < |gpu.framebuffers| && i < |descriptorSets|
    {
      TargetsOf(gpu, descriptorSets, rsm, rsmWidth, rsmHeight, i)
    }
  }

  const NoResources: Resources := Resources(EmptyTable, NoGpu, NoRsm, InitialRsmSize, InitialRsmSize, [])

  /** Every object the work in flight in any frame slot reads is live. */
  ghost predicate InFlightLive(t: Table, inFlight: seq<set<Handle>>)
  {
    forall k | 0 <= k < |inFlight| :: inFlight[k] <= t.objects.Keys
  }

  /** With no work in flight, nothing in flight can dangle. */
  lemma IdleLive(t: Table, n: nat)
    ensures InFlightLive(t, Repeat<set<Handle>>({}, n))
  {
  }

  /** What `recordCommandBuffer(i)` reads from the application. */
  function TargetsOf(g: Gpu, sets: seq<DescriptorSet>, r: RsmTargets, rsmWidth: nat, rsmHeight: nat, i: nat): FrameTargets
    requires i < |g.framebuffers| && i < |sets|
  {
    FrameTargets(g.renderPass, g.framebuffers[i], g.swapchain.width, g.swapchain.height, g.pipeline, g.pipelineLayout,
      sets[i], g.vertexBuffer, r, rsmWidth, rsmHeight, g.rsmPipeline, g.rsmPipelineLayout)
  }

  /**
   * No descriptor set and no framebuffer names a destroyed object: every
   * handle a descriptor set binds, every view and image a swapchain
   * framebuffer attaches, and every target the shadow-map framebuffer
   * attaches is live.
   */
  lemma NoDangling(t: Table, g: Gpu, r: RsmTargets, rsmWidth: nat, rsmHeight: nat, sets: seq<DescriptorSet>, slots: nat)
    requires LiveState(t, g, r, rsmWidth, rsmHeight, sets, slots)
    ensures forall i | 0 <= i < |sets| :: SetRefs(sets[i]) <= t.objects.Keys
    ensures forall i | 0 <= i < |g.framebuffers| :: FramebufferRefs(g.framebuffers[i]) <= t.objects.Keys
    ensures FramebufferRefs(r.framebuffer) <= t.objects.Keys
  {
    SetsNoDangling(t, g.uniformBuffer, r, g.flower, sets, |g.swapchain.images|, g.vertexBuffer, g.uniformAllocation, g.descriptorSetLayout);
    SwapchainFramebuffersNoDangling(t, g.swapchain, g.framebuffers);
    RsmFramebufferNoDangling(t, r, rsmWidth, rsmHeight);
  }

  lemma SetsNoDangling(t: Table, ub: Handle, r: RsmTargets, flower: Texture, sets: seq<DescriptorSet>, n: nat,
    vb: Handle, ua: Handle, dsl: Handle)
    requires RsmLive(t, r) && BuffersLive(t, vb, ub, ua, flower, dsl)
    requires DescriptorSetsLive(t, sets, n, DescriptorBindings(ub, r, flower))
    ensures forall i | 0 <= i < |sets| :: SetRefs(sets[i]) <= t.objects.Keys
  {
    BindingsLive(t, ub, r, flower, vb, ua, dsl);
    forall i | 0 <= i < |sets|
      ensures SetRefs(sets[i]) <= t.objects.Keys
    {
      assert t.Holds(sets[i].id, DescriptorSetFor(i));
    }
  }

  /** Every handle the descriptor bindings name is live. */
  lemma BindingsLive(t: Table, ub: Handle, r: RsmTargets, flower: Texture, vb: Handle, ua: Handle, dsl: Handle)
    requires RsmLive(t, r) && BuffersLive(t, vb, ub, ua, flower, dsl)
    ensures BindingsRefs(DescriptorBindings(ub, r, flower)) <= t.objects.Keys
  {
    RsmLiveElim(t, r);
    BuffersLiveMeans(t, vb, ub, ua, flower, dsl);
    DescriptorBindingsRefs(ub, r, flower);
  }

  lemma RsmFramebufferNoDangling(t: Table, r: RsmTargets, width: nat, height: nat)
    requires RsmLive(t, r) && RsmConsistent(r, width, height)
    ensures FramebufferRefs(r.framebuffer) <= t.objects.Keys
  {
    RsmLiveElim(t, r);
  }

  /** The command buffer of swapchain image `i` and the fence and semaphores of slot `k` are live. */
  lemma SlotLiveObjects(t: Table, g: Gpu, slots: nat, k: nat, i: nat)
    requires GpuLive(t, g, slots) && k < slots && i < |g.swapchain.images|
    ensures {g.commandBuffers[i], g.sync[k].fence, g.sync[k].imageAvailable, g.sync[k].renderFinished} <= t.objects.Keys
  {
    assert SlotLive(t, g.sync[k], k);
    assert t.Holds(g.commandBuffers[i], Member(CommandBuffers, i));
  }

  /** The render passes, pipelines and vertex buffer a recording binds are live. */
  lemma FixedObjectsLive(t: Table, g: Gpu, r: RsmTargets, slots: nat)
    requires GpuLive(t, g, slots) && RsmLive(t, r)
    ensures {g.renderPass.id, g.pipeline, g.pipelineLayout, g.vertexBuffer} <= t.objects.Keys
    ensures {r.renderPass.id, g.rsmPipeline, g.rsmPipelineLayout} <= t.objects.Keys
    ensures {r.position.image, r.normal.image, r.flux.image} <= t.objects.Keys
  {
    RsmLiveElim(t, r);
    MainPassLiveMeans(t, g.renderPass);
    BuffersLiveMeans(t, g.vertexBuffer, g.uniformBuffer, g.uniformAllocation, g.flower, g.descriptorSetLayout);
    var ps := [g.pipeline, g.pipelineLayout, g.rsmPipeline, g.rsmPipelineLayout];
    assert t.Holds(ps[0], PipelineRoles[0]) && t.Holds(ps[1], PipelineRoles[1]);
    assert t.Holds(ps[2], PipelineRoles[2]) && t.Holds(ps[3], PipelineRoles[3]);
  }

  /**
   * Every object a recording for a swapchain image reads is live, whichever
   * branch the offscreen pass takes: the work a frame submits never names a
   * destroyed object.
   */
  lemma RecordingLive(t: Table, g: Gpu, r: RsmTargets, rsmWidth: nat, rsmHeight: nat, sets: seq<DescriptorSet>, slots: nat,
    enableRsm: bool, hasUi: bool, i: nat)
    requires LiveState(t, g, r, rsmWidth, rsmHeight, sets, slots) && i < |g.framebuffers|
    ensures Refs(CornellCommands(enableRsm, TargetsOf(g, sets, r, rsmWidth, rsmHeight, i), hasUi)) <= t.objects.Keys
  {
    var f := TargetsOf(g, sets, r, rsmWidth, rsmHeight, i);
    NoDangling(t, g, r, rsmWidth, rsmHeight, sets, slots);
    FixedObjectsLive(t, g, r, slots);
    assert SetRefs(f.descriptorSet) <= t.objects.Keys;
    assert MainRefs(f) <= t.objects.Keys;
    assert BranchRefs(enableRsm, f) <= t.objects.Keys;
    CornellRefs(enableRsm, f, hasUi);
  }

  /**
   * The recording for a live swapchain image has the pass structure the
   * renderer relies on: when the main pass begins, no pass is open and every
   * shadow-map image is readable by shaders, whichever branch ran; the main
   * pass begins exactly once; the control panel is recorded, inside the
   * main pass, exactly when there is an ImGui manager; and the recording
   * ends with no pass open and the swapchain image ready to present.
   */
  lemma RecordingShape(t: Table, g: Gpu, r: RsmTargets, rsmWidth: nat, rsmHeight: nat, sets: seq<DescriptorSet>, slots: nat,
    enableRsm: bool, hasUi: bool, i: nat, st: GpuState)
    requires LiveState(t, g, r, rsmWidth, rsmHeight, sets, slots) && i < |g.framebuffers| && st.open == None
    ensures var f := TargetsOf(g, sets, r, rsmWidth, rsmHeight, i);
      var cmds := CornellCommands(enableRsm, f, hasUi);
      var k := MainPassStart(enableRsm);
      && k < |cmds| && cmds[k] == BeginRenderPass(g.renderPass, g.framebuffers[i], [Background], g.swapchain.width, g.swapchain.height)
      && Replay(st, cmds[..k]).open == None && RsmReadable(Replay(st, cmds[..k]).layouts, r)
      && CountBegins(cmds, g.renderPass.id) == 1
      && (RecordUi in cmds <==> hasUi)
      && (forall j | 0 <= j < |cmds| && cmds[j] == RecordUi :: Replay(st, cmds[..j]).open == Some(OpenPass(g.renderPass, g.framebuffers[i])))
      && Replay(st, cmds).open == None
      && g.swapchain.images[i] in Replay(st, cmds).layouts && Replay(st, cmds).layouts[g.swapchain.images[i]] == PresentSrc
  {
    var f := TargetsOf(g, sets, r, rsmWidth, rsmHeight, i);
    RsmReadyBeforeMainPass(st, enableRsm, f, hasUi);
    PanelInsideMainPass(st, enableRsm, f, hasUi);
    RsmLiveElim(t, r);
    MainPassLiveMeans(t, g.renderPass);
    assert t.objects[g.renderPass.id] != t.objects[r.renderPass.id];
    assert t.Holds(g.framebuffers[i].id, SwapchainFramebuffer(i));
    SingleMainPass(st, enableRsm, f, hasUi, g.swapchain.images[i]);
  }

  // ---------------------------------------------------------------------
  // Which objects survive a shadow-map rebuild

  // The objects a rebuild of the shadow map destroys are the three targets'
  // images, views and memory and the framebuffer.

  predicate AttachmentFrom(a: Attachment, n: nat)
  {
    a.image >= n && a.view >= n && a.allocation >= n
  }

  /** Every object a rebuild destroys has a handle `n` or later: it was built after `n` was handed out. */
  predicate RebuiltFrom(r: RsmTargets, n: nat)
  {
    AttachmentFrom(r.position, n) && AttachmentFrom(r.normal, n) && AttachmentFrom(r.flux, n) && r.framebuffer.id >= n
  }

  predicate AttachmentGone(t: Table, a: Attachment)
  {
    a.image !in t.objects && a.view !in t.objects && a.allocation !in t.objects
  }

  /** No object a rebuild destroys is live in `t`. */
  predicate RebuiltGone(t: Table, r: RsmTargets)
  {
    AttachmentGone(t, r.position) && AttachmentGone(t, r.normal) && AttachmentGone(t, r.flux) && r.framebuffer.id !in t.objects
  }

  /** Which names a rebuild of the shadow map clears. */
  predicate RebuildClears(r: Role)
  {
    IsRsmName(r) || r.DescriptorSetFor?
  }

  /** Everything live in `t` under a name a rebuild does not clear is still live, with its name, in `t'`. */
  ghost predicate KeptApartFrom(t: Table, t': Table)
  {
    forall h | h in t.objects && !RebuildClears(t.objects[h]) :: h in t'.objects && t'.objects[h] == t.objects[h]
  }

  lemma KeptInApart(t: Table, t': Table)
    requires t.KeptIn(t')
    ensures KeptApartFrom(t, t')
  {
  }

  lemma SwapchainKept(t: Table, t': Table, sc: Swapchain)
    requires KeptApartFrom(t, t') && SwapchainLive(t, sc)
    ensures SwapchainLive(t', sc)
  {
    assert forall i | 0 <= i < |sc.images| :: t.Holds(sc.images[i], Member(SwapchainImages, i));
    assert forall i | 0 <= i < |sc.views| :: t.Holds(sc.views[i], Member(SwapchainViews, i));
  }

  lemma FramebuffersKept(t: Table, t': Table, sc: Swapchain, fbs: seq<Framebuffer>)
    requires KeptApartFrom(t, t') && FramebuffersLive(t, sc, fbs)
    ensures FramebuffersLive(t', sc, fbs)
  {
    forall i | 0 <= i < |fbs|
      ensures IsSwapchainFramebuffer(fbs[i], sc.images[i], sc.views[i], sc.width, sc.height)
      ensures t'.Holds(fbs[i].id, SwapchainFramebuffer(i))
    {
      assert t.Holds(fbs[i].id, SwapchainFramebuffer(i));
    }
  }

  lemma SyncKept(t: Table, t': Table, sync: seq<SlotSync>, n: nat)
    requires KeptApartFrom(t, t') && SyncLive(t, sync, n)
    ensures SyncLive(t', sync, n)
  {
    forall k | 0 <= k < |sync|
      ensures SlotLive(t', sync[k], k)
    {
      assert SlotLive(t, sync[k], k);
    }
  }

  lemma CommandBuffersKept(t: Table, t': Table, pool: Handle, cbs: seq<Handle>, n: nat)
    requires KeptApartFrom(t, t') && CommandBuffersLive(t, pool, cbs, n)
    ensures CommandBuffersLive(t', pool, cbs, n)
  {
    assert forall i | 0 <= i < |cbs| :: t.Holds(cbs[i], Member(CommandBuffers, i));
    assert t.Holds([pool][0], [CommandPool][0]);
  }

  /** Objects under names a rebuild does not clear survive it. */
  lemma HoldsEachKept(t: Table, t': Table, hs: seq<Handle>, rs: seq<Role>)
    requires KeptApartFrom(t, t') && t.HoldsEach(hs, rs)
    requires forall i | 0 <= i < |rs| :: !RebuildClears(rs[i])
    ensures t'.HoldsEach(hs, rs)
  {
    assert forall i | 0 <= i < |hs| :: t.Holds(hs[i], rs[i]);
  }

  lemma BuffersKept(t: Table, t': Table, vertexBuffer: Handle, uniformBuffer: Handle, uniformAllocation: Handle, flower: Texture, layout: Handle)
    requires KeptApartFrom(t, t') && BuffersLive(t, vertexBuffer, uniformBuffer, uniformAllocation, flower, layout)
    ensures BuffersLive(t', vertexBuffer, uniformBuffer, uniformAllocation, flower, layout)
  {
    assert forall i | 0 <= i < |BufferRoles| :: !RebuildClears(BufferRoles[i]);
    HoldsEachKept(t, t', BufferHandles(vertexBuffer, uniformBuffer, uniformAllocation, flower, layout), BufferRoles);
  }

  lemma PipelinesKept(t: Table, t': Table, pipeline: Handle, layout: Handle, rsmPipeline: Handle, rsmLayout: Handle)
    requires KeptApartFrom(t, t') && PipelinesLive(t, pipeline, layout, rsmPipeline, rsmLayout)
    ensures PipelinesLive(t', pipeline, layout, rsmPipeline, rsmLayout)
  {
    assert forall i | 0 <= i < |PipelineRoles| :: !RebuildClears(PipelineRoles[i]);
    HoldsEachKept(t, t', [pipeline, layout, rsmPipeline, rsmLayout], PipelineRoles);
  }

  /** The start-up objects are not among those a shadow-map rebuild destroys. */
  lemma GpuKept(t: Table, t': Table, g: Gpu, slots: nat)
    requires KeptApartFrom(t, t') && GpuLive(t, g, slots)
    ensures GpuLive(t', g, slots)
  {
    SwapchainKept(t, t', g.swapchain);
    BuffersKept(t, t', g.vertexBuffer, g.uniformBuffer, g.uniformAllocation, g.flower, g.descriptorSetLayout);
    PipelinesKept(t, t', g.pipeline, g.pipelineLayout, g.rsmPipeline, g.rsmPipelineLayout);
    CommandBuffersKept(t, t', g.commandPool, g.commandBuffers, |g.swapchain.images|);
    FramebuffersKept(t, t', g.swapchain, g.framebuffers);
    SyncKept(t, t', g.sync, slots);
  }

  // ---------------------------------------------------------------------
  // The creation steps of `initVulkanPC`

  /** The layouts the shadow-map pass leaves its three targets in. */
  const RsmFinalLayouts: seq<ImageLayout> := [ShaderReadOnly, ShaderReadOnly, ShaderReadOnly]

  /** The shadow map whose targets are the first nine handles, three per target, and whose framebuffer attaches them. */
  function RsmFrom(hs: seq<Handle>, pass: RenderPass, framebufferId: Handle, sampler: Handle, width: nat, height: nat): (r: RsmTargets)
    requires |hs| >= 9
    ensures pass.finalLayouts == RsmFinalLayouts ==> RsmConsistent(r, width, height)
    ensures r.renderPass == pass && r.sampler == sampler && r.framebuffer.id == framebufferId
  {
    RsmTargets(
      Attachment(hs[0], hs[1], hs[2]), Attachment(hs[3], hs[4], hs[5]), Attachment(hs[6], hs[7], hs[8]),
      pass, Framebuffer(framebufferId, [hs[0], hs[3], hs[6]], [hs[1], hs[4], hs[7]], width, height), sampler)
  }

  /** Handles registered under the attachment roles make live targets, whatever else is registered. */
  lemma RsmFromLive(t: Table, hs: seq<Handle>, rs: seq<Role>, pass: RenderPass, framebufferId: Handle, sampler: Handle, width: nat, height: nat)
    requires |hs| == |rs| >= 9 && rs[..9] == AttachmentRoles
    requires forall i | 0 <= i < |hs| :: t.Holds(hs[i], rs[i])
    requires t.Holds(pass.id, RsmRenderPass) && t.Holds(framebufferId, RsmFramebuffer) && t.Holds(sampler, RsmSampler)
    ensures RsmLive(t, RsmFrom(hs, pass, framebufferId, sampler, width, height))
  {
    assert forall i | 0 <= i < 9 :: rs[i] == AttachmentRoles[i];
    RsmLiveIntro(t, RsmFrom(hs, pass, framebufferId, sampler, width, height));
  }

  /**
   * `createRSMPassResources`: the three targets at the given size, a render
   * pass that leaves all three readable by shaders, the framebuffer
   * attaching them, and the sampler, built in that order.
   */
  method CreateRSMPassResources(t: Table, width: nat, height: nat) returns (t': Table, r: RsmTargets)
    requires t.Valid()
    ensures t'.Valid() && Grows(t, t')
    ensures RsmLive(t', r) && RsmConsistent(r, width, height)
  {
    var roles := AttachmentRoles + [RsmRenderPass, RsmFramebuffer, RsmSampler];
    var built := t.CreateAll(roles);
    var hs := built.1;
    t' := built.0;
    r := RsmFrom(hs, RenderPass(hs[9], RsmFinalLayouts), hs[10], hs[11], width, height);
    RsmFromLive(t', hs, roles, r.renderPass, r.framebuffer.id, r.sampler, width, height);
  }

  /**
   * `createVertexBuffer`, `createUniformBuffer`, `createFlowerTexture` and
   * `createDescriptorSetLayout`: the fullscreen strip, the host-visible
   * uniform buffer and its memory, the texture image with its view, memory
   * and sampler, and the five-binding layout every set uses.
   */
  method CreateBuffers(t: Table) returns (t': Table, vertexBuffer: Handle, uniformBuffer: Handle, uniformAllocation: Handle, flower: Texture, layout: Handle)
    requires t.Valid()
    ensures t'.Valid() && Grows(t, t')
    ensures BuffersLive(t', vertexBuffer, uniformBuffer, uniformAllocation, flower, layout)
  {
    var built := t.CreateAll(BufferRoles);
    t' := built.0;
    vertexBuffer, uniformBuffer, uniformAllocation := built.1[0], built.1[1], built.1[2];
    flower := Texture(built.1[3], built.1[4], built.1[5], built.1[6]);
    layout := built.1[7];
    EightHandles(built.1);
  }

  lemma EightHandles(hs: seq<Handle>)
    requires |hs| == 8
    ensures [hs[0], hs[1], hs[2], hs[3], hs[4], hs[5], hs[6], hs[7]] == hs
  {
  }

  lemma FourHandles(hs: seq<Handle>)
    requires |hs| == 4
    ensures [hs[0], hs[1], hs[2], hs[3]] == hs
  {
  }

  /** `createPipeline` and `createRSMPipeline`: the main and the offscreen pipeline, each with its layout. */
  method CreatePipelines(t: Table) returns (t': Table, pipeline: Handle, layout: Handle, rsmPipeline: Handle, rsmLayout: Handle)
    requires t.Valid()
    ensures t'.Valid() && Grows(t, t')
    ensures PipelinesLive(t', pipeline, layout, rsmPipeline, rsmLayout)
  {
    var built := t.CreateAll(PipelineRoles);
    t' := built.0;
    pipeline, layout, rsmPipeline, rsmLayout := built.1[0], built.1[1], built.1[2], built.1[3];
    FourHandles(built.1);
  }

  /** The first stage of `initVulkanPC`: the swapchain, the main render pass and its framebuffers, the shadow-map targets. */
  method BuildTargets(t: Table, imageCount: nat, width: nat, height: nat, rsmWidth: nat, rsmHeight: nat)
    returns (t': Table, sc: Swapchain, pass: RenderPass, fbs: seq<Framebuffer>, r: RsmTargets)
    requires t.Valid()
    ensures t'.Valid() && t.KeptIn(t')
    ensures |sc.images| == imageCount && sc.width == width && sc.height == height
    ensures SwapchainLive(t', sc) && MainPassLive(t', pass) && FramebuffersLive(t', sc, fbs)
    ensures RsmLive(t', r) && RsmConsistent(r, rsmWidth, rsmHeight)
  {
    var t1, t2, t3;
    t1, sc := CreateSwapchain(t, imageCount, width, height);
    t2, pass := CreateRenderPass(t1);
    t3, fbs := BuildFramebuffers(t2, sc.images, sc.views, sc.width, sc.height);
    t', r := CreateRSMPassResources(t3, rsmWidth, rsmHeight);
    KeptInTransitive(t2, t3, t');
    KeptInTransitive(t1, t2, t');
    KeptInApart(t1, t');
    SwapchainKept(t1, t', sc);
  }

  /**
   * The second stage: the buffers, the texture, the descriptor layout, and
   * the `imageCount` descriptor sets binding the uniform buffer, the
   * shadow-map targets `r` and the texture.
   */
  method BuildBindings(t: Table, imageCount: nat, r: RsmTargets)
    returns (t': Table, vb: Handle, ub: Handle, ua: Handle, tex: Texture, dsl: Handle, sets: seq<DescriptorSet>)
    requires t.Valid()
    ensures t'.Valid() && t.KeptIn(t')
    ensures BuffersLive(t', vb, ub, ua, tex, dsl)
    ensures DescriptorSetsLive(t', sets, imageCount, DescriptorBindings(ub, r, tex))
  {
    var t1;
    t1, vb, ub, ua, tex, dsl := CreateBuffers(t);
    t', sets := BuildDescriptorSets(t1, imageCount, DescriptorBindings(ub, r, tex));
  }

  /** The third stage: the two pipelines, the command buffers, and the fence and semaphores of each of the `slots` frame slots. */
  method BuildPipelines(t: Table, pool: Handle, imageCount: nat, slots: nat)
    returns (t': Table, p: Handle, pl: Handle, rp: Handle, rpl: Handle, pool': Handle, cbs: seq<Handle>, sync: seq<SlotSync>)
    requires t.Valid() && (pool == NullHandle || t.Holds(pool, CommandPool))
    ensures t'.Valid() && t.KeptIn(t')
    ensures pool != NullHandle ==> pool' == pool
    ensures PipelinesLive(t', p, pl, rp, rpl) && CommandBuffersLive(t', pool', cbs, imageCount)
    ensures SyncLive(t', sync, slots)
  {
    var t1, t2;
    t1, p, pl, rp, rpl := CreatePipelines(t);
    t2, pool', cbs := CreateCommandBuffers(t1, pool, imageCount);
    t', sync := CreateFrameSynchronization(t2, slots);
    KeptInApart(t2, t');
    CommandBuffersKept(t2, t', pool', cbs, imageCount);
  }

  /**
   * The objects of `initVulkanPC`, in its order: the swapchain, the main
   * render pass and framebuffers, the shadow-map targets at the given size,
   * the buffers, texture and descriptor layout, the descriptor sets, the two
   * pipelines, the command buffers and the frame slots. Nothing live before
   * is lost, and afterwards every object a frame reads is live.
   */
  method BuildObjects(t: Table, imageCount: nat, width: nat, height: nat, rsmWidth: nat, rsmHeight: nat, pool: Handle, slots: nat)
    returns (t': Table, g: Gpu, r: RsmTargets, sets: seq<DescriptorSet>)
    requires t.Valid() && (pool == NullHandle || t.Holds(pool, CommandPool))
    ensures t'.Valid() && t.KeptIn(t')
    ensures |g.swapchain.images| == imageCount && g.swapchain.width == width && g.swapchain.height == height
    ensures pool != NullHandle ==> g.commandPool == pool
    ensures LiveState(t', g, r, rsmWidth, rsmHeight, sets, slots)
  {
    var t1, sc, pass, fbs;
    t1, sc, pass, fbs, r := BuildTargets(t, imageCount, width, height, rsmWidth, rsmHeight);
    var t2, vb, ub, ua, tex, dsl;
    t2, vb, ub, ua, tex, dsl, sets := BuildBindings(t1, |sc.images|, r);
    var p, pl, rp, rpl, pool', cbs, sync;
    t', p, pl, rp, rpl, pool', cbs, sync := BuildPipelines(t2, pool, |sc.images|, slots);
    g := Gpu(sc, pass, fbs, vb, ub, ua, tex, dsl, p, pl, rp, rpl, pool', cbs, sync);
    KeptInTransitive(t1, t2, t');
    KeptInApart(t1, t');
    SwapchainKept(t1, t', sc);
    FramebuffersKept(t1, t', sc, fbs);
    DescriptorSetsKept(t2, t', sets, |sc.images|, DescriptorBindings(ub, r, tex));
  }

  /** `BuildObjects` on the application's resources: the shadow map keeps its size. */
  method BuildResources(before: Resources, imageCount: nat, width: nat, height: nat, slots: nat) returns (after: Resources)
    requires before.table.Valid()
    requires before.gpu.commandPool == NullHandle || before.table.Holds(before.gpu.commandPool, CommandPool)
    ensures after.Live(slots) && before.table.KeptIn(after.table)
    ensures after.rsmWidth == before.rsmWidth && after.rsmHeight == before.rsmHeight
    ensures |after.gpu.swapchain.images| == imageCount
    ensures after.gpu.swapchain.width == width && after.gpu.swapchain.height == height
  {
    var t', g, r, sets := BuildObjects(before.table, imageCount, width, height, before.rsmWidth, before.rsmHeight,
      before.gpu.commandPool, slots);
    after := Resources(t', g, r, before.rsmWidth, before.rsmHeight, sets);
  }

  // ---------------------------------------------------------------------
  // `recreateRSMResources`

  /** The names the start of a rebuild clears: the framebuffer and the three targets. */
  predicate IsRsmName(r: Role)
  {
    r == RsmFramebuffer || r == RsmAttachment(Position) || r == RsmAttachment(Normal) || r == RsmAttachment(Flux)
  }

  /** Clears the shadow-map framebuffer, then its three targets, by name. */
  method ClearRsmTargets(t: Table) returns (t': Table)
    requires t.Valid()
    ensures t'.Valid() && t'.next == t.next
    ensures forall h :: h in t'.objects <==> h in t.objects && !IsRsmName(t.objects[h])
    ensures forall h | h in t'.objects :: t'.objects[h] == t.objects[h]
  {
    t' := t.Clear(RsmFramebuffer);
    t' := t'.Clear(RsmAttachment(Position));
    t' := t'.Clear(RsmAttachment(Normal));
    t' := t'.Clear(RsmAttachment(Flux));
  }

  /**
   * The registry work of `recreateRSMResources(newSize)`: clear the
   * framebuffer and the three targets by name, build the targets again at
   * `newSize` and a framebuffer attaching them with the existing render pass,
   * then for each of the `count` swapchain images clear that image's
   * descriptor set and build a new one bound to the new views.
   *
   * Afterwards the old targets, the old framebuffer and the old descriptor
   * sets are gone, every other object is kept, and every object of the new
   * shadow map and the new sets is live and new.
   */
  method RebuildRsm(t: Table, r: RsmTargets, newSize: nat, count: nat, uniformBuffer: Handle, flower: Texture)
    returns (t': Table, r': RsmTargets, sets: seq<DescriptorSet>)
    requires t.Valid() && RsmLive(t, r)
    ensures t'.Valid() && KeptApartFrom(t, t')
    ensures r'.renderPass == r.renderPass && r'.sampler == r.sampler
    ensures r.renderPass.finalLayouts == RsmFinalLayouts ==> RsmConsistent(r', newSize, newSize)
    ensures RsmLive(t', r') && RebuiltFrom(r', t.next)
    ensures DescriptorSetsLive(t', sets, count, DescriptorBindings(uniformBuffer, r', flower))
    ensures RebuiltGone(t', r)
    ensures forall h | h in t.objects && IsOldSet(t.objects[h], count) :: h !in t'.objects
    ensures forall h | h in t'.objects && h !in t.objects :: h >= t.next
  {
    var t2;
    t2, r' := RebuildRsmTargets(t, r, newSize);
    t', sets := RebuildDescriptorSets(t2, count, DescriptorBindings(uniformBuffer, r', flower));
    RebuildKeptApart(t, t2, t', count);
    SetsKeepRsm(t2, t', r', count);
    SetsKeepGone(t, t2, t', r);
    OldSetsSurvive(t, t2, count);
  }

  /** What neither half of the rebuild clears is kept by both. */
  lemma RebuildKeptApart(t: Table, t2: Table, t': Table, count: nat)
    requires forall h | h in t.objects && !IsRsmName(t.objects[h]) :: h in t2.objects && t2.objects[h] == t.objects[h]
    requires forall h | h in t2.objects && !IsOldSet(t2.objects[h], count) :: h in t'.objects && t'.objects[h] == t2.objects[h]
    ensures KeptApartFrom(t, t')
  {
  }

  /** Rebuilding the descriptor sets keeps the new shadow map live. */
  lemma SetsKeepRsm(t2: Table, t': Table, r: RsmTargets, count: nat)
    requires RsmLive(t2, r)
    requires forall h | h in t2.objects && !IsOldSet(t2.objects[h], count) :: h in t'.objects && t'.objects[h] == t2.objects[h]
    ensures RsmLive(t', r)
  {
    RsmLiveElim(t2, r);
    RsmLiveIntro(t', r);
  }

  /** Rebuilding the descriptor sets brings none of the old shadow map's objects back. */
  lemma SetsKeepGone(t: Table, t2: Table, t': Table, r: RsmTargets)
    requires t.Valid() && RsmLive(t, r) && t.next <= t2.next && RebuiltGone(t2, r)
    requires forall h | h in t'.objects :: h in t2.objects || h >= t2.next
    ensures RebuiltGone(t', r)
  {
    RsmLiveElim(t, r);
  }

  /**
   * `RebuildRsm` on the application's resources: the shadow map and the
   * descriptor sets are rebuilt at `newSize` against the start-up objects,
   * which stay as they are, and every object a frame reads is live again.
   */
  method RebuildResources(before: Resources, newSize: nat, slots: nat) returns (after: Resources)
    requires before.Live(slots)
    ensures after.Live(slots)
    ensures after.gpu == before.gpu && after.rsmWidth == newSize && after.rsmHeight == newSize
    ensures after.rsm.renderPass == before.rsm.renderPass && after.rsm.sampler == before.rsm.sampler
    ensures RebuiltGone(after.table, before.rsm) && RebuiltFrom(after.rsm, before.table.next)
    ensures forall i | 0 <= i < |before.descriptorSets| :: before.descriptorSets[i].id !in after.table.objects
    ensures KeptApartFrom(before.table, after.table)
  {
    var g := before.gpu;
    var t', r', sets := RebuildRsm(before.table, before.rsm, newSize, |g.swapchain.images|, g.uniformBuffer, g.flower);
    GpuKept(before.table, t', g, slots);
    assert forall i | 0 <= i < |before.descriptorSets| :: before.table.Holds(before.descriptorSets[i].id, DescriptorSetFor(i));
    after := Resources(t', g, r', newSize, newSize, sets);
  }

  /** Clearing the shadow-map names leaves the descriptor sets alone. */
  lemma OldSetsSurvive(t: Table, t': Table, count: nat)
    requires forall h | h in t.objects && !IsRsmName(t.objects[h]) :: h in t'.objects && t'.objects[h] == t.objects[h]
    ensures forall h | h in t.objects && IsOldSet(t.objects[h], count) :: h in t'.objects && t'.objects[h] == t.objects[h]
  {
  }

  /**
   * The first half of the rebuild: clear the framebuffer and the three
   * targets, then build the targets at `newSize` and a framebuffer attaching
   * them with the existing render pass. Everything not cleared is kept.
   */
  method RebuildRsmTargets(t: Table, r: RsmTargets, newSize: nat) returns (t': Table, r': RsmTargets)
    requires t.Valid() && RsmLive(t, r)
    ensures t'.Valid() && t.next <= t'.next
    ensures r'.renderPass == r.renderPass && r'.sampler == r.sampler
    ensures r.renderPass.finalLayouts == RsmFinalLayouts ==> RsmConsistent(r', newSize, newSize)
    ensures RsmLive(t', r') && RebuiltFrom(r', t.next)
    ensures RebuiltGone(t', r)
    ensures forall h | h in t.objects && !IsRsmName(t.objects[h]) ::
      h in t'.objects && t'.objects[h] == t.objects[h]
    ensures forall h | h in t'.objects :: (h in t.objects && t'.objects[h] == t.objects[h]) || h >= t.next
  {
    RsmLiveElim(t, r);
    var t1 := ClearRsmTargets(t);
    t', r' := CreateRsmTargets(t1, r.renderPass, r.sampler, newSize);
  }

  /** Builds the three targets at `size` and a framebuffer attaching them with the given render pass. */
  method CreateRsmTargets(t: Table, pass: RenderPass, sampler: Handle, size: nat) returns (t': Table, r: RsmTargets)
    requires t.Valid() && t.Holds(pass.id, RsmRenderPass) && t.Holds(sampler, RsmSampler)
    ensures t'.Valid() && Grows(t, t')
    ensures r.renderPass == pass && r.sampler == sampler
    ensures pass.finalLayouts == RsmFinalLayouts ==> RsmConsistent(r, size, size)
    ensures RsmLive(t', r)
    ensures RebuiltFrom(r, t.next)
  {
    var roles := AttachmentRoles + [RsmFramebuffer];
    var built := t.CreateAll(roles);
    t' := built.0;
    r := RsmFrom(built.1, pass, built.1[9], sampler, size, size);
    RsmFromLive(t', built.1, roles, pass, built.1[9], sampler, size, size);
  }
}
