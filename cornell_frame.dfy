/**
 * The pieces of one SDFCornell frame that are pure functions of the
 * object's state: the GPU objects a recording reads, the command sequence
 * `recordCommandBuffer` emits, the checkboxes and the resolution combo of
 * the control panel, and the uniform block `updateUniformBuffer` fills.
 */
module CornellFrame {
  import opened Wrappers
  import opened Handles
  import opened Commands
  import opened CornellHeader
  import opened Vectors

  /** An image created with its view and its memory. */
  datatype Attachment = Attachment(image: Handle, view: Handle, allocation: Handle)

  /**
   * The reflective shadow map: three colour targets, the render pass that
   * draws into them, the framebuffer that attaches them, and the sampler the
   * main pass reads them with.
   */
  datatype RsmTargets = RsmTargets(
    position: Attachment,
    normal: Attachment,
    flux: Attachment,
    renderPass: RenderPass,
    framebuffer: Framebuffer,
    sampler: Handle)

  /** The flower texture the main pass samples at binding 4. */
  datatype Texture = Texture(image: Handle, view: Handle, allocation: Handle, sampler: Handle)

  function RsmImages(r: RsmTargets): seq<Handle>
  {
    [r.position.image, r.normal.image, r.flux.image]
  }

  function RsmViews(r: RsmTargets): seq<Handle>
  {
    [r.position.view, r.normal.view, r.flux.view]
  }

  /**
   * The shadow-map targets as `createRSMPassResources` builds them: every
   * attachment of the render pass is left readable by shaders, and the
   * framebuffer attaches the three targets, in order, at the given extent.
   */
  predicate RsmConsistent(r: RsmTargets, width: nat, height: nat)
  {
    && r.renderPass.finalLayouts == [ShaderReadOnly, ShaderReadOnly, ShaderReadOnly]
    && r.framebuffer.images == RsmImages(r)
    && r.framebuffer.views == RsmViews(r)
    && r.framebuffer.width == width && r.framebuffer.height == height
  }

  /**
   * The five bindings of every frame's descriptor set: the uniform buffer,
   * the three shadow-map views with the shadow-map sampler, and the flower
   * texture with its own sampler.
   */
  function DescriptorBindings(uniformBuffer: Handle, r: RsmTargets, flower: Texture): (bs: seq<Binding>)
    ensures |bs| == 5 && bs[0] == UniformBufferBinding(uniformBuffer)
    ensures forall k | 0 <= k < 3 :: bs[k + 1] == ImageSamplerBinding(RsmViews(r)[k], r.sampler)
    ensures bs[4] == ImageSamplerBinding(flower.view, flower.sampler)
  {
    [UniformBufferBinding(uniformBuffer),
     ImageSamplerBinding(r.position.view, r.sampler),
     ImageSamplerBinding(r.normal.view, r.sampler),
     ImageSamplerBinding(r.flux.view, r.sampler),
     ImageSamplerBinding(flower.view, flower.sampler)]
  }

  /** The objects a descriptor set with these bindings reads. */
  lemma DescriptorBindingsRefs(uniformBuffer: Handle, r: RsmTargets, flower: Texture)
    ensures BindingsRefs(DescriptorBindings(uniformBuffer, r, flower)) ==
      {uniformBuffer, r.position.view, r.normal.view, r.flux.view, r.sampler, flower.view, flower.sampler}
  {
    var bs := DescriptorBindings(uniformBuffer, r, flower);
    assert BindingsRefs(bs) == BindingRefs(bs[0]) + BindingsRefs(bs[1..]);
    assert BindingsRefs(bs[1..]) == BindingRefs(bs[1]) + BindingsRefs(bs[2..]);
    assert BindingsRefs(bs[2..]) == BindingRefs(bs[2]) + BindingsRefs(bs[3..]);
    assert BindingsRefs(bs[3..]) == BindingRefs(bs[3]) + BindingsRefs(bs[4..]);
    assert BindingsRefs(bs[4..]) == BindingRefs(bs[4]) + BindingsRefs(bs[5..]);
  }

  /** Everything `recordCommandBuffer` reads from the object for one swapchain image. */
  datatype FrameTargets = FrameTargets(
    mainPass: RenderPass,
    framebuffer: Framebuffer,
    width: nat,
    height: nat,
    pipeline: Handle,
    pipelineLayout: Handle,
    descriptorSet: DescriptorSet,
    vertexBuffer: Handle,
    rsm: RsmTargets,
    rsmWidth: nat,
    rsmHeight: nat,
    rsmPipeline: Handle,
    rsmPipelineLayout: Handle)

  const Transparent: Color := Color(0.0, 0.0, 0.0, 0.0)
  const Background: Color := Color(0.03, 0.05, 0.09, 1.0)

  /** The offscreen pass: clear the three targets to zero and draw the fullscreen strip into them. */
  function RsmPass(f: FrameTargets): seq<Command>
  {
    [BeginRenderPass(f.rsm.renderPass, f.rsm.framebuffer, [Transparent, Transparent, Transparent], f.rsmWidth, f.rsmHeight),
     BindPipeline(f.rsmPipeline),
     SetViewport(f.rsmWidth, f.rsmHeight),
     SetScissor(f.rsmWidth, f.rsmHeight),
     BindDescriptorSet(f.rsmPipelineLayout, f.descriptorSet),
     BindVertexBuffer(f.vertexBuffer),
     Draw(4),
     EndRenderPass]
  }

  /** With the offscreen pass off, each target is moved straight to the layout the main pass samples it in. */
  function RsmTransitions(f: FrameTargets): seq<Command>
  {
    [TransitionLayout(f.rsm.position.image, Undefined, ShaderReadOnly),
     TransitionLayout(f.rsm.normal.image, Undefined, ShaderReadOnly),
     TransitionLayout(f.rsm.flux.image, Undefined, ShaderReadOnly)]
  }

  /**
   * The main pass on the swapchain image: the fullscreen draw, then, when
   * the context has an ImGui manager, the control panel inside the same pass.
   */
  function MainPass(f: FrameTargets, hasUi: bool): seq<Command>
  {
    [BeginRenderPass(f.mainPass, f.framebuffer, [Background], f.width, f.height),
     BindPipeline(f.pipeline),
     SetViewport(f.width, f.height),
     SetScissor(f.width, f.height),
     BindDescriptorSet(f.pipelineLayout, f.descriptorSet),
     BindVertexBuffer(f.vertexBuffer),
     Draw(4)]
    + UiRecording(hasUi) + [EndRenderPass]
  }

  /** The whole recording, given whether the offscreen pass is on when recording starts. */
  function CornellCommands(enableRsm: bool, f: FrameTargets, hasUi: bool): seq<Command>
  {
    [BeginCommandBuffer] + RsmBranch(enableRsm, f) + MainPass(f, hasUi) + [EndCommandBuffer]
  }

  /** Where the main pass begins in the recording. */
  function MainPassStart(enableRsm: bool): nat
  {
    if enableRsm then 9 else 4
  }

  /** All three shadow-map images are readable by shaders in `layouts`. */
  predicate RsmReadable(layouts: map<Handle, ImageLayout>, r: RsmTargets)
  {
    forall k | 0 <= k < 3 :: RsmImages(r)[k] in layouts && layouts[RsmImages(r)[k]] == ShaderReadOnly
  }

  /** The commands before the main pass: the offscreen pass or the three transitions. */
  function RsmBranch(enableRsm: bool, f: FrameTargets): seq<Command>
  {
    if enableRsm then RsmPass(f) else RsmTransitions(f)
  }

  /** The offscreen pass, run from outside any pass, ends with its attachments in their final layouts. */
  lemma RsmPassEffect(st: GpuState, f: FrameTargets)
    requires st.open == None
    ensures Replay(st, RsmPass(f)) ==
      GpuState(ApplyFinalLayouts(st.layouts, f.rsm.framebuffer.images, f.rsm.renderPass.finalLayouts), None)
  {
    var p := RsmPass(f);
    var inPass := Step(st, p[0]);
    var beforeEnd := p[1..7];
    assert p[1..] == beforeEnd + [EndRenderPass];
    ReplayAppend(inPass, beforeEnd, [EndRenderPass]);
    ReplayInsidePass(inPass, beforeEnd);
  }

  /** The three transitions make each shadow-map image readable by shaders. */
  lemma RsmTransitionsEffect(st: GpuState, f: FrameTargets)
    ensures Replay(st, RsmTransitions(f)).open == st.open
    ensures RsmReadable(Replay(st, RsmTransitions(f)).layouts, f.rsm)
  {
    var t := RsmTransitions(f);
    var s1 := Step(st, t[0]);
    var s2 := Step(s1, t[1]);
    var s3 := Step(s2, t[2]);
    assert Replay(st, t) == Replay(s1, t[1..]);
    assert Replay(s1, t[1..]) == Replay(s2, t[2..]);
    assert Replay(s2, t[2..]) == Replay(s3, []);
  }

  /** Either branch, run from outside any pass, leaves no pass open. */
  lemma BranchClosesPasses(st: GpuState, enableRsm: bool, f: FrameTargets)
    requires st.open == None
    ensures Replay(st, RsmBranch(enableRsm, f)).open == None
  {
    if enableRsm {
      RsmPassEffect(st, f);
    } else {
      RsmTransitionsEffect(st, f);
    }
  }

  lemma CornellCommandsSplit(enableRsm: bool, f: FrameTargets, hasUi: bool)
    ensures var cmds := CornellCommands(enableRsm, f, hasUi);
      && |cmds| == MainPassStart(enableRsm) + 9 + |UiRecording(hasUi)|
      && cmds[..MainPassStart(enableRsm)] == [BeginCommandBuffer] + RsmBranch(enableRsm, f)
      && cmds == ([BeginCommandBuffer] + RsmBranch(enableRsm, f)) + (MainPass(f, hasUi) + [EndCommandBuffer])
  {
  }

  /**
   * Whichever branch ran, when the main pass begins every shadow-map image is
   * in SHADER_READ_ONLY and no render pass is open, whatever layouts the
   * images had before the recording ran.
   */
  lemma RsmReadyBeforeMainPass(st: GpuState, enableRsm: bool, f: FrameTargets, hasUi: bool)
    requires st.open == None && RsmConsistent(f.rsm, f.rsmWidth, f.rsmHeight)
    ensures var cmds := CornellCommands(enableRsm, f, hasUi);
      var k := MainPassStart(enableRsm);
      && k < |cmds| && cmds[k] == BeginRenderPass(f.mainPass, f.framebuffer, [Background], f.width, f.height)
      && Replay(st, cmds[..k]).open == None
      && RsmReadable(Replay(st, cmds[..k]).layouts, f.rsm)
  {
    var cmds := CornellCommands(enableRsm, f, hasUi);
    var k := MainPassStart(enableRsm);
    var head := [BeginCommandBuffer] + RsmBranch(enableRsm, f);
    CornellCommandsSplit(enableRsm, f, hasUi);
    assert |head| == k && cmds[k] == (MainPass(f, hasUi) + [EndCommandBuffer])[0];
    ReplayAppend(st, [BeginCommandBuffer], RsmBranch(enableRsm, f));
    assert Replay(st, [BeginCommandBuffer]) == st;
    assert Replay(st, cmds[..k]) == Replay(st, RsmBranch(enableRsm, f));
    BranchClosesPasses(st, enableRsm, f);
    if enableRsm {
      RsmPassEffect(st, f);
      UniformFinalLayouts(st.layouts, f.rsm.framebuffer.images, f.rsm.renderPass.finalLayouts, ShaderReadOnly);
    } else {
      RsmTransitionsEffect(st, f);
    }
  }

  /** The main pass, run from outside any pass, leaves the swapchain image in PRESENT_SRC. */
  lemma MainPassEffect(st: GpuState, f: FrameTargets, hasUi: bool, image: Handle)
    requires st.open == None
    requires f.mainPass.finalLayouts == [PresentSrc] && f.framebuffer.images == [image]
    ensures Replay(st, MainPass(f, hasUi) + [EndCommandBuffer]).open == None
    ensures var l := Replay(st, MainPass(f, hasUi) + [EndCommandBuffer]).layouts; image in l && l[image] == PresentSrc
  {
    var m := MainPass(f, hasUi) + [EndCommandBuffer];
    var inPass := Step(st, m[0]);
    var inside := m[1..|m| - 2];
    assert m[1..] == inside + [EndRenderPass, EndCommandBuffer];
    ReplayAppend(inPass, inside, [EndRenderPass, EndCommandBuffer]);
    ReplayInsidePass(inPass, inside);
    UniformFinalLayouts(inPass.layouts, f.framebuffer.images, f.mainPass.finalLayouts, PresentSrc);
  }

  /** The main pass begins once in the commands after the branch, and never inside the branch. */
  lemma MainPassBegunOnce(enableRsm: bool, f: FrameTargets, hasUi: bool)
    requires f.mainPass.id != f.rsm.renderPass.id
    ensures CountBegins([BeginCommandBuffer] + RsmBranch(enableRsm, f), f.mainPass.id) == 0
    ensures CountBegins(MainPass(f, hasUi) + [EndCommandBuffer], f.mainPass.id) == 1
  {
    var branch := RsmBranch(enableRsm, f);
    CountBeginsAppend([BeginCommandBuffer], branch, f.mainPass.id);
    if enableRsm {
      assert branch == [branch[0]] + branch[1..];
      CountBeginsAppend([branch[0]], branch[1..], f.mainPass.id);
      NoBegins(branch[1..], f.mainPass.id);
    } else {
      NoBegins(branch, f.mainPass.id);
    }
    var m := MainPass(f, hasUi) + [EndCommandBuffer];
    assert m == [m[0]] + m[1..];
    CountBeginsAppend([m[0]], m[1..], f.mainPass.id);
    NoBegins(m[1..], f.mainPass.id);
  }

  /**
   * The recording begins the main render pass exactly once and leaves no
   * pass open; the swapchain image ends in the main pass's final layout,
   * PRESENT_SRC, ready to be presented.
   */
  lemma SingleMainPass(st: GpuState, enableRsm: bool, f: FrameTargets, hasUi: bool, image: Handle)
    requires st.open == None
    requires f.mainPass.id != f.rsm.renderPass.id
    requires f.mainPass.finalLayouts == [PresentSrc] && f.framebuffer.images == [image]
    ensures var cmds := CornellCommands(enableRsm, f, hasUi);
      && CountBegins(cmds, f.mainPass.id) == 1
      && Replay(st, cmds).open == None
      && image in Replay(st, cmds).layouts && Replay(st, cmds).layouts[image] == PresentSrc
  {
    var pre := [BeginCommandBuffer] + RsmBranch(enableRsm, f);
    var post := MainPass(f, hasUi) + [EndCommandBuffer];
    CornellCommandsSplit(enableRsm, f, hasUi);
    CountBeginsAppend(pre, post, f.mainPass.id);
    MainPassBegunOnce(enableRsm, f, hasUi);
    ReplayAppend(st, pre, post);
    ReplayAppend(st, [BeginCommandBuffer], RsmBranch(enableRsm, f));
    assert Replay(st, [BeginCommandBuffer]) == st;
    BranchClosesPasses(st, enableRsm, f);
    MainPassEffect(Replay(st, pre), f, hasUi, image);
  }

  /** The commands before the main pass record no control panel. */
  lemma BranchHasNoPanel(enableRsm: bool, f: FrameTargets)
    ensures forall k | 0 <= k < |[BeginCommandBuffer] + RsmBranch(enableRsm, f)| ::
      ([BeginCommandBuffer] + RsmBranch(enableRsm, f))[k] != RecordUi
  {
  }

  lemma PrefixOfAppend<T>(a: seq<T>, b: seq<T>, j: nat)
    requires j <= |b|
    ensures (a + b)[..|a| + j] == a + b[..j]
  {
  }

  /** Within the main pass, the panel can only be the eighth command, after the draw, with the pass open. */
  lemma MainPassPanel(s0: GpuState, f: FrameTargets, hasUi: bool)
    ensures var m := MainPass(f, hasUi) + [EndCommandBuffer];
      && (forall j | 0 <= j < |m| && m[j] == RecordUi :: hasUi && j == 7)
      && (hasUi ==> m[7] == RecordUi)
      && Replay(s0, m[..7]).open == Some(OpenPass(f.mainPass, f.framebuffer))
  {
    var m := MainPass(f, hasUi) + [EndCommandBuffer];
    if hasUi {
      assert m[7..] == [RecordUi, EndRenderPass, EndCommandBuffer];
    } else {
      assert m[7..] == [EndRenderPass, EndCommandBuffer];
    }
    assert forall j | 7 <= j < |m| :: m[j] == m[7..][j - 7];
    assert m[..7] == [m[0]] + m[1..7];
    ReplayAppend(s0, [m[0]], m[1..7]);
    assert Replay(s0, [m[0]]) == Step(s0, m[0]);
    ReplayInsidePass(Step(s0, m[0]), m[1..7]);
  }

  /** Where the panel sits in a recording made of a panel-free head and a tail with the panel only at `j`. */
  lemma PanelPosition(head: seq<Command>, post: seq<Command>, hasUi: bool, j: nat)
    requires forall k | 0 <= k < |head| :: head[k] != RecordUi
    requires forall k | 0 <= k < |post| && post[k] == RecordUi :: hasUi && k == j
    requires hasUi ==> j < |post| && post[j] == RecordUi
    ensures RecordUi in head + post <==> hasUi
    ensures forall k | 0 <= k < |head + post| && (head + post)[k] == RecordUi :: k == |head| + j
  {
    var c := head + post;
    assert forall k | 0 <= k < |head| :: c[k] == head[k];
    assert forall k | |head| <= k < |c| :: c[k] == post[k - |head|];
    if hasUi {
      assert c[|head| + j] == RecordUi;
    }
  }

  /**
   * The control panel is recorded exactly when the context has an ImGui
   * manager, and then while the main pass is open on the swapchain
   * framebuffer.
   */
  lemma PanelInsideMainPass(st: GpuState, enableRsm: bool, f: FrameTargets, hasUi: bool)
    requires st.open == None
    ensures var cmds := CornellCommands(enableRsm, f, hasUi);
      && (RecordUi in cmds <==> hasUi)
      && forall k | 0 <= k < |cmds| && cmds[k] == RecordUi ::
        Replay(st, cmds[..k]).open == Some(OpenPass(f.mainPass, f.framebuffer))
  {
    var head := [BeginCommandBuffer] + RsmBranch(enableRsm, f);
    var post := MainPass(f, hasUi) + [EndCommandBuffer];
    assert CornellCommands(enableRsm, f, hasUi) == head + post;
    BranchHasNoPanel(enableRsm, f);
    MainPassPanel(Replay(st, head), f, hasUi);
    PanelPosition(head, post, hasUi, 7);
    if hasUi {
      PrefixOfAppend(head, post, 7);
      ReplayAppend(st, head, post[..7]);
    }
  }

  /** The objects the draw on the swapchain image reads. */
  function MainRefs(f: FrameTargets): set<Handle>
  {
    {f.mainPass.id, f.pipeline, f.pipelineLayout, f.vertexBuffer} + FramebufferRefs(f.framebuffer) + SetRefs(f.descriptorSet)
  }

  /** The objects the offscreen pass reads, or the images the transitions touch when it is off. */
  function BranchRefs(enableRsm: bool, f: FrameTargets): set<Handle>
  {
    if enableRsm then
      {f.rsm.renderPass.id, f.rsmPipeline, f.rsmPipelineLayout, f.vertexBuffer} + FramebufferRefs(f.rsm.framebuffer) + SetRefs(f.descriptorSet)
    else
      {f.rsm.position.image, f.rsm.normal.image, f.rsm.flux.image}
  }

  lemma {:induction false} RefsOfInert(cmds: seq<Command>)
    requires forall i | 0 <= i < |cmds| :: CommandRefs(cmds[i]) == {}
    ensures Refs(cmds) == {}
    decreases |cmds|
  {
    if cmds != [] {
      RefsOfInert(cmds[1..]);
    }
  }

  /** The six commands before the draw on the swapchain image. */
  function MainHead(f: FrameTargets): seq<Command>
  {
    [BeginRenderPass(f.mainPass, f.framebuffer, [Background], f.width, f.height),
     BindPipeline(f.pipeline),
     SetViewport(f.width, f.height),
     SetScissor(f.width, f.height),
     BindDescriptorSet(f.pipelineLayout, f.descriptorSet),
     BindVertexBuffer(f.vertexBuffer)]
  }

  lemma MainHeadRefs(f: FrameTargets)
    ensures Refs(MainHead(f)) == MainRefs(f)
  {
    var h := MainHead(f);
    assert Refs(h) == CommandRefs(h[0]) + Refs(h[1..]);
    assert Refs(h[1..]) == CommandRefs(h[1]) + Refs(h[2..]);
    assert Refs(h[2..]) == CommandRefs(h[2]) + Refs(h[3..]);
    assert Refs(h[3..]) == CommandRefs(h[3]) + Refs(h[4..]);
    assert Refs(h[4..]) == CommandRefs(h[4]) + Refs(h[5..]);
    assert Refs(h[5..]) == CommandRefs(h[5]) + Refs(h[6..]);
  }

  lemma MainPassRefs(f: FrameTargets, hasUi: bool)
    ensures Refs(MainPass(f, hasUi) + [EndCommandBuffer]) == MainRefs(f)
  {
    var tail := [Draw(4)] + UiRecording(hasUi) + [EndRenderPass, EndCommandBuffer];
    assert MainPass(f, hasUi) + [EndCommandBuffer] == MainHead(f) + tail;
    RefsAppend(MainHead(f), tail);
    RefsOfInert(tail);
    MainHeadRefs(f);
  }

  /** The offscreen pass reads its pass, framebuffer, pipeline, layout, vertex buffer and the descriptor set. */
  lemma RsmPassRefs(f: FrameTargets)
    ensures Refs([BeginCommandBuffer] + RsmPass(f)) == BranchRefs(true, f)
  {
    var b := [BeginCommandBuffer] + RsmPass(f);
    assert b == b[..7] + [Draw(4), EndRenderPass];
    RefsAppend(b[..7], [Draw(4), EndRenderPass]);
    RefsOfInert([Draw(4), EndRenderPass]);
    var h := b[..7];
    assert Refs(h) == CommandRefs(h[0]) + Refs(h[1..]);
    assert Refs(h[1..]) == CommandRefs(h[1]) + Refs(h[2..]);
    assert Refs(h[2..]) == CommandRefs(h[2]) + Refs(h[3..]);
    assert Refs(h[3..]) == CommandRefs(h[3]) + Refs(h[4..]);
    assert Refs(h[4..]) == CommandRefs(h[4]) + Refs(h[5..]);
    assert Refs(h[5..]) == CommandRefs(h[5]) + Refs(h[6..]);
    assert Refs(h[6..]) == CommandRefs(h[6]) + Refs(h[7..]);
  }

  /** The three transitions read only the three shadow-map images. */
  lemma TransitionsRefs(f: FrameTargets)
    ensures Refs([BeginCommandBuffer] + RsmTransitions(f)) == BranchRefs(false, f)
  {
    var b := [BeginCommandBuffer] + RsmTransitions(f);
    assert Refs(b) == CommandRefs(b[0]) + Refs(b[1..]);
    assert Refs(b[1..]) == CommandRefs(b[1]) + Refs(b[2..]);
    assert Refs(b[2..]) == CommandRefs(b[2]) + Refs(b[3..]);
    assert Refs(b[3..]) == CommandRefs(b[3]) + Refs(b[4..]);
  }

  lemma BranchRefsExact(enableRsm: bool, f: FrameTargets)
    ensures Refs([BeginCommandBuffer] + RsmBranch(enableRsm, f)) == BranchRefs(enableRsm, f)
  {
    if enableRsm {
      RsmPassRefs(f);
    } else {
      TransitionsRefs(f);
    }
  }

  /**
   * The objects a recording reads: those of the main pass, and those of the
   * offscreen pass or, when it is off, the three shadow-map images. The
   * descriptor set, and with it the shadow-map views, is read either way.
   */
  lemma CornellRefs(enableRsm: bool, f: FrameTargets, hasUi: bool)
    ensures Refs(CornellCommands(enableRsm, f, hasUi)) == BranchRefs(enableRsm, f) + MainRefs(f)
    ensures SetRefs(f.descriptorSet) <= Refs(CornellCommands(enableRsm, f, hasUi))
  {
    CornellCommandsSplit(enableRsm, f, hasUi);
    RefsAppend([BeginCommandBuffer] + RsmBranch(enableRsm, f), MainPass(f, hasUi) + [EndCommandBuffer]);
    BranchRefsExact(enableRsm, f);
    MainPassRefs(f, hasUi);
  }

  // ---------------------------------------------------------------------
  // The control panel

  /** The RSM resolution combo's entries, 512 to 4096; an index outside them falls back to 1024. */
  function ResolutionForIndex(index: int): (size: nat)
    ensures 512 <= size <= 4096 && size % 512 == 0
    ensures !(0 <= index < 4) ==> size == 1024
    ensures 0 <= index < 4 ==> size == 512 * Pow2Nat(index)
  {
    match index
    case 0 => 512
    case 1 => 1024
    case 2 => 2048
    case 3 => 4096
    case _ => 1024
  }

  function Pow2Nat(k: nat): (p: nat)
    ensures p >= 1
  {
    if k == 0 then 1 else 2 * Pow2Nat(k - 1)
  }

  /** Distinct combo entries name distinct sizes, so a changed entry always asks for a different size. */
  lemma ResolutionEntriesDistinct(i: int, j: int)
    requires 0 <= i < 4 && 0 <= j < 4 && i != j
    ensures ResolutionForIndex(i) != ResolutionForIndex(j)
  {
  }

  /** What the resolution combo leaves behind: the selected entry, and the size and flag of a pending rebuild. */
  datatype ResizeRequest = ResizeRequest(index: int, pendingSize: nat, pending: bool)

  /**
   * The combo: `picked` is the entry the user chose this frame, if any. A
   * choice only records the intent to rebuild, and only when it differs
   * from the entry already selected; choosing the current entry again, or
   * not touching the combo, changes nothing.
   */
  function PickResolution(r: ResizeRequest, picked: Option<int>): (r': ResizeRequest)
    ensures picked.None? ==> r' == r
    ensures picked.Some? ==> r'.index == picked.value
    ensures picked.Some? && picked.value != r.index ==> r'.pending && r'.pendingSize == ResolutionForIndex(picked.value)
    ensures picked.Some? && picked.value == r.index ==> r' == r
  {
    match picked
    case None => r
    case Some(i) =>
      if i != r.index then ResizeRequest(i, ResolutionForIndex(i), true)
      else r.(index := i)
  }

  /** The pending size is always the size of the selected entry. */
  predicate RequestConsistent(r: ResizeRequest)
  {
    r.pendingSize == ResolutionForIndex(r.index)
  }

  lemma PickKeepsConsistent(r: ResizeRequest, picked: Option<int>)
    requires RequestConsistent(r)
    ensures RequestConsistent(PickResolution(r, picked))
  {
  }

  /** The checkboxes of the panel. */
  datatype Checkbox = Key | Fill | Rim | Env | Rsm | Indirect | Importance | ShowRsmOnly | ShowIndirectOnly | Pbr

  /** The buttons of the panel. */
  datatype Button = ResetRotation | ZeroStick | ResetLight | ResetPbr | ResetOrtho

  /**
   * The sliders and the colour picker of the panel: the value each was
   * dragged to in a frame, or `None` if it was left alone. The two
   * per-material sliders edit whichever sphere the material combo selects.
   */
  datatype Sliders = Sliders(
    euler: Option<Vec3>,
    stick: Option<Vec2>,
    animSpeed: Option<real>,
    sphereColor: Option<Vec3>,
    indirectIntensity: Option<real>,
    keyIntensity: Option<real>,
    ambient: Option<real>,
    shadowQuality: Option<real>,
    shadowIntensity: Option<real>,
    metallic: Option<real>,
    blueTint: Option<real>,
    globalRoughness: Option<real>,
    globalMetallic: Option<real>,
    baseColorIntensity: Option<real>,
    materialRoughness: Option<real>,
    materialMetallic: Option<real>,
    orthoHalfSize: Option<Vec2>)

  const NoSliders: Sliders := Sliders(None, None, None, None, None, None, None, None, None, None, None,
    None, None, None, None, None, None)

  /**
   * One frame of interaction with the panel: the checkboxes clicked, the
   * buttons pressed, the entries picked in the two combos and the sliders
   * moved. The light-direction canvas is not part of this.
   */
  datatype CornellUi = CornellUi(
    clicked: set<Checkbox>,
    pressed: set<Button>,
    resolutionPick: Option<int>,
    materialPick: Option<int>,
    moved: Sliders)

  const NoInteraction: CornellUi := CornellUi({}, {}, None, None, NoSliders)

  function Checked(t: Toggles, c: Checkbox): bool
  {
    match c
    case Key => t.key
    case Fill => t.fill
    case Rim => t.rim
    case Env => t.env
    case Rsm => t.rsm
    case Indirect => t.indirect
    case Importance => t.importance
    case ShowRsmOnly => t.showRsmOnly
    case ShowIndirectOnly => t.showIndirectOnly
    case Pbr => t.pbr
  }

  /** The two indirect-lighting checkboxes are drawn only while RSM is on. */
  predicate ShownWithRsmOnly(c: Checkbox)
  {
    c == Indirect || c == Importance
  }

  /** A click toggles a checkbox that is drawn. */
  function Click(b: bool, c: Checkbox, clicked: set<Checkbox>, shown: bool): bool
  {
    if c in clicked && shown then !b else b
  }

  /**
   * The checkboxes, in drawing order: the RSM checkbox is drawn before the
   * two it reveals, so a click on those counts only if RSM is on once its
   * own click has been applied.
   */
  function ApplyClicks(t: Toggles, clicked: set<Checkbox>): Toggles
  {
    var rsmOn := Click(t.rsm, Rsm, clicked, true);
    Toggles(
      key := Click(t.key, Key, clicked, true),
      fill := Click(t.fill, Fill, clicked, true),
      rim := Click(t.rim, Rim, clicked, true),
      env := Click(t.env, Env, clicked, true),
      rsm := rsmOn,
      indirect := Click(t.indirect, Indirect, clicked, rsmOn),
      importance := Click(t.importance, Importance, clicked, rsmOn),
      showRsmOnly := Click(t.showRsmOnly, ShowRsmOnly, clicked, true),
      showIndirectOnly := Click(t.showIndirectOnly, ShowIndirectOnly, clicked, true),
      pbr := Click(t.pbr, Pbr, clicked, true))
  }

  /**
   * A click flips a checkbox that is drawn and nothing else; the two
   * RSM sub-options are drawn only when RSM is on after its own click.
   */
  lemma ClickToggles(t: Toggles, clicked: set<Checkbox>)
    ensures var r := ApplyClicks(t, clicked);
      forall c :: Checked(r, c) ==
        (if c in clicked && (!ShownWithRsmOnly(c) || r.rsm) then !Checked(t, c) else Checked(t, c))
  {
    var r := ApplyClicks(t, clicked);
    forall c
      ensures Checked(r, c) == (if c in clicked && (!ShownWithRsmOnly(c) || r.rsm) then !Checked(t, c) else Checked(t, c))
    {
      match c
      case Key =>
      case Fill =>
      case Rim =>
      case Env =>
      case Rsm =>
      case Indirect =>
      case Importance =>
      case ShowRsmOnly =>
      case ShowIndirectOnly =>
      case Pbr =>
    }
  }

  /**
   * The PBR section's sliders, drawn only while PBR is on: the three global
   * values, then roughness and metallic of the sphere `material` names.
   */
  function SlidePbr(p: PbrSettings, m: Sliders, material: int): PbrSettings
  {
    PbrSettings(
      globalRoughness := Moved(p.globalRoughness, m.globalRoughness),
      globalMetallic := Moved(p.globalMetallic, m.globalMetallic),
      sphere1Roughness := if material == 0 then Moved(p.sphere1Roughness, m.materialRoughness) else p.sphere1Roughness,
      sphere1Metallic := if material == 0 then Moved(p.sphere1Metallic, m.materialMetallic) else p.sphere1Metallic,
      sphere2Roughness := if material != 0 then Moved(p.sphere2Roughness, m.materialRoughness) else p.sphere2Roughness,
      sphere2Metallic := if material != 0 then Moved(p.sphere2Metallic, m.materialMetallic) else p.sphere2Metallic,
      baseColorIntensity := Moved(p.baseColorIntensity, m.baseColorIntensity))
  }

  /**
   * The panel's effect on the settings, widget by widget in drawing order.
   * A button drawn after a slider overrides that slider's edit. The Indirect
   * Intensity slider is drawn only while RSM is on after its click, the PBR
   * widgets only while PBR is on after its click.
   */
  function ApplyUi(s: Settings, ui: CornellUi): (r: Settings)
    ensures r.toggles == ApplyClicks(s.toggles, ui.clicked)
    ensures ResetRotation in ui.pressed ==> r.rotationEuler == DefaultSettings.rotationEuler
    ensures ZeroStick in ui.pressed ==> r.virtualStick == DefaultSettings.virtualStick
    ensures ResetLight in ui.pressed ==>
      r.lightElevation == DefaultSettings.lightElevation && r.lightAzimuth == DefaultSettings.lightAzimuth
    ensures ResetLight !in ui.pressed ==> r.lightElevation == s.lightElevation && r.lightAzimuth == s.lightAzimuth
    ensures ResetOrtho in ui.pressed ==> r.lightOrthoHalfSize == DefaultSettings.lightOrthoHalfSize
    ensures ResetPbr in ui.pressed && r.toggles.pbr ==> r.pbr == DefaultSettings.pbr
    ensures !r.toggles.pbr ==> r.pbr == s.pbr
    ensures r.selectedMaterial == (if ui.materialPick.Some? && r.toggles.pbr then ui.materialPick.value else s.selectedMaterial)
    ensures ui.moved == NoSliders ==>
      r.(toggles := s.toggles, rotationEuler := s.rotationEuler, virtualStick := s.virtualStick,
         lightElevation := s.lightElevation, lightAzimuth := s.lightAzimuth,
         lightOrthoHalfSize := s.lightOrthoHalfSize, pbr := s.pbr, selectedMaterial := s.selectedMaterial) == s
  {
    var toggles := ApplyClicks(s.toggles, ui.clicked);
    var material := if toggles.pbr && ui.materialPick.Some? then ui.materialPick.value else s.selectedMaterial;
    PressButtons(DragSliders(s.(toggles := toggles, selectedMaterial := material), ui.moved), ui.pressed)
  }

  /**
   * Every slider's edit, on settings whose checkboxes and material pick are
   * already this frame's: Indirect Intensity is drawn only while RSM is on,
   * the PBR sliders only while PBR is on.
   */
  function DragSliders(s: Settings, m: Sliders): Settings
  {
    s.(
      rotationEuler := Moved(s.rotationEuler, m.euler),
      virtualStick := Moved(s.virtualStick, m.stick),
      rotationAnimSpeed := Moved(s.rotationAnimSpeed, m.animSpeed),
      sphereColor := Moved(s.sphereColor, m.sphereColor),
      indirectIntensity := if s.toggles.rsm then Moved(s.indirectIntensity, m.indirectIntensity) else s.indirectIntensity,
      keyIntensity := Moved(s.keyIntensity, m.keyIntensity),
      ambientStrength := Moved(s.ambientStrength, m.ambient),
      shadowQuality := Moved(s.shadowQuality, m.shadowQuality),
      shadowIntensity := Moved(s.shadowIntensity, m.shadowIntensity),
      metallic := Moved(s.metallic, m.metallic),
      blueTint := Moved(s.blueTint, m.blueTint),
      pbr := if s.toggles.pbr then SlidePbr(s.pbr, m, s.selectedMaterial) else s.pbr,
      lightOrthoHalfSize := Moved(s.lightOrthoHalfSize, m.orthoHalfSize))
  }

  /**
   * The reset buttons. Each is drawn after the sliders it resets, so its
   * reset wins over their edit in the same frame; Reset PBR is drawn only
   * while PBR is on.
   */
  function PressButtons(s: Settings, pressed: set<Button>): Settings
  {
    s.(
      rotationEuler := if ResetRotation in pressed then Vec3(0.0, 0.0, 0.0) else s.rotationEuler,
      virtualStick := if ZeroStick in pressed then Vec2(0.0, 0.0) else s.virtualStick,
      lightElevation := if ResetLight in pressed then 0.8 else s.lightElevation,
      lightAzimuth := if ResetLight in pressed then -0.7 else s.lightAzimuth,
      pbr := if s.toggles.pbr && ResetPbr in pressed then PbrSettings(0.5, 0.0, 0.4, 0.1, 0.2, 0.8, 1.0) else s.pbr,
      lightOrthoHalfSize := if ResetOrtho in pressed then Vec2(8.0, 8.0) else s.lightOrthoHalfSize)
  }

  /**
   * What the sliders and the colour picker do: each one the user moved
   * takes the value it was dragged to, and each one left alone keeps its
   * value. A reset button drawn after its slider wins. Indirect Intensity
   * moves only while RSM is on, and the PBR sliders only while PBR is on
   * with no reset, the per-material pair on the selected sphere.
   */
  lemma ApplyUiSliders(s: Settings, ui: CornellUi)
    ensures var r := ApplyUi(s, ui); var m := ui.moved;
      && r.rotationEuler == (if ResetRotation in ui.pressed then DefaultSettings.rotationEuler
                             else if m.euler.Some? then m.euler.value else s.rotationEuler)
      && r.virtualStick == (if ZeroStick in ui.pressed then DefaultSettings.virtualStick
                            else if m.stick.Some? then m.stick.value else s.virtualStick)
      && r.rotationAnimSpeed == (if m.animSpeed.Some? then m.animSpeed.value else s.rotationAnimSpeed)
      && r.sphereColor == (if m.sphereColor.Some? then m.sphereColor.value else s.sphereColor)
      && r.indirectIntensity == (if r.toggles.rsm && m.indirectIntensity.Some? then m.indirectIntensity.value else s.indirectIntensity)
      && r.keyIntensity == (if m.keyIntensity.Some? then m.keyIntensity.value else s.keyIntensity)
      && r.ambientStrength == (if m.ambient.Some? then m.ambient.value else s.ambientStrength)
      && r.shadowQuality == (if m.shadowQuality.Some? then m.shadowQuality.value else s.shadowQuality)
      && r.shadowIntensity == (if m.shadowIntensity.Some? then m.shadowIntensity.value else s.shadowIntensity)
      && r.metallic == (if m.metallic.Some? then m.metallic.value else s.metallic)
      && r.blueTint == (if m.blueTint.Some? then m.blueTint.value else s.blueTint)
      && r.lightOrthoHalfSize == (if ResetOrtho in ui.pressed then DefaultSettings.lightOrthoHalfSize
                                  else if m.orthoHalfSize.Some? then m.orthoHalfSize.value else s.lightOrthoHalfSize)
  {
  }

  /**
   * The PBR sliders, while PBR is on and not reset in the same frame: the
   * global ones take their moved values, and the per-material pair edits
   * only the sphere the material combo selects after this frame's pick.
   */
  lemma ApplyUiPbrSliders(s: Settings, ui: CornellUi)
    ensures var r := ApplyUi(s, ui); var m := ui.moved;
      r.toggles.pbr && ResetPbr !in ui.pressed ==>
        && r.pbr.globalRoughness == (if m.globalRoughness.Some? then m.globalRoughness.value else s.pbr.globalRoughness)
        && r.pbr.globalMetallic == (if m.globalMetallic.Some? then m.globalMetallic.value else s.pbr.globalMetallic)
        && r.pbr.baseColorIntensity == (if m.baseColorIntensity.Some? then m.baseColorIntensity.value else s.pbr.baseColorIntensity)
        && (r.selectedMaterial == 0 ==>
              && r.pbr.sphere1Roughness == (if m.materialRoughness.Some? then m.materialRoughness.value else s.pbr.sphere1Roughness)
              && r.pbr.sphere1Metallic == (if m.materialMetallic.Some? then m.materialMetallic.value else s.pbr.sphere1Metallic)
              && r.pbr.sphere2Roughness == s.pbr.sphere2Roughness && r.pbr.sphere2Metallic == s.pbr.sphere2Metallic)
        && (r.selectedMaterial != 0 ==>
              && r.pbr.sphere2Roughness == (if m.materialRoughness.Some? then m.materialRoughness.value else s.pbr.sphere2Roughness)
              && r.pbr.sphere2Metallic == (if m.materialMetallic.Some? then m.materialMetallic.value else s.pbr.sphere2Metallic)
              && r.pbr.sphere1Roughness == s.pbr.sphere1Roughness && r.pbr.sphere1Metallic == s.pbr.sphere1Metallic)
  {
  }

  /** A frame nobody touches the panel in leaves the settings as they were. */
  lemma NoInteractionKeepsSettings(s: Settings)
    ensures ApplyUi(s, NoInteraction) == s
  {
    assert ApplyClicks(s.toggles, {}) == s.toggles;
  }

  /**
   * What the panel's widgets report in a frame: the user's input when the
   * context has an ImGui manager; without one no widget runs, which is no
   * interaction at all.
   */
  function PanelInput(ui: Option<CornellUi>): (p: CornellUi)
    ensures ui.Some? ==> p == ui.value
    ensures ui.None? ==> p == NoInteraction
  {
    if ui.Some? then ui.value else NoInteraction
  }

  /**
   * Clicking the same checkboxes twice, with RSM left as it was, restores
   * every checkbox: a click is a toggle.
   */
  lemma ClickTwiceRestores(t: Toggles, clicked: set<Checkbox>)
    requires Rsm !in clicked
    ensures ApplyClicks(ApplyClicks(t, clicked), clicked) == t
  {
  }

  // ---------------------------------------------------------------------
  // The uniform block

  /** The members of the uniform block, each array as a vector of its lanes. */
  datatype CornellUniforms = CornellUniforms(
    iTime: real,
    iResolution: Vec2,
    iMouse: Vec2,
    iFrame: int,
    sphereRotation: Vec4,
    sphereColor: Vec4,
    enableLights: IVec4,
    lightDir: Vec4,
    lightColors: seq<Vec4>,
    ambientColor: Vec4,
    shadowParams: Vec4,
    lightRight: Vec4,
    lightUp: Vec4,
    lightOrigin: Vec4,
    lightOrthoHalfSize: Vec4,
    rsmResolution: Vec4,
    rsmParams: Vec4,
    indirectParams: Vec4,
    debugParams: Vec4,
    pbrParams: Vec4,
    roughnessValues: Vec2,
    metallicValues: Vec2,
    baseColorFactors: Vec4)

  /**
   * What one upload reads besides the settings: the elapsed time, the
   * swapchain extent, the cursor, the frame count, the shadow-map size, the
   * unit light direction computed from the two light angles, and the length
   * the right vector of the light basis is divided by (its Euclidean length
   * plus a small epsilon, so always positive).
   */
  datatype FrameInputs = FrameInputs(
    time: real,
    width: nat,
    height: nat,
    mouse: Vec2,
    frameCounter: int,
    rsmWidth: nat,
    rsmHeight: nat,
    lightDir: Vec3,
    rightLength: real)

  /** The switches the shader reads. */
  datatype Switches = Switches(
    lights: seq<bool>,
    rsm: bool,
    indirect: bool,
    importance: bool,
    showRsmOnly: bool,
    showIndirectOnly: bool,
    pbr: bool)

  /** The switches the host means: indirect lighting counts only while RSM is on. */
  function HostSwitches(t: Toggles): Switches
  {
    Switches([t.key, t.fill, t.rim, t.env], t.rsm, t.rsm && t.indirect, t.importance, t.showRsmOnly, t.showIndirectOnly, t.pbr)
  }

  /** How the shader decodes the switches: an int lane is on when nonzero, a float lane when above 0.5. */
  function ShaderSwitches(u: CornellUniforms): Switches
  {
    Switches(
      [u.enableLights.x != 0, u.enableLights.y != 0, u.enableLights.z != 0, u.enableLights.w != 0],
      u.rsmParams.w > 0.5, u.rsmParams.z > 0.5, u.debugParams.y > 0.5,
      u.debugParams.x > 0.5, u.debugParams.z > 0.5, u.pbrParams.x > 0.5)
  }

  /** Every switch lane holds exactly 0 or 1. */
  predicate SwitchLanesBinary(u: CornellUniforms)
  {
    && (u.enableLights.x == 0 || u.enableLights.x == 1)
    && (u.enableLights.y == 0 || u.enableLights.y == 1)
    && (u.enableLights.z == 0 || u.enableLights.z == 1)
    && (u.enableLights.w == 0 || u.enableLights.w == 1)
    && (u.rsmParams.z == 0.0 || u.rsmParams.z == 1.0)
    && (u.rsmParams.w == 0.0 || u.rsmParams.w == 1.0)
    && (u.debugParams.x == 0.0 || u.debugParams.x == 1.0)
    && (u.debugParams.y == 0.0 || u.debugParams.y == 1.0)
    && (u.debugParams.z == 0.0 || u.debugParams.z == 1.0)
    && (u.pbrParams.x == 0.0 || u.pbrParams.x == 1.0)
  }

  function Lane(b: bool): real
  {
    if b then 1.0 else 0.0
  }

  function IntLane(b: bool): int
  {
    if b then 1 else 0
  }

  function Abs(x: real): real
  {
    if x < 0.0 then -x else x
  }

  function Cross(a: Vec3, b: Vec3): Vec3
  {
    Vec3(a.y * b.z - a.z * b.y, a.z * b.x - a.x * b.z, a.x * b.y - a.y * b.x)
  }

  function Dot(a: Vec3, b: Vec3): real
  {
    a.x * b.x + a.y * b.y + a.z * b.z
  }

  function Xyz(v: Vec4): Vec3
  {
    Vec3(v.x, v.y, v.z)
  }

  /**
   * The helper vector the light basis is built from: world up, unless the
   * light is within about 18 degrees of vertical, where world x is used.
   */
  function UpCandidate(l: Vec3): (up: Vec3)
    ensures Abs(l.y) > 0.95 ==> up == Vec3(1.0, 0.0, 0.0)
    ensures Abs(l.y) <= 0.95 ==> up == Vec3(0.0, 1.0, 0.0)
  {
    if Abs(l.y) > 0.95 then Vec3(1.0, 0.0, 0.0) else Vec3(0.0, 1.0, 0.0)
  }

  /**
   * Choosing the candidate this way keeps the right vector away from zero
   * for every unit light direction: the squared length of
   * `cross(candidate, L)` is never below 0.0975, so dividing by its length
   * is well defined even without the epsilon.
   */
  lemma RightNeverDegenerates(l: Vec3)
    requires Dot(l, l) == 1.0
    ensures var c := Cross(UpCandidate(l), l); Dot(c, c) >= 0.0975
  {
    var c := Cross(UpCandidate(l), l);
    if Abs(l.y) > 0.95 {
      assert c == Vec3(0.0, -l.z, l.y);
      assert l.y * l.y >= 0.95 * 0.95 by {
        if l.y < 0.0 { assert -l.y > 0.95; } else { assert l.y > 0.95; }
      }
    } else {
      assert c == Vec3(l.z, 0.0, -l.x);
      assert l.y * l.y <= 0.95 * 0.95 by {
        var a := Abs(l.y);
        assert 0.0 <= a <= 0.95 && a * a == l.y * l.y;
        assert a * a <= 0.95 * a;
        assert 0.95 * a <= 0.95 * 0.95;
      }
    }
  }

  function Scale(v: Vec3, k: real): Vec3
  {
    Vec3(v.x * k, v.y * k, v.z * k)
  }

  /** The right vector of the light basis: `cross(candidate, L)` divided by its length. */
  function LightRight(l: Vec3, rightLength: real): Vec3
    requires rightLength > 0.0
  {
    Scale(Cross(UpCandidate(l), l), 1.0 / rightLength)
  }

  /** The values of the three non-ambient light colours, rgb and a per-light scalar. */
  const LightColorTable: seq<Vec4> := [Vec4(0.95, 0.98, 1.0, 1.0), Vec4(0.4, 0.6, 0.9, 0.6), Vec4(0.6, 0.8, 1.0, 0.8)]

  /** The joystick turns the sphere: pitch follows the stick's y, yaw its x, 0.02 radians per unit per frame. */
  function StickStep(s: Settings): (r: Settings)
    ensures r.rotationEuler.x == s.rotationEuler.x + s.virtualStick.y * 0.02
    ensures r.rotationEuler.y == s.rotationEuler.y + s.virtualStick.x * 0.02
    ensures r.rotationEuler.z == s.rotationEuler.z
    ensures s.virtualStick == Vec2(0.0, 0.0) ==> r == s
    ensures r.(rotationEuler := s.rotationEuler) == s
  {
    s.(rotationEuler := Vec3(s.rotationEuler.x + s.virtualStick.y * 0.02,
                             s.rotationEuler.y + s.virtualStick.x * 0.02,
                             s.rotationEuler.z))
  }

  /**
   * The block `updateUniformBuffer` fills, from settings already advanced by
   * the joystick. The switch lanes decode to what the host means, and hold
   * nothing but 0 and 1; the shadow-map lanes carry the size of the targets
   * the recording samples.
   */
  function PackUniforms(s: Settings, inp: FrameInputs): (u: CornellUniforms)
    requires inp.rightLength > 0.0
    ensures ShaderSwitches(u) == HostSwitches(s.toggles)
    ensures SwitchLanesBinary(u)
    ensures u.rsmResolution.x == inp.rsmWidth as real && u.rsmResolution.y == inp.rsmHeight as real
    ensures Xyz(u.lightDir) == inp.lightDir && Xyz(u.lightRight) == LightRight(inp.lightDir, inp.rightLength)
  {
    var t := s.toggles;
    var l := inp.lightDir;
    var right := LightRight(l, inp.rightLength);
    var up := Cross(l, right);
    CornellUniforms(
      iTime := inp.time,
      iResolution := Vec2(inp.width as real, inp.height as real),
      iMouse := inp.mouse,
      iFrame := inp.frameCounter,
      sphereRotation := Vec4(s.rotationEuler.x, s.rotationEuler.y, s.rotationEuler.z, inp.time * s.rotationAnimSpeed),
      sphereColor := Vec4(s.sphereColor.x, s.sphereColor.y, s.sphereColor.z, 1.0),
      enableLights := IVec4(IntLane(t.key), IntLane(t.fill), IntLane(t.rim), IntLane(t.env)),
      lightDir := Vec4(l.x, l.y, l.z, s.keyIntensity),
      lightColors := LightColorTable,
      ambientColor := Vec4(0.08, 0.12, 0.22, s.ambientStrength),
      shadowParams := Vec4(s.shadowQuality, s.shadowIntensity, s.blueTint, s.metallic),
      lightRight := Vec4(right.x, right.y, right.z, 0.0),
      lightUp := Vec4(up.x, up.y, up.z, 0.0),
      lightOrigin := Vec4(-l.x * 6.0, -l.y * 6.0, -l.z * 6.0, 1.0),
      lightOrthoHalfSize := Vec4(s.lightOrthoHalfSize.x, s.lightOrthoHalfSize.y, 0.0, 0.0),
      rsmResolution := Vec4(inp.rsmWidth as real, inp.rsmHeight as real, 0.0, 0.0),
      rsmParams := Vec4(6.0, 32.0, Lane(t.rsm && t.indirect), Lane(t.rsm)),
      indirectParams := Vec4(s.indirectIntensity, 0.0, 0.0, 0.0),
      debugParams := Vec4(Lane(t.showRsmOnly), Lane(t.importance), Lane(t.showIndirectOnly), 0.0),
      pbrParams := Vec4(Lane(t.pbr), s.pbr.globalRoughness, s.pbr.globalMetallic, 0.0),
      roughnessValues := Vec2(s.pbr.sphere1Roughness, s.pbr.sphere2Roughness),
      metallicValues := Vec2(s.pbr.sphere1Metallic, s.pbr.sphere2Metallic),
      baseColorFactors := Vec4(1.0, 1.0, 1.0, s.pbr.baseColorIntensity))
  }

  /** The shader never sees indirect lighting switched on while RSM is off. */
  lemma IndirectNeedsRsm(s: Settings, inp: FrameInputs)
    requires inp.rightLength > 0.0
    ensures var sw := ShaderSwitches(PackUniforms(s, inp)); sw.indirect ==> sw.rsm
  {
  }

  /** The lanes that never depend on settings or inputs. */
  function ConstantLanes(u: CornellUniforms): seq<real>
  {
    [u.sphereColor.w, u.ambientColor.x, u.ambientColor.y, u.ambientColor.z,
     u.lightRight.w, u.lightUp.w, u.lightOrigin.w, u.lightOrthoHalfSize.z, u.lightOrthoHalfSize.w,
     u.rsmResolution.z, u.rsmResolution.w, u.rsmParams.x, u.rsmParams.y,
     u.indirectParams.y, u.indirectParams.z, u.indirectParams.w, u.debugParams.w, u.pbrParams.w,
     u.baseColorFactors.x, u.baseColorFactors.y, u.baseColorFactors.z]
  }

  /**
   * The constant lanes are the same in every upload, whatever the settings
   * and the frame: the RSM sampling radius 6 and sample count 32, the
   * homogeneous 0 and 1 of the light basis, the ambient colour, the white
   * base colour factors and every reserved lane.
   */
  lemma ConstantLanesFixed(s: Settings, inp: FrameInputs, s': Settings, inp': FrameInputs)
    requires inp.rightLength > 0.0 && inp'.rightLength > 0.0
    ensures ConstantLanes(PackUniforms(s, inp)) == ConstantLanes(PackUniforms(s', inp'))
    ensures PackUniforms(s, inp).lightColors == PackUniforms(s', inp').lightColors
  {
  }

  /** The light basis is orthogonal: right and up are both perpendicular to the light direction and to each other. */
  lemma LightBasisOrthogonal(s: Settings, inp: FrameInputs)
    requires inp.rightLength > 0.0
    ensures var u := PackUniforms(s, inp);
      && Dot(Xyz(u.lightRight), inp.lightDir) == 0.0
      && Dot(Xyz(u.lightUp), inp.lightDir) == 0.0
      && Dot(Xyz(u.lightUp), Xyz(u.lightRight)) == 0.0
  {
    var l := inp.lightDir;
    var r := LightRight(l, inp.rightLength);
    CrossPerpendicular(UpCandidate(l), l);
    ScalePerpendicular(Cross(UpCandidate(l), l), l, 1.0 / inp.rightLength);
    CrossPerpendicular(l, r);
  }

  lemma CrossPerpendicular(a: Vec3, b: Vec3)
    ensures Dot(Cross(a, b), a) == 0.0 && Dot(Cross(a, b), b) == 0.0
  {
  }

  lemma ScalePerpendicular(v: Vec3, w: Vec3, k: real)
    requires Dot(v, w) == 0.0
    ensures Dot(Scale(v, k), w) == 0.0
  {
    assert Dot(Scale(v, k), w) == k * Dot(v, w);
  }

  /** The light camera sits 6 units back along the light direction, so the direction points from it to the scene. */
  lemma LightOriginBehindScene(s: Settings, inp: FrameInputs)
    requires inp.rightLength > 0.0
    ensures var u := PackUniforms(s, inp);
      Xyz(u.lightOrigin) == Scale(inp.lightDir, -6.0) && u.lightOrigin.w == 1.0
  {
  }
}
