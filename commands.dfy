/**
 * Recorded GPU work, at the level of detail the demos' ordering and lifetime
 * properties need: which render passes begin on which framebuffers, which
 * descriptor sets and buffers are bound, which images change layout. Render
 * passes, framebuffers and descriptor sets travel by value inside the
 * commands, so the handles a command buffer reads can be read off its
 * commands.
 */
module Commands {
  import opened Wrappers
  import opened Handles

  datatype ImageLayout = Undefined | ColorAttachment | ShaderReadOnly | PresentSrc

  datatype Color = Color(r: real, g: real, b: real, a: real)

  /** A render pass and the layout each of its attachments is left in when the pass ends. */
  datatype RenderPass = RenderPass(id: Handle, finalLayouts: seq<ImageLayout>)

  /** A framebuffer: the views it attaches, the images behind them, and its extent. */
  datatype Framebuffer = Framebuffer(id: Handle, images: seq<Handle>, views: seq<Handle>, width: nat, height: nat)

  datatype Binding =
    | UniformBufferBinding(buffer: Handle)
    | ImageSamplerBinding(view: Handle, sampler: Handle)

  /** A descriptor set; binding number `b` is `bindings[b]`. */
  datatype DescriptorSet = DescriptorSet(id: Handle, bindings: seq<Binding>)

  datatype Command =
    | BeginCommandBuffer
    | BeginRenderPass(pass: RenderPass, framebuffer: Framebuffer, clears: seq<Color>, width: nat, height: nat)
    | BindPipeline(pipeline: Handle)
    | SetViewport(width: nat, height: nat)
    | SetScissor(width: nat, height: nat)
    | BindDescriptorSet(layout: Handle, descriptorSet: DescriptorSet)
    | BindVertexBuffer(buffer: Handle)
    | Draw(vertexCount: nat)
    | TransitionLayout(image: Handle, from: ImageLayout, to: ImageLayout)
    | RecordUi
    | EndRenderPass
    | EndCommandBuffer

  /**
   * The control panel's draw commands: recorded only when the context has
   * an ImGui manager, and then once.
   */
  function UiRecording(hasUi: bool): (cmds: seq<Command>)
  {
    if hasUi then [RecordUi] else []
  }

  function BindingRefs(b: Binding): set<Handle>
  {
    match b
    case UniformBufferBinding(buffer) => {buffer}
    case ImageSamplerBinding(view, sampler) => {view, sampler}
  }

  function BindingsRefs(bs: seq<Binding>): (r: set<Handle>)
    ensures forall i | 0 <= i < |bs| :: BindingRefs(bs[i]) <= r
    decreases |bs|
  {
    if bs == [] then {} else BindingRefs(bs[0]) + BindingsRefs(bs[1..])
  }

  /** The descriptor set itself and everything it binds. */
  function SetRefs(s: DescriptorSet): set<Handle>
  {
    {s.id} + BindingsRefs(s.bindings)
  }

  function FramebufferRefs(f: Framebuffer): set<Handle>
  {
    {f.id} + (set i | 0 <= i < |f.images| :: f.images[i]) + (set i | 0 <= i < |f.views| :: f.views[i])
  }

  /** The GPU objects one command reads when it executes. */
  function CommandRefs(c: Command): set<Handle>
  {
    match c
    case BeginRenderPass(pass, fb, _, _, _) => {pass.id} + FramebufferRefs(fb)
    case BindPipeline(p) => {p}
    case BindDescriptorSet(layout, s) => {layout} + SetRefs(s)
    case BindVertexBuffer(b) => {b}
    case TransitionLayout(image, _, _) => {image}
    case _ => {}
  }

  /** The GPU objects a recorded command buffer reads. */
  function Refs(cmds: seq<Command>): set<Handle>
    decreases |cmds|
  {
    if cmds == [] then {} else CommandRefs(cmds[0]) + Refs(cmds[1..])
  }

  lemma {:induction false} RefsAppend(a: seq<Command>, b: seq<Command>)
    ensures Refs(a + b) == Refs(a) + Refs(b)
    decreases |a|
  {
    if a == [] {
      assert a + b == b;
    } else {
      assert (a + b)[0] == a[0] && (a + b)[1..] == a[1..] + b;
      RefsAppend(a[1..], b);
    }
  }

  /** A command's references are among the command buffer's. */
  lemma {:induction false} RefsCover(cmds: seq<Command>, i: nat)
    requires i < |cmds|
    ensures CommandRefs(cmds[i]) <= Refs(cmds)
    decreases i
  {
    if i > 0 {
      RefsCover(cmds[1..], i - 1);
    }
  }

  /** The render pass in progress while a command buffer executes. */
  datatype OpenPass = OpenPass(pass: RenderPass, framebuffer: Framebuffer)

  /** What executing commands does to image layouts. */
  datatype GpuState = GpuState(layouts: map<Handle, ImageLayout>, open: Option<OpenPass>)

  /** Each attachment image takes its pass's final layout (a later duplicate wins). */
  function ApplyFinalLayouts(layouts: map<Handle, ImageLayout>, images: seq<Handle>, finals: seq<ImageLayout>): map<Handle, ImageLayout>
    decreases |images|
  {
    if images == [] || finals == [] then layouts
    else ApplyFinalLayouts(layouts[images[0] := finals[0]], images[1..], finals[1..])
  }

  /**
   * One command's effect. A layout transition sets the image's new layout
   * whatever its old one (an UNDEFINED old layout lets the GPU discard the
   * contents); ending a render pass gives every attachment its final layout.
   */
  function Step(st: GpuState, c: Command): GpuState
  {
    match c
    case BeginRenderPass(pass, fb, _, _, _) => st.(open := Some(OpenPass(pass, fb)))
    case EndRenderPass =>
      (match st.open
       case Some(p) => GpuState(ApplyFinalLayouts(st.layouts, p.framebuffer.images, p.pass.finalLayouts), None)
       case None => st)
    case TransitionLayout(image, _, to) => st.(layouts := st.layouts[image := to])
    case _ => st
  }

  function Replay(st: GpuState, cmds: seq<Command>): GpuState
    decreases |cmds|
  {
    if cmds == [] then st else Replay(Step(st, cmds[0]), cmds[1..])
  }

  lemma {:induction false} ReplayAppend(st: GpuState, a: seq<Command>, b: seq<Command>)
    ensures Replay(st, a + b) == Replay(Replay(st, a), b)
    decreases |a|
  {
    if a == [] {
      assert a + b == b;
    } else {
      assert (a + b)[0] == a[0] && (a + b)[1..] == a[1..] + b;
      ReplayAppend(Step(st, a[0]), a[1..], b);
    }
  }

  /** When every final layout is `l`, every attachment image ends in `l`; other images keep theirs. */
  lemma {:induction false} UniformFinalLayouts(layouts: map<Handle, ImageLayout>, images: seq<Handle>, finals: seq<ImageLayout>, l: ImageLayout)
    requires |images| <= |finals|
    requires forall k | 0 <= k < |finals| :: finals[k] == l
    ensures var r := ApplyFinalLayouts(layouts, images, finals);
      (forall k | 0 <= k < |images| :: images[k] in r && r[images[k]] == l) &&
      (forall x | x in layouts && x !in images :: x in r && r[x] == layouts[x])
    decreases |images|
  {
    if images != [] {
      UniformFinalLayouts(layouts[images[0] := finals[0]], images[1..], finals[1..], l);
      var r := ApplyFinalLayouts(layouts, images, finals);
      assert forall k | 1 <= k < |images| :: images[k] == images[1..][k - 1];
      assert forall x | x !in images :: x !in images[1..] && x != images[0];
    }
  }

  /** How many render passes with handle `pass` the commands begin. */
  function CountBegins(cmds: seq<Command>, pass: Handle): nat
    decreases |cmds|
  {
    if cmds == [] then 0
    else (if cmds[0].BeginRenderPass? && cmds[0].pass.id == pass then 1 else 0) + CountBegins(cmds[1..], pass)
  }

  lemma {:induction false} CountBeginsAppend(a: seq<Command>, b: seq<Command>, pass: Handle)
    ensures CountBegins(a + b, pass) == CountBegins(a, pass) + CountBegins(b, pass)
    decreases |a|
  {
    if a == [] {
      assert a + b == b;
    } else {
      assert (a + b)[0] == a[0] && (a + b)[1..] == a[1..] + b;
      CountBeginsAppend(a[1..], b, pass);
    }
  }

  /** Binding, drawing and viewport commands leave layouts and the open pass alone. */
  lemma {:induction false} ReplayInsidePass(st: GpuState, cmds: seq<Command>)
    requires forall i | 0 <= i < |cmds| :: !cmds[i].BeginRenderPass? && !cmds[i].EndRenderPass? && !cmds[i].TransitionLayout?
    ensures Replay(st, cmds) == st
    decreases |cmds|
  {
    if cmds != [] {
      assert Step(st, cmds[0]) == st;
      ReplayInsidePass(st, cmds[1..]);
    }
  }

  /** Commands that begin no render pass count no begins. */
  lemma {:induction false} NoBegins(cmds: seq<Command>, pass: Handle)
    requires forall i | 0 <= i < |cmds| :: !cmds[i].BeginRenderPass?
    ensures CountBegins(cmds, pass) == 0
    decreases |cmds|
  {
    if cmds != [] {
      NoBegins(cmds[1..], pass);
    }
  }

  /** A command buffer reads only what its commands read. */
  lemma {:induction false} RefsWithin(cmds: seq<Command>, s: set<Handle>)
    requires forall i | 0 <= i < |cmds| :: CommandRefs(cmds[i]) <= s
    ensures Refs(cmds) <= s
    decreases |cmds|
  {
    if cmds != [] {
      RefsWithin(cmds[1..], s);
    }
  }
}
