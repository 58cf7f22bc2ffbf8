/**
 * The objects the three demos build the same way: the swapchain's images and
 * views, the main render pass, one framebuffer, descriptor set and command
 * buffer per swapchain image, and one fence and semaphore pair per frame slot;
 * what it means for each of them to be live in the registry.
 */
module FrameResources {
  import opened Handles
  import opened Commands
  import opened FrameLoop

  /** The swapchain the window system hands out: its images, their views, its extent. */
  datatype Swapchain = Swapchain(images: seq<Handle>, views: seq<Handle>, width: nat, height: nat)

  const NoSwapchain: Swapchain := Swapchain([], [], 0, 0)
  const NoRenderPass: RenderPass := RenderPass(NullHandle, [])
  const NoFramebuffer: Framebuffer := Framebuffer(NullHandle, [], [], 0, 0)
  const NoDescriptorSet: DescriptorSet := DescriptorSet(NullHandle, [])

  /** The framebuffer of one swapchain image: that image's view alone, at the swapchain extent. */
  predicate IsSwapchainFramebuffer(fb: Framebuffer, image: Handle, view: Handle, width: nat, height: nat)
  {
    fb.images == [image] && fb.views == [view] && fb.width == width && fb.height == height
  }

  /**
   * Sizes the framebuffer list to the number of swapchain views and builds
   * framebuffer `i` from view `i`, each a new object registered for index `i`.
   */
  method BuildFramebuffers(t: Table, images: seq<Handle>, views: seq<Handle>, width: nat, height: nat)
    returns (t': Table, fbs: seq<Framebuffer>)
    requires t.Valid() && |images| == |views|
    ensures t'.Valid() && t.KeptIn(t')
    ensures |fbs| == |views|
    ensures forall i | 0 <= i < |fbs| ::
      && IsSwapchainFramebuffer(fbs[i], images[i], views[i], width, height)
      && fbs[i].id !in t.objects
      && t'.Holds(fbs[i].id, SwapchainFramebuffer(i))
  {
    t' := t;
    fbs := seq(|views|, _ => NoFramebuffer);
    var i := 0;
    while i < |views|
      invariant 0 <= i <= |views| && |fbs| == |views|
      invariant t'.Valid() && t.KeptIn(t')
      invariant forall k | 0 <= k < i ::
        && IsSwapchainFramebuffer(fbs[k], images[k], views[k], width, height)
        && fbs[k].id !in t.objects
        && t'.Holds(fbs[k].id, SwapchainFramebuffer(k))
    {
      var id := t'.Fresh();
      t' := t'.Create(SwapchainFramebuffer(i));
      fbs := fbs[i := Framebuffer(id, [images[i]], [views[i]], width, height)];
      i := i + 1;
    }
  }

  /** Sizes the descriptor-set list to `count` and builds set `i`, a new object, writing `bindings` into it. */
  method BuildDescriptorSets(t: Table, count: nat, bindings: seq<Binding>)
    returns (t': Table, sets: seq<DescriptorSet>)
    requires t.Valid()
    ensures t'.Valid() && t.KeptIn(t')
    ensures |sets| == count
    ensures forall i | 0 <= i < count ::
      sets[i].bindings == bindings && sets[i].id !in t.objects && t'.Holds(sets[i].id, DescriptorSetFor(i))
  {
    t' := t;
    sets := seq(count, _ => NoDescriptorSet);
    var i := 0;
    while i < count
      invariant 0 <= i <= count && |sets| == count
      invariant t'.Valid() && t.KeptIn(t')
      invariant forall k | 0 <= k < i ::
        sets[k].bindings == bindings && sets[k].id !in t.objects && t'.Holds(sets[k].id, DescriptorSetFor(k))
    {
      var id := t'.Fresh();
      t' := t'.Create(DescriptorSetFor(i));
      sets := sets[i := DescriptorSet(id, bindings)];
      i := i + 1;
    }
  }

  predicate IsOldSet(r: Role, count: nat)
  {
    r.DescriptorSetFor? && r.index < count
  }

  /**
   * Rebuilds the descriptor sets: for each index the set registered under it
   * is destroyed first, then a new one is built with `bindings`. Afterwards
   * the only live set of each index is the new one, and every other object is
   * untouched.
   */
  method RebuildDescriptorSets(t: Table, count: nat, bindings: seq<Binding>)
    returns (t': Table, sets: seq<DescriptorSet>)
    requires t.Valid()
    ensures t'.Valid()
    ensures |sets| == count
    ensures forall i | 0 <= i < count ::
      sets[i].bindings == bindings && sets[i].id !in t.objects && t'.Holds(sets[i].id, DescriptorSetFor(i))
    ensures forall h | h in t'.objects && IsOldSet(t'.objects[h], count) :: h == sets[t'.objects[h].index].id
    ensures forall h | h in t.objects && !IsOldSet(t.objects[h], count) :: h in t'.objects && t'.objects[h] == t.objects[h]
    ensures forall h | h in t'.objects && h in t.objects :: t'.objects[h] == t.objects[h]
    ensures forall h | h in t'.objects :: h in t.objects || h >= t.next
  {
    t' := t;
    sets := seq(count, _ => NoDescriptorSet);
    var i := 0;
    while i < count
      invariant 0 <= i <= count && |sets| == count
      invariant t'.Valid() && t.next <= t'.next
      invariant forall k | 0 <= k < i ::
        sets[k].bindings == bindings && sets[k].id !in t.objects && t'.Holds(sets[k].id, DescriptorSetFor(k))
      invariant forall h | h in t'.objects && IsOldSet(t'.objects[h], i) :: h == sets[t'.objects[h].index].id
      invariant forall h | h in t'.objects :: h in t.objects || h >= t.next
      invariant forall h | h in t'.objects && h in t.objects :: t'.objects[h] == t.objects[h]
      invariant forall h | h in t.objects && !IsOldSet(t.objects[h], i) ::
        IsOldSet(t.objects[h], count) || (h in t'.objects && t'.objects[h] == t.objects[h])
      invariant forall h | h in t.objects && IsOldSet(t.objects[h], count) && !IsOldSet(t.objects[h], i) ::
        h in t'.objects && t'.objects[h] == t.objects[h]
    {
      t' := t'.Clear(DescriptorSetFor(i));
      var id := t'.Fresh();
      t' := t'.Create(DescriptorSetFor(i));
      sets := sets[i := DescriptorSet(id, bindings)];
      i := i + 1;
    }
  }

  /** Frame slot `k`'s fence and semaphores are live under its own names. */
  predicate SlotLive(t: Table, s: SlotSync, k: nat)
  {
    t.Holds(s.fence, InFlightFence(k)) && t.Holds(s.imageAvailable, ImageAvailable(k)) && t.Holds(s.renderFinished, RenderFinished(k))
  }

  /** The swapchain's images and views are live, one of each per index. */
  predicate SwapchainLive(t: Table, sc: Swapchain)
  {
    |sc.views| == |sc.images| && t.HoldsAll(sc.images, SwapchainImages) && t.HoldsAll(sc.views, SwapchainViews)
  }

  /** The main render pass is live and leaves its attachment ready to present. */
  predicate MainPassLive(t: Table, pass: RenderPass)
  {
    pass.finalLayouts == [PresentSrc] && t.HoldsEach([pass.id], [MainRenderPass])
  }

  lemma MainPassLiveMeans(t: Table, pass: RenderPass)
    requires MainPassLive(t, pass)
    ensures t.Holds(pass.id, MainRenderPass)
  {
    assert t.Holds([pass.id][0], [MainRenderPass][0]);
  }

  /** One live framebuffer per swapchain image, attaching that image's view. */
  predicate FramebuffersLive(t: Table, sc: Swapchain, fbs: seq<Framebuffer>)
  {
    && |fbs| == |sc.images| && |sc.views| == |sc.images|
    && forall i {:trigger t.Holds(fbs[i].id, SwapchainFramebuffer(i))} | 0 <= i < |fbs| ::
      && IsSwapchainFramebuffer(fbs[i], sc.images[i], sc.views[i], sc.width, sc.height)
      && t.Holds(fbs[i].id, SwapchainFramebuffer(i))
  }

  /** `n` live descriptor sets, set `i` registered for index `i`, each holding `bindings`. */
  predicate DescriptorSetsLive(t: Table, sets: seq<DescriptorSet>, n: nat, bindings: seq<Binding>)
  {
    |sets| == n && forall i {:trigger t.Holds(sets[i].id, DescriptorSetFor(i))} | 0 <= i < |sets| :: sets[i].bindings == bindings && t.Holds(sets[i].id, DescriptorSetFor(i))
  }

  /** The command pool and one live command buffer per swapchain image. */
  predicate CommandBuffersLive(t: Table, pool: Handle, cbs: seq<Handle>, n: nat)
  {
    t.HoldsEach([pool], [CommandPool]) && |cbs| == n && t.HoldsAll(cbs, CommandBuffers)
  }

  /** Each of the `n` frame slots has its live fence and semaphore pair. */
  predicate SyncLive(t: Table, sync: seq<SlotSync>, n: nat)
  {
    |sync| == n && forall k {:trigger SlotLive(t, sync[k], k)} | 0 <= k < |sync| :: SlotLive(t, sync[k], k)
  }

  lemma SwapchainFramebuffersNoDangling(t: Table, sc: Swapchain, fbs: seq<Framebuffer>)
    requires SwapchainLive(t, sc) && FramebuffersLive(t, sc, fbs)
    ensures forall i | 0 <= i < |fbs| :: FramebufferRefs(fbs[i]) <= t.objects.Keys
  {
    forall i | 0 <= i < |fbs|
      ensures FramebufferRefs(fbs[i]) <= t.objects.Keys
    {
      assert t.Holds(sc.images[i], Member(SwapchainImages, i)) && t.Holds(sc.views[i], Member(SwapchainViews, i));
      assert t.Holds(fbs[i].id, SwapchainFramebuffer(i));
    }
  }

  lemma DescriptorSetsKept(t: Table, t': Table, sets: seq<DescriptorSet>, n: nat, bindings: seq<Binding>)
    requires t.KeptIn(t') && DescriptorSetsLive(t, sets, n, bindings)
    ensures DescriptorSetsLive(t', sets, n, bindings)
  {
    forall i | 0 <= i < |sets|
      ensures sets[i].bindings == bindings && t'.Holds(sets[i].id, DescriptorSetFor(i))
    {
      assert t.Holds(sets[i].id, DescriptorSetFor(i));
    }
  }

  /** The swapchain manager's images and their views, `imageCount` of each, at the given extent. */
  method CreateSwapchain(t: Table, imageCount: nat, width: nat, height: nat) returns (t': Table, sc: Swapchain)
    requires t.Valid()
    ensures t'.Valid() && t.KeptIn(t')
    ensures |sc.images| == imageCount && sc.width == width && sc.height == height
    ensures SwapchainLive(t', sc)
  {
    var images := t.CreateMany(imageCount, SwapchainImages, 0);
    var views := images.0.CreateMany(imageCount, SwapchainViews, 0);
    t' := views.0;
    sc := Swapchain(images.1, views.1, width, height);
    assert forall i | 0 <= i < imageCount :: images.0.Holds(images.1[i], SwapchainImage(i));
  }

  /** `createRenderPass`: one colour attachment, left ready for presentation. */
  method CreateRenderPass(t: Table) returns (t': Table, pass: RenderPass)
    requires t.Valid()
    ensures t'.Valid() && t.KeptIn(t')
    ensures MainPassLive(t', pass) && pass.id !in t.objects
  {
    pass := RenderPass(t.Fresh(), [PresentSrc]);
    t' := t.Create(MainRenderPass);
  }

  /**
   * `createCommandBuffers`: the pool, unless one exists already, and one
   * command buffer per swapchain view.
   */
  method CreateCommandBuffers(t: Table, pool: Handle, viewCount: nat) returns (t': Table, pool': Handle, cbs: seq<Handle>)
    requires t.Valid() && (pool == NullHandle || t.Holds(pool, CommandPool))
    ensures t'.Valid() && t.KeptIn(t')
    ensures pool != NullHandle ==> pool' == pool
    ensures CommandBuffersLive(t', pool', cbs, viewCount)
  {
    var t1 := t;
    pool' := pool;
    if pool == NullHandle {
      pool' := t.Fresh();
      t1 := t.Create(CommandPool);
    }
    var built := t1.CreateMany(viewCount, CommandBuffers, 0);
    t' := built.0;
    cbs := built.1;
  }

  /** The fence and the two semaphores of frame slot `k`. */
  function CreateSlot(t: Table, k: nat): (r: (Table, SlotSync))
    requires t.Valid()
    ensures r.0.Valid() && t.KeptIn(r.0) && SlotLive(r.0, r.1, k)
  {
    var made := t.CreateAll([InFlightFence(k), ImageAvailable(k), RenderFinished(k)]);
    (made.0, SlotSync(made.1[0], made.1[1], made.1[2]))
  }

  /** Building more objects keeps the slots built so far live. */
  lemma SlotsKept(t: Table, t': Table, sync: seq<SlotSync>)
    requires t.KeptIn(t') && forall j | 0 <= j < |sync| :: SlotLive(t, sync[j], j)
    ensures forall j | 0 <= j < |sync| :: SlotLive(t', sync[j], j)
  {
    forall j | 0 <= j < |sync|
      ensures SlotLive(t', sync[j], j)
    {
      assert SlotLive(t, sync[j], j);
    }
  }

  /** The synchronisation manager's fence and semaphore pair for each of the `slots` frames in flight. */
  method CreateFrameSynchronization(t: Table, slots: nat) returns (t': Table, sync: seq<SlotSync>)
    requires t.Valid()
    ensures t'.Valid() && t.KeptIn(t')
    ensures SyncLive(t', sync, slots)
  {
    t' := t;
    sync := [];
    var k := 0;
    while k < slots
      invariant 0 <= k <= slots && |sync| == k
      invariant t'.Valid() && t.KeptIn(t')
      invariant forall j | 0 <= j < k :: SlotLive(t', sync[j], j)
    {
      var made := CreateSlot(t', k);
      SlotsKept(t', made.0, sync);
      KeptInTransitive(t, t', made.0);
      t' := made.0;
      sync := sync + [made.1];
      k := k + 1;
    }
  }

  // Building more objects leaves what was live live.

  lemma SwapchainStaysLive(t: Table, t': Table, sc: Swapchain)
    requires t.KeptIn(t') && SwapchainLive(t, sc)
    ensures SwapchainLive(t', sc)
  {
    assert forall i | 0 <= i < |sc.images| :: t.Holds(sc.images[i], Member(SwapchainImages, i));
    assert forall i | 0 <= i < |sc.views| :: t.Holds(sc.views[i], Member(SwapchainViews, i));
  }

  lemma FramebuffersStayLive(t: Table, t': Table, sc: Swapchain, fbs: seq<Framebuffer>)
    requires t.KeptIn(t') && FramebuffersLive(t, sc, fbs)
    ensures FramebuffersLive(t', sc, fbs)
  {
    forall i | 0 <= i < |fbs|
      ensures IsSwapchainFramebuffer(fbs[i], sc.images[i], sc.views[i], sc.width, sc.height)
      ensures t'.Holds(fbs[i].id, SwapchainFramebuffer(i))
    {
      assert t.Holds(fbs[i].id, SwapchainFramebuffer(i));
    }
  }

  lemma CommandBuffersStayLive(t: Table, t': Table, pool: Handle, cbs: seq<Handle>, n: nat)
    requires t.KeptIn(t') && CommandBuffersLive(t, pool, cbs, n)
    ensures CommandBuffersLive(t', pool, cbs, n)
  {
    assert forall i | 0 <= i < |cbs| :: t.Holds(cbs[i], Member(CommandBuffers, i));
    assert t.Holds([pool][0], [CommandPool][0]);
  }

  lemma HoldsEachStays(t: Table, t': Table, hs: seq<Handle>, rs: seq<Role>)
    requires t.KeptIn(t') && t.HoldsEach(hs, rs)
    ensures t'.HoldsEach(hs, rs)
  {
    assert forall i | 0 <= i < |hs| :: t.Holds(hs[i], rs[i]);
  }
}
