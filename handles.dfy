/**
 * GPU object handles and the engine's resource registry.
 *
 * A handle is an opaque number; 0 plays the part of VK_NULL_HANDLE. The
 * engine's resource manager registers every object it builds under a name and
 * an object type and destroys objects by that name. The model keeps the
 * registry as a map from live handle to the Role it was registered under, and
 * never hands out a handle twice.
 */
module Handles {
  type Handle = nat

  const NullHandle: Handle := 0

  /** The three offscreen targets of the reflective shadow map. */
  datatype RsmTarget = Position | Normal | Flux

  /**
   * The name (and object type) an object is registered under. An image is
   * registered together with its view and its memory, so the three share a
   * role and clearing the image destroys all three.
   */
  datatype Role =
    | SwapchainImage(index: nat)
    | SwapchainView(index: nat)
    | SwapchainFramebuffer(index: nat)
    | MainRenderPass
    | MainPipeline
    | MainPipelineLayout
    | VertexBuffer
    | UniformBuffer
    | UniformAllocation
    | DescriptorLayout
    | DescriptorSetFor(index: nat)
    | CommandPool
    | CommandBufferFor(index: nat)
    | InFlightFence(slot: nat)
    | ImageAvailable(slot: nat)
    | RenderFinished(slot: nat)
    | RsmAttachment(target: RsmTarget)
    | RsmRenderPass
    | RsmFramebuffer
    | RsmSampler
    | RsmPipeline
    | RsmPipelineLayout
    | FlowerTexture
    | FlowerSampler

  /** Families of objects the engine builds several of at once, one per index. */
  datatype Family =
    | SwapchainImages
    | SwapchainViews
    | CommandBuffers
    | Fences
    | ImageAvailableSemaphores
    | RenderFinishedSemaphores

  function Member(f: Family, i: nat): Role
  {
    match f
    case SwapchainImages => SwapchainImage(i)
    case SwapchainViews => SwapchainView(i)
    case CommandBuffers => CommandBufferFor(i)
    case Fences => InFlightFence(i)
    case ImageAvailableSemaphores => ImageAvailable(i)
    case RenderFinishedSemaphores => RenderFinished(i)
  }

  /** The registry: live objects with their roles, and the next unused handle. */
  datatype Table = Table(objects: map<Handle, Role>, next: nat) {

    ghost predicate Valid()
    {
      0 < next && forall h | h in objects :: NullHandle < h < next
    }

    /** `h` is live and registered as `r`. */
    predicate Holds(h: Handle, r: Role)
    {
      h in objects && objects[h] == r
    }

    predicate HoldsAll(hs: seq<Handle>, f: Family)
    {
      forall i {:trigger Holds(hs[i], Member(f, i))} | 0 <= i < |hs| :: Holds(hs[i], Member(f, i))
    }

    /** `hs` and `rs` pair up, and each `hs[i]` is live and registered as `rs[i]`. */
    predicate HoldsEach(hs: seq<Handle>, rs: seq<Role>)
    {
      |hs| == |rs| && forall i | 0 <= i < |hs| :: Holds(hs[i], rs[i])
    }

    /** Every live object of this table is still live, with the same role, in `t`. */
    ghost predicate KeptIn(t: Table)
    {
      forall h | h in objects :: h in t.objects && t.objects[h] == objects[h]
    }

    /** The handle the next creation returns: never null and never live. */
    function Fresh(): (h: Handle)
      requires Valid()
      ensures h != NullHandle && h !in objects
    {
      next
    }

    /** Registers one new object under role `r`. */
    function Create(r: Role): (t: Table)
      requires Valid()
      ensures t.Valid() && KeptIn(t)
      ensures t.Holds(Fresh(), r)
      ensures forall h | h in t.objects :: h in objects || h == Fresh()
    {
      Table(objects[next := r], next + 1)
    }

    /**
     * Destroys every object registered under role `r` (the resource manager
     * clears by name); no other object is touched and no handle is reused.
     */
    function Clear(r: Role): (t: Table)
      requires Valid()
      ensures t.Valid() && t.next == next
      ensures forall h :: h in t.objects <==> h in objects && objects[h] != r
      ensures forall h | h in t.objects :: t.objects[h] == objects[h]
    {
      Table(map h | h in objects && objects[h] != r :: objects[h], next)
    }

    /** Registers one new object per role, in order; the i-th handle is registered under `rs[i]`. */
    function CreateAll(rs: seq<Role>): (r: (Table, seq<Handle>))
      requires Valid()
      ensures r.0.Valid() && Grows(this, r.0) && |r.1| == |rs|
      ensures forall i | 0 <= i < |rs| :: r.1[i] >= next && r.0.Holds(r.1[i], rs[i])
      decreases |rs|
    {
      if rs == [] then (this, [])
      else
        var t := Create(rs[0]);
        CreateGrows(this, rs[0]);
        var rest := t.CreateAll(rs[1..]);
        GrowsTransitive(this, t, rest.0);
        var hs := [Fresh()] + rest.1;
        assert forall i | 1 <= i < |rs| :: hs[i] == rest.1[i - 1] && rs[i] == rs[1..][i - 1];
        (rest.0, hs)
    }

    /** Registers `n` new objects, the i-th under `Member(f, start + i)`. */
    function CreateMany(n: nat, f: Family, start: nat): (r: (Table, seq<Handle>))
      requires Valid()
      ensures r.0.Valid() && KeptIn(r.0) && |r.1| == n
      ensures forall i | 0 <= i < n :: r.1[i] !in objects && r.0.Holds(r.1[i], Member(f, start + i))
      decreases n
    {
      if n == 0 then (this, [])
      else
        var t := Create(Member(f, start));
        var rest := t.CreateMany(n - 1, f, start + 1);
        var hs := [Fresh()] + rest.1;
        assert KeptIn(rest.0) by {
          forall h | h in objects ensures h in rest.0.objects && rest.0.objects[h] == objects[h] {
            assert h in t.objects && t.objects[h] == objects[h];
          }
        }
        assert forall i | 1 <= i < n :: hs[i] == rest.1[i - 1];
        (rest.0, hs)
    }
  }

  /**
   * `t'` came from `t` by building objects only: everything live in `t`
   * is still live with the same role, and every other live object of `t'`
   * has a handle `t` had not yet handed out.
   */
  ghost predicate Grows(t: Table, t': Table)
  {
    && t.KeptIn(t') && t.next <= t'.next
    && forall h | h in t'.objects :: h in t.objects || h >= t.next
  }

  lemma CreateGrows(t: Table, r: Role)
    requires t.Valid()
    ensures Grows(t, t.Create(r))
  {
  }

  lemma GrowsTransitive(a: Table, b: Table, c: Table)
    requires Grows(a, b) && Grows(b, c)
    ensures Grows(a, c)
  {
  }

  lemma KeptInTransitive(a: Table, b: Table, c: Table)
    requires a.KeptIn(b) && b.KeptIn(c)
    ensures a.KeptIn(c)
  {
  }

  /** The registry before anything is built. */
  const EmptyTable: Table := Table(map[], 1)

  lemma EmptyTableValid()
    ensures EmptyTable.Valid() && EmptyTable.objects == map[]
  {
  }
}
