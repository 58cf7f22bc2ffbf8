/**
 * Byte layout of a C++ struct whose members carry `alignas` specifiers, as the
 * compiler lays it out: each member starts at the first offset at or after the
 * end of the previous one that is a multiple of its alignment, the struct is
 * aligned to its strictest member, and its size is rounded up to that
 * alignment. The uniform blocks of the three demos are such structs; their
 * offsets must agree with the std140 layout the shaders declare.
 */
module StructLayout {

  type Pos = n: nat | n > 0 witness 1

  /** One member: its name, its `alignas` value, the natural alignment of its element type, its size in bytes. */
  datatype Field = Field(name: string, alignAs: Pos, elemAlign: Pos, size: nat)

  predicate IsPow2(n: nat)
    decreases n
  {
    n == 1 || (n > 1 && n % 2 == 0 && IsPow2(n / 2))
  }

  /**
   * C++ accepts an `alignas` only if it is a power of two that is at least the
   * natural alignment of the member's type (it may strengthen, never weaken).
   */
  predicate WellFormedField(f: Field)
  {
    IsPow2(f.alignAs) && IsPow2(f.elemAlign) && f.elemAlign <= f.alignAs
  }

  predicate WellFormed(fs: seq<Field>)
  {
    forall i | 0 <= i < |fs| :: WellFormedField(fs[i])
  }

  lemma MultipleMod(k: nat, a: nat)
    requires a > 0
    ensures (k * a) % a == 0 && (k * a) / a == k
  {
    var r := k * a;
    var d := r / a;
    assert r == a * d + r % a;
    var e := k - d;
    assert a * e == r % a;
    assert e >= 1 ==> a * e >= a;
    assert e <= -1 ==> a * e <= -(a as int);
  }

  /** The least multiple of `a` at or above `x`. */
  function RoundUp(x: nat, a: nat): (r: nat)
    requires a > 0
    ensures r % a == 0 && x <= r < x + a
  {
    if x % a == 0 then x
    else
      MultipleMod(x / a + 1, a);
      (x / a + 1) * a
  }

  /** Where the `i`-th member may begin at the earliest: the end of the member before it (0 for the first). */
  function EndBefore(fs: seq<Field>, i: nat): nat
    requires i <= |fs|
    decreases i
  {
    if i == 0 then 0
    else RoundUp(EndBefore(fs, i - 1), fs[i - 1].alignAs) + fs[i - 1].size
  }

  /** The offset of the `i`-th member: aligned, and at or after the end of its predecessor. */
  function OffsetOf(fs: seq<Field>, i: nat): (o: nat)
    requires i < |fs|
    ensures o % fs[i].alignAs == 0 && EndBefore(fs, i) <= o
    ensures o + fs[i].size == EndBefore(fs, i + 1)
  {
    RoundUp(EndBefore(fs, i), fs[i].alignAs)
  }

  /** A multiple of `a` in `[x, x + a)` is the rounded-up value itself. */
  lemma RoundUpUnique(x: nat, a: nat, o: nat)
    requires a > 0 && o % a == 0 && x <= o < x + a
    ensures RoundUp(x, a) == o
  {
    var r := RoundUp(x, a);
    var e := o / a - r / a;
    assert o - r == a * e by {
      assert r == a * (r / a) + r % a;
      assert o == a * (o / a) + o % a;
    }
    assert e >= 1 ==> a * e >= a;
    assert e <= -1 ==> a * e <= -(a as int);
  }

  /**
   * Placing member `i` once its predecessors end at `e`: when `o` is the
   * first multiple of its alignment at or after `e`, the member starts at
   * `o` and ends `size` bytes later.
   */
  lemma Place(fs: seq<Field>, i: nat, e: nat, o: nat)
    requires i < |fs| && EndBefore(fs, i) == e
    requires o % fs[i].alignAs == 0 && e <= o < e + fs[i].alignAs
    ensures OffsetOf(fs, i) == o && EndBefore(fs, i + 1) == o + fs[i].size
  {
    RoundUpUnique(e, fs[i].alignAs, o);
  }

  /**
   * A table of where each member begins and where the members before each
   * index end, checked member by member against the placement rule.
   */
  predicate LayoutTable(fs: seq<Field>, ends: seq<nat>, offs: seq<nat>)
  {
    |ends| == |fs| + 1 && |offs| == |fs| && ends[0] == 0 &&
    forall i | 0 <= i < |fs| :: PlacedAt(fs, ends, offs, i)
  }

  /** Member `i` starts at the first multiple of its alignment after `ends[i]`, and ends at `ends[i + 1]`. */
  predicate PlacedAt(fs: seq<Field>, ends: seq<nat>, offs: seq<nat>, i: nat)
    requires i < |fs| && |ends| == |fs| + 1 && |offs| == |fs|
  {
    offs[i] % fs[i].alignAs == 0 && ends[i] <= offs[i] < ends[i] + fs[i].alignAs &&
    ends[i + 1] == offs[i] + fs[i].size
  }

  /** A table that obeys the placement rule is the layout. */
  lemma {:induction false} LayoutTableEnds(fs: seq<Field>, ends: seq<nat>, offs: seq<nat>, n: nat)
    requires LayoutTable(fs, ends, offs) && n <= |fs|
    ensures EndBefore(fs, n) == ends[n]
    ensures forall i | 0 <= i < n :: OffsetOf(fs, i) == offs[i]
    decreases n
  {
    if n > 0 {
      LayoutTableEnds(fs, ends, offs, n - 1);
      assert PlacedAt(fs, ends, offs, n - 1);
      Place(fs, n - 1, ends[n - 1], offs[n - 1]);
    }
  }

  lemma LayoutTableOffsets(fs: seq<Field>, ends: seq<nat>, offs: seq<nat>)
    requires LayoutTable(fs, ends, offs)
    ensures Offsets(fs) == offs && EndBefore(fs, |fs|) == ends[|fs|]
  {
    LayoutTableEnds(fs, ends, offs, |fs|);
  }

  /** The struct's alignment: the strictest alignment among its first `n` members (1 when there are none). */
  function AlignUpTo(fs: seq<Field>, n: nat): Pos
    requires n <= |fs|
    decreases n
  {
    if n == 0 then 1
    else
      var rest := AlignUpTo(fs, n - 1);
      if fs[n - 1].alignAs > rest then fs[n - 1].alignAs else rest
  }

  /** When the first member has alignment `a` and none has a stricter one, the struct's alignment is `a`. */
  lemma {:induction false} AlignUpToBounded(fs: seq<Field>, a: nat, n: nat)
    requires 0 < n <= |fs| && fs[0].alignAs == a
    requires forall i | 0 <= i < |fs| :: fs[i].alignAs <= a
    ensures AlignUpTo(fs, n) == a
    decreases n
  {
    if n > 1 {
      AlignUpToBounded(fs, a, n - 1);
    }
  }

  /** The offsets of all members, in declaration order. */
  function Offsets(fs: seq<Field>): (os: seq<nat>)
    ensures |os| == |fs| && forall i | 0 <= i < |fs| :: os[i] == OffsetOf(fs, i)
  {
    seq(|fs|, i requires 0 <= i < |fs| => OffsetOf(fs, i))
  }

  function StructAlign(fs: seq<Field>): Pos
  {
    AlignUpTo(fs, |fs|)
  }

  function SizeOf(fs: seq<Field>): nat
  {
    RoundUp(EndBefore(fs, |fs|), StructAlign(fs))
  }

  lemma {:induction false} EndBeforeMonotone(fs: seq<Field>, i: nat, j: nat)
    requires i <= j <= |fs|
    ensures EndBefore(fs, i) <= EndBefore(fs, j)
    decreases j
  {
    if i < j {
      EndBeforeMonotone(fs, i, j - 1);
    }
  }

  /** Members do not overlap and keep declaration order. */
  lemma MembersDisjoint(fs: seq<Field>)
    ensures forall i, j | 0 <= i < j < |fs| :: OffsetOf(fs, i) + fs[i].size <= OffsetOf(fs, j)
  {
    forall i, j | 0 <= i < j < |fs|
      ensures OffsetOf(fs, i) + fs[i].size <= OffsetOf(fs, j)
    {
      EndBeforeMonotone(fs, i + 1, j);
    }
  }

  lemma {:induction false} Pow2Divides(a: nat, b: nat)
    requires IsPow2(a) && IsPow2(b) && a <= b
    ensures b % a == 0
    decreases b
  {
    if a == 1 {
      MultipleMod(b, 1);
    } else {
      Pow2Divides(a / 2, b / 2);
      var k := (b / 2) / (a / 2);
      assert b / 2 == k * (a / 2);
      assert b == k * a;
      MultipleMod(k, a);
    }
  }

  /** The alignment of the first `n` members is a power of two that each of their alignments divides. */
  lemma {:induction false} AlignUpToDividesAll(fs: seq<Field>, n: nat)
    requires WellFormed(fs) && n <= |fs|
    ensures IsPow2(AlignUpTo(fs, n))
    ensures forall i | 0 <= i < n :: fs[i].alignAs <= AlignUpTo(fs, n) && AlignUpTo(fs, n) % fs[i].alignAs == 0
    decreases n
  {
    if n > 0 {
      AlignUpToDividesAll(fs, n - 1);
      forall i | 0 <= i < n
        ensures fs[i].alignAs <= AlignUpTo(fs, n) && AlignUpTo(fs, n) % fs[i].alignAs == 0
      {
        Pow2Divides(fs[i].alignAs, AlignUpTo(fs, n));
      }
    }
  }

  lemma ModOfMultiple(x: nat, a: nat, b: nat)
    requires a > 0 && b > 0 && x % b == 0 && b % a == 0
    ensures x % a == 0
  {
    var p := x / b;
    var q := b / a;
    assert x == p * b;
    assert b == q * a;
    assert x == (p * q) * a;
    MultipleMod(p * q, a);
  }

  /**
   * `sizeof` covers every member and is a multiple of every member's
   * alignment, so in an array of these structs every member of every element
   * stays aligned.
   */
  lemma SizeOfCoversAndAligns(fs: seq<Field>)
    requires WellFormed(fs)
    ensures forall i | 0 <= i < |fs| :: OffsetOf(fs, i) + fs[i].size <= SizeOf(fs)
    ensures forall i | 0 <= i < |fs| :: SizeOf(fs) % fs[i].alignAs == 0
    ensures SizeOf(fs) % StructAlign(fs) == 0
  {
    AlignUpToDividesAll(fs, |fs|);
    forall i | 0 <= i < |fs|
      ensures OffsetOf(fs, i) + fs[i].size <= SizeOf(fs) && SizeOf(fs) % fs[i].alignAs == 0
    {
      EndBeforeMonotone(fs, i + 1, |fs|);
      ModOfMultiple(SizeOf(fs), fs[i].alignAs, StructAlign(fs));
    }
  }
}
