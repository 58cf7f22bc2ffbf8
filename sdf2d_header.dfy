/**
 * What the SDF2D header fixes: the uniform block shared with the fragment
 * shader, the statistics interval, and the initial values of the light
 * controls and the cursor state.
 */
module Sdf2dHeader {
  import opened StructLayout
  import opened Vectors

  // The members of `ShaderToyUniforms` in declaration order, each with its
  // `alignas`, the alignment of float (4) and its size.
  const ShaderToyFields: seq<Field> := [
    Field("iTime", 16, 4, 4),
    Field("iResolution", 8, 4, 8),
    Field("iMouse", 8, 4, 8),
    Field("lightPos", 8, 4, 8),
    Field("lightOn", 16, 4, 16),
    Field("lightRadius", 16, 4, 16)
  ]

  const ShaderToyOffsetTable: seq<nat> := [0, 8, 16, 24, 32, 48]

  const ShaderToyEndTable: seq<nat> := [0, 4, 16, 24, 32, 48, 64]

  lemma ShaderToyFieldsWellFormed()
    ensures WellFormed(ShaderToyFields)
  {
    assert IsPow2(16) && IsPow2(8) && IsPow2(4);
  }

  /**
   * The member offsets: iTime at 0, the three float[2] members packed at 8,
   * 16 and 24, and the two float[4] members at 32 and 48.
   */
  lemma ShaderToyOffsets()
    ensures Offsets(ShaderToyFields) == ShaderToyOffsetTable
    ensures EndBefore(ShaderToyFields, |ShaderToyFields|) == 64
  {
    forall i | 0 <= i < |ShaderToyFields|
      ensures PlacedAt(ShaderToyFields, ShaderToyEndTable, ShaderToyOffsetTable, i)
    {
    }
    LayoutTableOffsets(ShaderToyFields, ShaderToyEndTable, ShaderToyOffsetTable);
  }

  /**
   * The block is 64 bytes, a multiple of its 16-byte alignment, and its
   * members lie inside it, each on its own alignment, without overlapping.
   */
  lemma ShaderToySize()
    ensures StructAlign(ShaderToyFields) == 16
    ensures SizeOf(ShaderToyFields) == 64 && SizeOf(ShaderToyFields) % 16 == 0
    ensures forall i | 0 <= i < |ShaderToyFields| ::
      OffsetOf(ShaderToyFields, i) % ShaderToyFields[i].alignAs == 0 &&
      OffsetOf(ShaderToyFields, i) + ShaderToyFields[i].size <= SizeOf(ShaderToyFields)
    ensures forall i, j | 0 <= i < j < |ShaderToyFields| ::
      OffsetOf(ShaderToyFields, i) + ShaderToyFields[i].size <= OffsetOf(ShaderToyFields, j)
  {
    ShaderToyOffsets();
    AlignUpToBounded(ShaderToyFields, 16, |ShaderToyFields|);
    ShaderToyFieldsWellFormed();
    SizeOfCoversAndAligns(ShaderToyFields);
    MembersDisjoint(ShaderToyFields);
  }

  /** The three lights of the control panel: on or off, a radius each, and the position of light 1 in pixels. */
  datatype Lights2D = Lights2D(enabled: seq<bool>, radii: seq<real>, light1Position: Vec2)

  const LightCount: nat := 3

  /** The arrays `lightEnabled` and `lightRadii` hold one entry per light. */
  predicate LightsSized(l: Lights2D)
  {
    |l.enabled| == LightCount && |l.radii| == LightCount
  }

  /** Lights 1 and 2 on and light 3 off, radii 60, 80 and 12, light 1 at (400, 300). */
  const DefaultLights: Lights2D := Lights2D([true, true, false], [60.0, 80.0, 12.0], Vec2(400.0, 300.0))

  const DefaultSensitivity: real := 1.0

  /** Statistics are reported every this many frames. */
  const FramePauseInterval: nat := 10
}
