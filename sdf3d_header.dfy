/**
 * What the SDF3D header fixes: the uniform block shared with the fragment
 * shader and the initial state of the four light toggles.
 */
module Sdf3dHeader {
  import opened StructLayout

  // The members of `ShaderToy3DUniforms` in declaration order, each with its
  // `alignas`, the alignment of float and int (4) and its size.
  const ShaderToy3DFields: seq<Field> := [
    Field("iTime", 16, 4, 4),
    Field("iResolution", 8, 4, 8),
    Field("iMouse", 8, 4, 8),
    Field("iFrame", 4, 4, 4),
    Field("enableLights", 16, 4, 16)
  ]

  const ShaderToy3DOffsetTable: seq<nat> := [0, 8, 16, 24, 32]

  const ShaderToy3DEndTable: seq<nat> := [0, 4, 16, 24, 28, 48]

  lemma ShaderToy3DFieldsWellFormed()
    ensures WellFormed(ShaderToy3DFields)
  {
    assert IsPow2(16) && IsPow2(8) && IsPow2(4);
  }

  /** The member offsets: iTime at 0, iResolution at 8, iMouse at 16, iFrame at 24 and enableLights at 32. */
  lemma ShaderToy3DOffsets()
    ensures Offsets(ShaderToy3DFields) == ShaderToy3DOffsetTable
    ensures EndBefore(ShaderToy3DFields, |ShaderToy3DFields|) == 48
  {
    forall i | 0 <= i < |ShaderToy3DFields|
      ensures PlacedAt(ShaderToy3DFields, ShaderToy3DEndTable, ShaderToy3DOffsetTable, i)
    {
    }
    LayoutTableOffsets(ShaderToy3DFields, ShaderToy3DEndTable, ShaderToy3DOffsetTable);
  }

  /**
   * The block is 48 bytes, a multiple of its 16-byte alignment: four bytes of
   * padding follow iFrame so that enableLights starts on a 16-byte boundary.
   * Every member lies inside the block on its own alignment, without overlap.
   */
  lemma ShaderToy3DSize()
    ensures StructAlign(ShaderToy3DFields) == 16
    ensures SizeOf(ShaderToy3DFields) == 48 && SizeOf(ShaderToy3DFields) % 16 == 0
    ensures OffsetOf(ShaderToy3DFields, 4) - (OffsetOf(ShaderToy3DFields, 3) + ShaderToy3DFields[3].size) == 4
    ensures forall i | 0 <= i < |ShaderToy3DFields| ::
      OffsetOf(ShaderToy3DFields, i) % ShaderToy3DFields[i].alignAs == 0 &&
      OffsetOf(ShaderToy3DFields, i) + ShaderToy3DFields[i].size <= SizeOf(ShaderToy3DFields)
    ensures forall i, j | 0 <= i < j < |ShaderToy3DFields| ::
      OffsetOf(ShaderToy3DFields, i) + ShaderToy3DFields[i].size <= OffsetOf(ShaderToy3DFields, j)
  {
    ShaderToy3DOffsets();
    AlignUpToBounded(ShaderToy3DFields, 16, |ShaderToy3DFields|);
    ShaderToy3DFieldsWellFormed();
    SizeOfCoversAndAligns(ShaderToy3DFields);
    MembersDisjoint(ShaderToy3DFields);
  }

  /** The four light toggles: key light, sky and environment, fill, rim and Fresnel. */
  datatype Toggles3D = Toggles3D(key: bool, sky: bool, fill: bool, rim: bool)

  /** Every light starts enabled. */
  const DefaultToggles3D: Toggles3D := Toggles3D(true, true, true, true)
}
