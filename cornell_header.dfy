/**
 * What the SDFCornell header fixes: the uniform block shared with the
 * fragment shader, the number of frames in flight, and the initial values of
 * the settings the control panel edits.
 */
module CornellHeader {
  import opened StructLayout
  import opened Vectors

  // The members of the uniform block in declaration order, each with its
  // `alignas`, the alignment of its element type (4 for float and int) and
  // its size (a float[4] is 16 bytes, float[3][4] is 48).

  /** Members of the ShaderToy-style header every demo shares. */
  const ShaderToyHeader: seq<Field> := [
    Field("iTime", 16, 4, 4),
    Field("iResolution", 8, 4, 8),
    Field("iMouse", 8, 4, 8),
    Field("iFrame", 4, 4, 4)
  ]

  /** Members of sphere, light and shadow controls. */
  const LightingMembers: seq<Field> := [
    Field("sphereRotation", 16, 4, 16),
    Field("sphereColor", 16, 4, 16),
    Field("enableLights", 16, 4, 16),
    Field("lightDir", 16, 4, 16),
    Field("lightColors", 16, 4, 48),
    Field("ambientColor", 16, 4, 16),
    Field("shadowParams", 16, 4, 16)
  ]

  /** Members of the light-space basis the RSM is rendered in. */
  const LightSpaceMembers: seq<Field> := [
    Field("lightRight", 16, 4, 16),
    Field("lightUp", 16, 4, 16),
    Field("lightOrigin", 16, 4, 16),
    Field("lightOrthoHalfSize", 16, 4, 16)
  ]

  /** Members of RSM, indirect lighting, debug view and PBR switches. */
  const GlobalIlluminationMembers: seq<Field> := [
    Field("rsmResolution", 16, 4, 16),
    Field("rsmParams", 16, 4, 16),
    Field("indirectParams", 16, 4, 16),
    Field("debugParams", 16, 4, 16),
    Field("pbrParams", 16, 4, 16)
  ]

  /** Members of per-sphere material tables. */
  const MaterialMembers: seq<Field> := [
    Field("roughnessValues", 16, 4, 8),
    Field("metallicValues", 16, 4, 8),
    Field("baseColorFactors", 16, 4, 16)
  ]

  const UniformFields: seq<Field> :=
    ShaderToyHeader + LightingMembers + LightSpaceMembers + GlobalIlluminationMembers + MaterialMembers

  lemma UniformFieldsWellFormed()
    ensures WellFormed(UniformFields)
  {
    assert IsPow2(16) && IsPow2(8) && IsPow2(4);
  }

  /** Where each member begins under the C++ `alignas` rules. */
  const UniformOffsetTable: seq<nat> :=
    [0, 8, 16, 24, 32, 48, 64, 80, 96, 144, 160, 176, 192, 208, 224, 240, 256, 272, 288, 304, 320, 336, 352]

  /** Where the members before each index end. */
  const UniformEndTable: seq<nat> :=
    [0, 4, 16, 24, 28, 48, 64, 80, 96, 144, 160, 176, 192, 208, 224, 240, 256, 272, 288, 304, 320, 328, 344, 368]

  // The placement rule, checked a few members at a time.

  lemma UniformPlaced6()
    ensures forall i | 0 <= i < 6 :: PlacedAt(UniformFields, UniformEndTable, UniformOffsetTable, i)
  {
    assert PlacedAt(UniformFields, UniformEndTable, UniformOffsetTable, 0);
    assert PlacedAt(UniformFields, UniformEndTable, UniformOffsetTable, 1);
    assert PlacedAt(UniformFields, UniformEndTable, UniformOffsetTable, 2);
    assert PlacedAt(UniformFields, UniformEndTable, UniformOffsetTable, 3);
    assert PlacedAt(UniformFields, UniformEndTable, UniformOffsetTable, 4);
    assert PlacedAt(UniformFields, UniformEndTable, UniformOffsetTable, 5);
  }

  lemma UniformPlaced12()
    ensures forall i | 6 <= i < 12 :: PlacedAt(UniformFields, UniformEndTable, UniformOffsetTable, i)
  {
    assert PlacedAt(UniformFields, UniformEndTable, UniformOffsetTable, 6);
    assert PlacedAt(UniformFields, UniformEndTable, UniformOffsetTable, 7);
    assert PlacedAt(UniformFields, UniformEndTable, UniformOffsetTable, 8);
    assert PlacedAt(UniformFields, UniformEndTable, UniformOffsetTable, 9);
    assert PlacedAt(UniformFields, UniformEndTable, UniformOffsetTable, 10);
    assert PlacedAt(UniformFields, UniformEndTable, UniformOffsetTable, 11);
  }

  lemma UniformPlaced18()
    ensures forall i | 12 <= i < 18 :: PlacedAt(UniformFields, UniformEndTable, UniformOffsetTable, i)
  {
    assert PlacedAt(UniformFields, UniformEndTable, UniformOffsetTable, 12);
    assert PlacedAt(UniformFields, UniformEndTable, UniformOffsetTable, 13);
    assert PlacedAt(UniformFields, UniformEndTable, UniformOffsetTable, 14);
    assert PlacedAt(UniformFields, UniformEndTable, UniformOffsetTable, 15);
    assert PlacedAt(UniformFields, UniformEndTable, UniformOffsetTable, 16);
    assert PlacedAt(UniformFields, UniformEndTable, UniformOffsetTable, 17);
  }

  lemma UniformPlaced23()
    ensures forall i | 18 <= i < 23 :: PlacedAt(UniformFields, UniformEndTable, UniformOffsetTable, i)
  {
    assert PlacedAt(UniformFields, UniformEndTable, UniformOffsetTable, 18);
    assert PlacedAt(UniformFields, UniformEndTable, UniformOffsetTable, 19);
    assert PlacedAt(UniformFields, UniformEndTable, UniformOffsetTable, 20);
    assert PlacedAt(UniformFields, UniformEndTable, UniformOffsetTable, 21);
    assert PlacedAt(UniformFields, UniformEndTable, UniformOffsetTable, 22);
  }

  /**
   * The member offsets: the scalar header packs iTime, iResolution, iMouse,
   * iFrame at 0, 8, 16, 24, sphereRotation starts at 32, and every later
   * member starts on a 16-byte boundary, the two float[2] arrays included.
   */
  lemma UniformOffsets()
    ensures Offsets(UniformFields) == UniformOffsetTable
    ensures EndBefore(UniformFields, |UniformFields|) == 368
  {
    UniformPlaced6();
    UniformPlaced12();
    UniformPlaced18();
    UniformPlaced23();
    LayoutTableOffsets(UniformFields, UniformEndTable, UniformOffsetTable);
  }

  /**
   * The block is 368 bytes, a multiple of 16, and every member lies inside it
   * on its own alignment.
   */
  lemma UniformSize()
    ensures StructAlign(UniformFields) == 16
    ensures SizeOf(UniformFields) == 368 && SizeOf(UniformFields) % 16 == 0
    ensures forall i | 0 <= i < |UniformFields| ::
      OffsetOf(UniformFields, i) % UniformFields[i].alignAs == 0 &&
      OffsetOf(UniformFields, i) + UniformFields[i].size <= SizeOf(UniformFields)
  {
    UniformOffsets();
    assert forall i | 0 <= i < |UniformFields| :: UniformFields[i].alignAs <= 16;
    AlignUpToBounded(UniformFields, 16, |UniformFields|);
    UniformFieldsWellFormed();
    SizeOfCoversAndAligns(UniformFields);
  }

  /** The checkboxes of the control panel. */
  datatype Toggles = Toggles(
    key: bool,
    fill: bool,
    rim: bool,
    env: bool,
    rsm: bool,
    indirect: bool,
    importance: bool,
    showRsmOnly: bool,
    showIndirectOnly: bool,
    pbr: bool)

  /** The material values the PBR section edits and its reset button restores. */
  datatype PbrSettings = PbrSettings(
    globalRoughness: real,
    globalMetallic: real,
    sphere1Roughness: real,
    sphere1Metallic: real,
    sphere2Roughness: real,
    sphere2Metallic: real,
    baseColorIntensity: real)

  /** What the control panel edits, with the initial values the class declares. */
  datatype Settings = Settings(
    toggles: Toggles,
    rotationEuler: Vec3,
    rotationAnimSpeed: real,
    virtualStick: Vec2,
    sphereColor: Vec3,
    keyIntensity: real,
    ambientStrength: real,
    blueTint: real,
    shadowQuality: real,
    shadowIntensity: real,
    metallic: real,
    lightElevation: real,
    lightAzimuth: real,
    lightOrthoHalfSize: Vec2,
    indirectIntensity: real,
    pbr: PbrSettings,
    selectedMaterial: int)

  /** Every light on, RSM and PBR off, the RSM sub-options on for when RSM is turned on. */
  const DefaultToggles: Toggles := Toggles(
    key := true,
    fill := true,
    rim := true,
    env := true,
    rsm := false,
    indirect := true,
    importance := true,
    showRsmOnly := false,
    showIndirectOnly := false,
    pbr := false)

  const DefaultPbr: PbrSettings := PbrSettings(
    globalRoughness := 0.5,
    globalMetallic := 0.0,
    sphere1Roughness := 0.4,
    sphere1Metallic := 0.1,
    sphere2Roughness := 0.2,
    sphere2Metallic := 0.8,
    baseColorIntensity := 1.0)

  const DefaultSettings: Settings := Settings(
    toggles := DefaultToggles,
    rotationEuler := Vec3(0.0, 0.0, 0.0),
    rotationAnimSpeed := 0.6,
    virtualStick := Vec2(0.0, 0.0),
    sphereColor := Vec3(0.3, 0.7, 1.0),
    keyIntensity := 1.2,
    ambientStrength := 0.25,
    blueTint := 1.0,
    shadowQuality := 1.0,
    shadowIntensity := 0.9,
    metallic := 0.6,
    lightElevation := 0.8,
    lightAzimuth := -0.7,
    lightOrthoHalfSize := Vec2(8.0, 8.0),
    indirectIntensity := 1.0,
    pbr := DefaultPbr,
    selectedMaterial := 0)

  // The initial size of the reflective shadow map and the combo entry that names it.
  const InitialRsmSize: nat := 1024
  const InitialRsmResolutionIndex: int := 1
}
