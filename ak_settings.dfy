/**
 * The pure helpers of the integration settings: collision-channel defaulting,
 * the equality of surface-property map entries, the absorption array of an
 * acoustic texture, and the default reverb budget.
 */
module AkSettings {

  import opened Wrappers

  newtype uint8 = x: int | 0 <= x < 0x100
  newtype uint32 = x: int | 0 <= x < 0x1_0000_0000

  /** The integration's collision channels, in declaration order. The last one
      stands for "take the channel from the integration settings". */
  datatype AkCollisionChannel =
    | WorldStatic | WorldDynamic | Pawn | Visibility | Camera
    | PhysicsBody | Vehicle | Destructible
    | UseIntegrationSettingsDefault

  /** A host-engine collision channel, as the byte it is stored in. */
  newtype CollisionChannel = x: int | 0 <= x < 0x100

  /** Position of a channel in its enumeration: what a cast to the host
      engine's channel type keeps. */
  function Ordinal(c: AkCollisionChannel): (n: nat)
    ensures n <= 8
    ensures n == 8 <==> c == UseIntegrationSettingsDefault
  {
    match c
    case WorldStatic => 0
    case WorldDynamic => 1
    case Pawn => 2
    case Visibility => 3
    case Camera => 4
    case PhysicsBody => 5
    case Vehicle => 6
    case Destructible => 7
    case UseIntegrationSettingsDefault => 8
  }

  /** The cast of an integration channel to the host engine's channel. */
  function CastChannel(c: AkCollisionChannel): CollisionChannel
  {
    Ordinal(c) as CollisionChannel
  }

  /** The integration channel a host channel was cast from, if any: the
      partial inverse of CastChannel on the concrete channels. */
  function AkChannelOf(ch: CollisionChannel): Option<AkCollisionChannel>
  {
    if ch == 0 then Some(WorldStatic)
    else if ch == 1 then Some(WorldDynamic)
    else if ch == 2 then Some(Pawn)
    else if ch == 3 then Some(Visibility)
    else if ch == 4 then Some(Camera)
    else if ch == 5 then Some(PhysicsBody)
    else if ch == 6 then Some(Vehicle)
    else if ch == 7 then Some(Destructible)
    else None
  }

  /** The value of AK_MAX_AUX_PER_OBJ. */
  const AK_MAX_AUX_PER_OBJ: uint8 := 4

  /** The configuration entries of UAkSettings that the core reads. */
  datatype Settings = Settings(
    maxSimultaneousReverbVolumes: uint8,
    defaultOcclusionCollisionChannel: CollisionChannel,
    defaultFitToGeometryCollisionChannel: CollisionChannel)

  /** The settings object as its member initialisers leave it. */
  function DefaultSettings(): (s: Settings)
    ensures s.maxSimultaneousReverbVolumes == AK_MAX_AUX_PER_OBJ == 4
    ensures AkChannelOf(s.defaultOcclusionCollisionChannel) == Some(Visibility)
    ensures AkChannelOf(s.defaultFitToGeometryCollisionChannel) == Some(WorldStatic)
  {
    Settings(AK_MAX_AUX_PER_OBJ, CastChannel(Visibility), CastChannel(WorldStatic))
  }

  /** UAkSettings::ConvertOcclusionCollisionChannel. */
  function ConvertOcclusionCollisionChannel(c: AkCollisionChannel, s: Settings): (ch: CollisionChannel)
    ensures c == UseIntegrationSettingsDefault ==> ch == s.defaultOcclusionCollisionChannel
    ensures c != UseIntegrationSettingsDefault ==> AkChannelOf(ch) == Some(c)
  {
    if c == UseIntegrationSettingsDefault then s.defaultOcclusionCollisionChannel
    else CastChannel(c)
  }

  /** UAkSettings::ConvertFitToGeomCollisionChannel. */
  function ConvertFitToGeomCollisionChannel(c: AkCollisionChannel, s: Settings): (ch: CollisionChannel)
    ensures c == UseIntegrationSettingsDefault ==> ch == s.defaultFitToGeometryCollisionChannel
    ensures c != UseIntegrationSettingsDefault ==> AkChannelOf(ch) == Some(c)
  {
    if c == UseIntegrationSettingsDefault then s.defaultFitToGeometryCollisionChannel
    else CastChannel(c)
  }

  /** Casting and recovering are inverse on the concrete channels, and the
      "use default" marker is never recovered from any host channel. */
  lemma {:induction false} CastChannelRoundTrip(c: AkCollisionChannel, ch: CollisionChannel)
    ensures c != UseIntegrationSettingsDefault ==> AkChannelOf(CastChannel(c)) == Some(c)
    ensures AkChannelOf(ch) != Some(UseIntegrationSettingsDefault)
    ensures AkChannelOf(ch).Some? ==> CastChannel(AkChannelOf(ch).value) == ch
  {
    match c
    case WorldStatic =>
    case WorldDynamic =>
    case Pawn =>
    case Visibility =>
    case Camera =>
    case PhysicsBody =>
    case Vehicle =>
    case Destructible =>
    case UseIntegrationSettingsDefault =>
  }

  /** With the shipped settings, a channel left at "use default" traces on
      Visibility for occlusion and on WorldStatic for fitting to geometry. */
  lemma DefaultChannelsUnderDefaultSettings()
    ensures AkChannelOf(ConvertOcclusionCollisionChannel(UseIntegrationSettingsDefault, DefaultSettings())) == Some(Visibility)
    ensures AkChannelOf(ConvertFitToGeomCollisionChannel(UseIntegrationSettingsDefault, DefaultSettings())) == Some(WorldStatic)
  {
  }

  // ---------------------------------------------------------------------------
  // Surface properties map entries

  /** A soft reference to an acoustic texture. It is valid only when it
      resolves to a live texture, which has a name. */
  datatype SoftTextureRef =
    | NullTexture
    | Unresolved(path: string)
    | Resolved(path: string, name: string)
  {
    predicate IsValid() { Resolved? }
  }

  /** FAkGeometrySurfacePropertiesToMap. */
  datatype SurfacePropertiesToMap = SurfacePropertiesToMap(acousticTexture: SoftTextureRef, occlusionValue: real)

  /** The entry a default-constructed FAkGeometrySurfacePropertiesToMap holds. */
  function DefaultSurfaceProperties(): (e: SurfacePropertiesToMap)
    ensures !e.acousticTexture.IsValid() && e.occlusionValue == 1.0
  {
    SurfacePropertiesToMap(NullTexture, 1.0)
  }

  /** A character with ASCII upper case turned to lower case: the case an
      FName comparison ignores. */
  function ToLowerAscii(c: char): char
  {
    if 'A' <= c <= 'Z' then (c as int + 32) as char else c
  }

  /** A name with its ASCII letters in lower case. */
  function FoldCase(s: string): string
  {
    seq(|s|, i requires 0 <= i < |s| => ToLowerAscii(s[i]))
  }

  /** Whether two texture names are the same FName: equal up to case. */
  predicate SameFName(a: string, b: string)
  {
    FoldCase(a) == FoldCase(b)
  }

  /** Two names are the same FName exactly when they have the same length
      and agree letter by letter once ASCII case is ignored. */
  lemma {:induction false} SameFNameIgnoresCase(a: string, b: string)
    ensures SameFName(a, b) <==>
              |a| == |b| && forall i :: 0 <= i < |a| ==> ToLowerAscii(a[i]) == ToLowerAscii(b[i])
  {
    if |a| == |b| && forall i :: 0 <= i < |a| ==> ToLowerAscii(a[i]) == ToLowerAscii(b[i]) {
      assert forall i :: 0 <= i < |a| ==> FoldCase(a)[i] == FoldCase(b)[i];
    }
    if SameFName(a, b) {
      assert forall i :: 0 <= i < |a| ==> FoldCase(a)[i] == ToLowerAscii(a[i]);
    }
  }

  /** FAkGeometrySurfacePropertiesToMap::operator==. Valid textures compare
      by FName, which ignores case. */
  function SurfacePropertiesEqual(lhs: SurfacePropertiesToMap, rhs: SurfacePropertiesToMap): (r: bool)
    ensures lhs.occlusionValue != rhs.occlusionValue ==> !r
    ensures lhs.acousticTexture.IsValid() != rhs.acousticTexture.IsValid() ==> !r
    ensures !lhs.acousticTexture.IsValid() && !rhs.acousticTexture.IsValid() ==>
              (r <==> lhs.occlusionValue == rhs.occlusionValue)
    ensures lhs.acousticTexture.IsValid() && rhs.acousticTexture.IsValid() ==>
              (r <==> lhs.occlusionValue == rhs.occlusionValue
                      && SameFName(lhs.acousticTexture.name, rhs.acousticTexture.name))
  {
    if lhs.occlusionValue != rhs.occlusionValue then false
    else if !lhs.acousticTexture.IsValid() != !rhs.acousticTexture.IsValid() then false
    else if !lhs.acousticTexture.IsValid() then true
    else SameFName(lhs.acousticTexture.name, rhs.acousticTexture.name)
  }

  /** What the comparison looks at: the occlusion value and the case-folded
      name of the texture when it is valid. Unresolved and null textures
      look alike. */
  function SurfaceKey(e: SurfacePropertiesToMap): (real, Option<string>)
  {
    (e.occlusionValue, if e.acousticTexture.IsValid() then Some(FoldCase(e.acousticTexture.name)) else None)
  }

  /** The comparison is exactly equality of keys; so it is reflexive,
      symmetric and transitive, and it ignores the texture paths and the
      case of the names. */
  lemma SurfacePropertiesEqualIsKeyEquality(a: SurfacePropertiesToMap, b: SurfacePropertiesToMap)
    ensures SurfacePropertiesEqual(a, b) <==> SurfaceKey(a) == SurfaceKey(b)
  {
  }

  /** On the model's occlusion values, which are never NaN, the comparison
      is an equivalence. */
  lemma SurfacePropertiesEqualIsEquivalence(a: SurfacePropertiesToMap, b: SurfacePropertiesToMap, c: SurfacePropertiesToMap)
    ensures SurfacePropertiesEqual(a, a)
    ensures SurfacePropertiesEqual(a, b) ==> SurfacePropertiesEqual(b, a)
    ensures SurfacePropertiesEqual(a, b) && SurfacePropertiesEqual(b, c) ==> SurfacePropertiesEqual(a, c)
  {
    SurfacePropertiesEqualIsKeyEquality(a, a);
    SurfacePropertiesEqualIsKeyEquality(a, b);
    SurfacePropertiesEqualIsKeyEquality(b, a);
    SurfacePropertiesEqualIsKeyEquality(b, c);
    SurfacePropertiesEqualIsKeyEquality(a, c);
  }

  /** Two different texture objects that share a name compare equal. */
  lemma SameNameDifferentPathsCompareEqual(p1: string, p2: string, n: string, occ: real)
    ensures SurfacePropertiesEqual(SurfacePropertiesToMap(Resolved(p1, n), occ), SurfacePropertiesToMap(Resolved(p2, n), occ))
  {
  }

  /** Textures whose names differ only in case compare equal; "Brick" and
      "brick" are one FName. */
  lemma NamesDifferingInCaseCompareEqual(p1: string, p2: string, n1: string, n2: string, occ: real)
    requires FoldCase(n1) == FoldCase(n2)
    ensures SurfacePropertiesEqual(SurfacePropertiesToMap(Resolved(p1, n1), occ), SurfacePropertiesToMap(Resolved(p2, n2), occ))
    ensures SurfacePropertiesEqual(SurfacePropertiesToMap(Resolved(p1, "Brick"), occ), SurfacePropertiesToMap(Resolved(p2, "brick"), occ))
  {
    assert FoldCase("Brick") == FoldCase("brick");
  }

  // ---------------------------------------------------------------------------
  // Acoustic texture parameters

  /** FVector4, indexed 0..3 by its operator[]. */
  datatype Vector4 = Vector4(x: real, y: real, z: real, w: real)
  {
    function At(i: nat): real
      requires i < 4
    {
      if i == 0 then x else if i == 1 then y else if i == 2 then z else w
    }
  }

  /** FAkAcousticTextureParams. */
  datatype AcousticTextureParams = AcousticTextureParams(absorptionValues: Vector4, shortID: uint32)
  {
    function AbsorptionLow(): real { absorptionValues.At(0) }
    function AbsorptionMidLow(): real { absorptionValues.At(1) }
    function AbsorptionMidHigh(): real { absorptionValues.At(2) }
    function AbsorptionHigh(): real { absorptionValues.At(3) }

    /** The four absorption values, from the lowest band to the highest. */
    function AsTArray(): (r: seq<real>)
      ensures |r| == 4
      ensures forall i :: 0 <= i < 4 ==> r[i] == absorptionValues.At(i)
      ensures r[0] == AbsorptionLow() && r[1] == AbsorptionMidLow()
      ensures r[2] == AbsorptionMidHigh() && r[3] == AbsorptionHigh()
    {
      [AbsorptionLow(), AbsorptionMidLow(), AbsorptionMidHigh(), AbsorptionHigh()]
    }
  }

  /** The texture parameters a default-constructed FAkAcousticTextureParams holds. */
  function DefaultTextureParams(): (p: AcousticTextureParams)
    ensures p.shortID == 0
    ensures p.AsTArray() == [0.0, 0.0, 0.0, 0.0]
  {
    AcousticTextureParams(Vector4(0.0, 0.0, 0.0, 0.0), 0)
  }

  /** Rebuilds the absorption vector from an array of four values. */
  function Vector4Of(s: seq<real>): Vector4
    requires |s| == 4
  {
    Vector4(s[0], s[1], s[2], s[3])
  }

  /** On the model's real-valued absorption, the array loses nothing: the
      vector is recovered from it, and two parameter sets with the same array
      have the same absorption. */
  lemma AsTArrayRoundTrip(p: AcousticTextureParams, q: AcousticTextureParams)
    ensures Vector4Of(p.AsTArray()) == p.absorptionValues
    ensures p.AsTArray() == q.AsTArray() ==> p.absorptionValues == q.absorptionValues
  {
    assert Vector4Of(p.AsTArray()) == p.absorptionValues;
    assert Vector4Of(q.AsTArray()) == q.absorptionValues;
  }
}
