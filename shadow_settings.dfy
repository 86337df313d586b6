/** The shadow configuration record: atlas resolutions, filter quality,
    cascades and distances, with the value ranges the inspector enforces. */
module ShadowConfig {
  import opened Geometry

  datatype TextureSize = Size256 | Size512 | Size1024 | Size2048 | Size4096 | Size8192 {
    /** The integer value of the enum member: the atlas resolution in texels. */
    function Pixels(): (n: int)
      ensures 256 <= n <= 8192 && n % 256 == 0
    {
      match this
      case Size256 => 256
      case Size512 => 512
      case Size1024 => 1024
      case Size2048 => 2048
      case Size4096 => 4096
      case Size8192 => 8192
    }

    function Exponent(): nat {
      match this
      case Size256 => 8
      case Size512 => 9
      case Size1024 => 10
      case Size2048 => 11
      case Size4096 => 12
      case Size8192 => 13
    }
  }

  function Pow2(k: nat): nat {
    if k == 0 then 1 else 2 * Pow2(k - 1)
  }

  /** Every atlas resolution is a power of two, 2^8 up to 2^13. */
  lemma PixelsIsPowerOfTwo(t: TextureSize)
    ensures 8 <= t.Exponent() <= 13 && t.Pixels() == Pow2(t.Exponent())
  {
    assert Pow2(8) == 256;
    match t
    case Size256 =>
    case Size512 => assert Pow2(9) == 2 * Pow2(8);
    case Size1024 => assert Pow2(10) == 2 * Pow2(9) == 4 * Pow2(8);
    case Size2048 => assert Pow2(11) == 2 * Pow2(10) == 4 * Pow2(9) == 8 * Pow2(8);
    case Size4096 => assert Pow2(12) == 2 * Pow2(11) == 4 * Pow2(10) == 8 * Pow2(9) == 16 * Pow2(8);
    case Size8192 => assert Pow2(13) == 2 * Pow2(12) == 4 * Pow2(11) == 8 * Pow2(10) == 16 * Pow2(9) == 32 * Pow2(8);
  }

  /** Distinct sizes have distinct resolutions, so the enum is exactly the six
      powers of two from 2^8 to 2^13. */
  lemma PixelsInjective(a: TextureSize, b: TextureSize)
    ensures a.Pixels() == b.Pixels() <==> a == b
  {
  }

  datatype FilterMode = PCF2x2 | PCF3x3 | PCF5x5 | PCF7x7 {
    /** The enum ordinal; the shader's filter keyword index is Ordinal() - 1 and
        the filter kernel factor is Ordinal() + 1. */
    function Ordinal(): (k: int)
      ensures 0 <= k <= 3
      ensures -1 <= k - 1 <= 2 && 1 <= k + 1 <= 4
      ensures k == 0 <==> this == PCF2x2
    {
      match this
      case PCF2x2 => 0
      case PCF3x3 => 1
      case PCF5x5 => 2
      case PCF7x7 => 3
    }
  }

  datatype CascadeBlendMode = Hard | Soft | Dither {
    /** The enum ordinal; the blend keyword index is Ordinal() - 1. */
    function Ordinal(): (k: int)
      ensures 0 <= k <= 2
      ensures -1 <= k - 1 <= 1
      ensures k == 0 <==> this == Hard
    {
      match this
      case Hard => 0
      case Soft => 1
      case Dither => 2
    }
  }

  datatype Directional = Directional(
    atlasSize: TextureSize,
    cascadeCount: nat,
    cascadeRatio1: real,
    cascadeRatio2: real,
    cascadeRatio3: real,
    cascadeDistance: real,
    filter: FilterMode,
    cascadeBlend: CascadeBlendMode)
  {
    /** The split ratios handed to the cascade computation, in field order. */
    function CascadeRatio(): (v: Vec3)
      ensures v.x == cascadeRatio1 && v.y == cascadeRatio2 && v.z == cascadeRatio3
    {
      Vec3(cascadeRatio1, cascadeRatio2, cascadeRatio3)
    }
  }

  /** The settings of the spot/point light atlas, read by the shadow code as
      settings.other; the record itself is not declared in ShadowSettings.cs. */
  datatype Other = Other(atlasSize: TextureSize, filter: FilterMode)

  datatype ShadowSettings = ShadowSettings(
    maxDistance: real,
    shadowDistance: real,
    directional: Directional,
    other: Other)

  const MaxCascades: int := 4

  /** The declared ranges of the fields ([Min] and [Range] attributes). */
  ghost predicate ValidDirectional(d: Directional) {
    d.cascadeCount <= MaxCascades &&
    0.0 <= d.cascadeRatio1 <= 1.0 && 0.0 <= d.cascadeRatio2 <= 1.0 && 0.0 <= d.cascadeRatio3 <= 1.0 &&
    0.001 <= d.cascadeDistance <= 1.0
  }

  ghost predicate ValidShadowSettings(s: ShadowSettings) {
    s.maxDistance >= 0.001 &&
    0.001 <= s.shadowDistance <= 1.0 &&
    ValidDirectional(s.directional)
  }

  /** The distance-fade vector published by the render phase:
      (1/maxDistance, 1/shadowDistance, 1/(1 - t*t)) with t = 1 - cascadeDistance.
      The declared ranges are exactly what makes the three reciprocals defined. */
  function ShadowDistanceFade(s: ShadowSettings): (v: Vec4)
    requires ValidShadowSettings(s)
    ensures v.x * s.maxDistance == 1.0 && v.y * s.shadowDistance == 1.0
    ensures v.z >= 1.0 && v.w == 0.0
  {
    var t := 1.0 - s.directional.cascadeDistance;
    var d := 1.0 - t * t;
    SquareBelowOne(t);
    ReciprocalAtLeastOne(d);
    Vec4(1.0 / s.maxDistance, 1.0 / s.shadowDistance, 1.0 / d, 0.0)
  }

  lemma SquareBelowOne(t: real)
    requires 0.0 <= t < 1.0
    ensures 0.0 < 1.0 - t * t <= 1.0
  {
    assert t * t <= t * 1.0;
  }

  lemma ReciprocalAtLeastOne(d: real)
    requires 0.0 < d <= 1.0
    ensures 1.0 / d >= 1.0
  {
    assert (1.0 / d) * d == 1.0;
  }

  /** The field initialisers of ShadowSettings (the `other` record has none in
      the source; the model starts it at the directional defaults). */
  function DefaultShadowSettings(): (s: ShadowSettings)
    ensures ValidShadowSettings(s)
    ensures s.directional.atlasSize.Pixels() == 1024 && s.directional.cascadeCount == MaxCascades
    ensures s.directional.filter.Ordinal() == 0 && s.directional.cascadeBlend.Ordinal() == 0
  {
    ShadowSettings(
      20.0, 0.1,
      Directional(Size1024, 4, 0.1, 0.25, 0.5, 0.1, PCF2x2, Hard),
      Other(Size1024, PCF2x2))
  }
}
