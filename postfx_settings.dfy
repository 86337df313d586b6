/** The post-processing settings asset: the bloom record with its declared
    ranges, and the material that is created from the shader on first use. */
module PostFXConfig {

  datatype BloomSettings = BloomSettings(
    maxIterations: int,
    downscaleLimit: int,
    bicubicUpsampling: bool,
    threshold: real,
    thresholdKnee: real,
    intensity: real)

  /** The ranges declared on the fields ([Range] and [Min] attributes). */
  ghost predicate ValidBloom(b: BloomSettings) {
    0 <= b.maxIterations <= 16 &&
    b.downscaleLimit >= 1 &&
    b.threshold >= 0.0 &&
    0.0 <= b.thresholdKnee <= 1.0 &&
    b.intensity >= 0.0
  }

  /** The field initialiser of `bloom`: the fields it does not name keep their
      zero defaults, so the default intensity is 0 and bloom stays off until
      an intensity is set. */
  function DefaultBloom(): (b: BloomSettings)
    ensures ValidBloom(b)
    ensures b.maxIterations == 16 && b.downscaleLimit == 2 && !b.bicubicUpsampling
    ensures b.intensity <= 0.0
  {
    BloomSettings(16, 2, false, 0.0, 0.0, 0.0)
  }

  /** A shader asset; only its identity matters here. */
  class Shader {
    constructor () {}
  }

  datatype HideFlags = NoHideFlags | HideAndDontSave

  class Material {
    const shader: Shader
    var hideFlags: HideFlags

    constructor (shader: Shader)
      ensures this.shader == shader && hideFlags == NoHideFlags
    {
      this.shader := shader;
      hideFlags := NoHideFlags;
    }
  }

  class PostFXSettings {
    var shader: Shader?
    var material: Material?
    var bloom: BloomSettings

    constructor (shader: Shader?, bloom: BloomSettings)
      ensures this.shader == shader && material == null && this.bloom == bloom
    {
      this.shader := shader;
      material := null;
      this.bloom := bloom;
    }

    /** The Material property: creates the material from the shader only when
        none is cached and a shader is set; otherwise returns the cached value,
        which is null when there is no shader. */
    method GetMaterial() returns (m: Material?)
      modifies this`material
      ensures material == m
      ensures old(material) != null ==> m == old(material)
      ensures old(material) == null && shader != null ==>
        m != null && fresh(m) && m.shader == shader && m.hideFlags == HideAndDontSave
      ensures old(material) == null && shader == null ==> m == null
    {
      if material == null && shader != null {
        material := new Material(shader);
        material.hideFlags := HideAndDontSave;
      }
      m := material;
    }
  }
}
