/** The values the renderer receives from the engine each frame: lights, the
    visible-light list and the culling collaborator. Everything the culling
    system computes (caster bounds, shadow view/projection matrices, split
    spheres) is an input here; how it computes them is not modelled. */
module Scene {
  import opened Geometry

  datatype LightType = Spot | Directional | Point | Area

  /** LightShadows.None, Hard and Soft. */
  datatype LightShadows = NoShadows | HardShadows | SoftShadows

  datatype LightmapBakeType = Realtime | Baked | Mixed

  datatype MixedLightingMode = IndirectOnly | Shadowmask | Subtractive

  datatype LightBakingOutput = LightBakingOutput(
    lightmapBakeType: LightmapBakeType,
    mixedLightingMode: MixedLightingMode,
    occlusionMaskChannel: int)

  datatype Light = Light(
    lightType: LightType,
    shadows: LightShadows,
    shadowStrength: real,
    shadowBias: real,
    shadowNormalBias: real,
    shadowNearPlane: real,
    bakingOutput: LightBakingOutput)

  datatype VisibleLight = VisibleLight(
    lightType: LightType,
    finalColor: Vec4,
    localToWorldMatrix: Matrix,
    light: Light)

  /** A culling sphere: centre in x, y, z and radius in w. The culling system
      only produces spheres of positive radius, which the cascade data divides by. */
  type CullingSphere = s: Vec4 | s.w > 0.0 witness Vec4(0.0, 0.0, 0.0, 1.0)

  /** The view and projection matrices of one shadow slice (a cascade, a spot
      light or a cube face) and its split data: the culling sphere and the
      cascade-blend culling factor. */
  datatype ShadowSlice = ShadowSlice(view: Matrix, proj: Matrix, cullingSphere: CullingSphere, blendCullingFactor: real)

  const Identity: Matrix :=
    Matrix(Vec4(1.0, 0.0, 0.0, 0.0), Vec4(0.0, 1.0, 0.0, 0.0), Vec4(0.0, 0.0, 1.0, 0.0), Vec4(0.0, 0.0, 0.0, 1.0))

  const NoSlice: ShadowSlice := ShadowSlice(Identity, Identity, Vec4(0.0, 0.0, 0.0, 1.0), 0.0)

  /** A spot light's slice: a perspective projection, whose horizontal scale
      m00 is positive; the spot texel size divides by it. */
  type SpotSlice = s: ShadowSlice | s.proj.r0.x > 0.0 witness NoSlice

  /** The culling results of one camera.
      - casterBounds: the visible-light indices for which GetShadowCasterBounds succeeds;
      - directionalShadows(light, cascade, cascadeCount, ratios, tileSize, nearPlaneOffset),
        spotShadows(light) and pointShadows(light, face): the outputs of the
        Compute*ShadowMatricesAndCullingPrimitives calls. */
  datatype CullingResults = CullingResults(
    visibleLights: seq<VisibleLight>,
    casterBounds: set<int>,
    directionalShadows: (int, int, int, Vec3, int, real) -> ShadowSlice,
    spotShadows: int -> SpotSlice,
    pointShadows: (int, int) -> ShadowSlice)

  /** The culling results a renderer holds before its first frame: no
      visible lights and no shadow casters. */
  const NoCulling: CullingResults :=
    CullingResults([], {}, (l, i, n, r, t, o) => NoSlice, l => NoSlice, (l, f) => NoSlice)

  /** QualitySettings.shadowmaskMode. */
  datatype ShadowmaskMode = DistanceShadowmask | Shadowmask

  datatype CameraType = Game | SceneView | Preview | VR | Reflection {
    /** The numeric value of the CameraType flag. */
    function Value(): int {
      match this
      case Game => 1
      case SceneView => 2
      case Preview => 4
      case VR => 256
      case Reflection => 8
    }
  }

  datatype Camera = Camera(cameraType: CameraType, pixelWidth: int, pixelHeight: int)
}
