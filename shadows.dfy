/** The shadow renderer of one camera (class Shadows): it reserves atlas
    tiles for the lights that cast shadows, renders the directional and the
    other atlas tile by tile, publishes the matrices, tile data and keywords
    the shaders read, and releases the atlases. The command buffer is the
    sequence of every command submitted so far; each rendering method is
    proved to append exactly the log ShadowPasses specifies, and to leave
    every array entry it stores equal to the value ShadowPasses gives for
    that tile. */
module ShadowRendering {
  import opened Geometry
  import opened Scene
  import opened ShadowConfig
  import opened ShadowAtlas
  import opened ShadowPasses

  /** n * cascadeCount stays within the 16 directional tiles. */
  lemma MulBound(n: int, cc: int)
    requires 0 <= n <= 4 && 0 <= cc <= 4
    ensures 0 <= n * cc <= 16
  {
    MulMonotonic(n, 4, cc);
    MulMonotonic(cc, 4, 4);
  }

  class Shadows {
    const shadowedDirectionalLights: array<ShadowedDirectionalLight>
    const shadowedOtherLights: array<ShadowedOtherLight>
    const dirShadowMatrices: array<Matrix>
    const otherShadowMatrices: array<Matrix>
    const cascadeCullingSpheres: array<Vec4>
    const otherShadowTiles: array<Vec4>
    const cascadeDatas: array<Vec4>
    /** SystemInfo.usesReversedZBuffer: fixed for the device. */
    const reversedZ: bool

    var buffer: seq<ShadowCmd>
    var cullingResults: CullingResults
    var settings: ShadowSettings
    var shadowDirectionalLightCount: int
    var shadowOtherLightCount: int
    var useShadowMask: bool
    var shadowAtlasSize: Vec4
    /** The first slot of every reserved other light, in reservation order. */
    ghost var otherStarts: seq<int>
    /** Whether SetUp has assigned `settings`. Until then the source's field
        is null and reading it throws, so Render, and ReserveDirectionalShadows
        when it reserves a tile, require it; `settings` meanwhile holds a
        placeholder. */
    ghost var hasSettings: bool

    /** The arrays have their fixed sizes and no two of the same element type alias. */
    ghost predicate Arrays() {
      shadowedDirectionalLights.Length == MaxShadowedDirectionalLightCount &&
      shadowedOtherLights.Length == MaxShadowedOtherLightCount &&
      dirShadowMatrices.Length == 16 && otherShadowMatrices.Length == 16 && otherShadowTiles.Length == 16 &&
      cascadeCullingSpheres.Length == MaxCascades && cascadeDatas.Length == MaxCascades &&
      dirShadowMatrices != otherShadowMatrices &&
      cascadeCullingSpheres != cascadeDatas && cascadeCullingSpheres != otherShadowTiles && cascadeDatas != otherShadowTiles
    }

    ghost predicate Valid()
      reads this`shadowDirectionalLightCount, this`shadowOtherLightCount, this`otherStarts, shadowedOtherLights
    {
      Arrays() &&
      0 <= shadowDirectionalLightCount <= MaxShadowedDirectionalLightCount &&
      0 <= shadowOtherLightCount <= MaxShadowedOtherLightCount &&
      Chained(otherStarts, shadowedOtherLights[..], shadowOtherLightCount)
    }

    /** The state a new renderer starts in: nothing recorded or reserved,
        no settings yet, every array entry and the atlas size zero. */
    ghost predicate Initial()
      reads this, shadowedDirectionalLights, shadowedOtherLights, dirShadowMatrices, otherShadowMatrices,
            cascadeCullingSpheres, otherShadowTiles, cascadeDatas
    {
      buffer == [] && shadowDirectionalLightCount == 0 && shadowOtherLightCount == 0 && !useShadowMask &&
      otherStarts == [] && !hasSettings && cullingResults == NoCulling &&
      shadowAtlasSize == Zero4 &&
      shadowedDirectionalLights[..] == seq(MaxShadowedDirectionalLightCount, _ => NoDirectionalLight) &&
      shadowedOtherLights[..] == seq(MaxShadowedOtherLightCount, _ => NoOtherLight) &&
      dirShadowMatrices[..] == seq(16, _ => ZeroMatrix) && otherShadowMatrices[..] == seq(16, _ => ZeroMatrix) &&
      cascadeCullingSpheres[..] == seq(MaxCascades, _ => Zero4) && cascadeDatas[..] == seq(MaxCascades, _ => Zero4) &&
      otherShadowTiles[..] == seq(16, _ => Zero4)
    }

    constructor(reversedZ: bool)
      ensures Valid() && Initial() && this.reversedZ == reversedZ
    {
      this.reversedZ := reversedZ;
      shadowedDirectionalLights := new ShadowedDirectionalLight[MaxShadowedDirectionalLightCount](_ => NoDirectionalLight);
      shadowedOtherLights := new ShadowedOtherLight[MaxShadowedOtherLightCount](_ => NoOtherLight);
      dirShadowMatrices := new Matrix[16](_ => ZeroMatrix);
      otherShadowMatrices := new Matrix[16](_ => ZeroMatrix);
      cascadeCullingSpheres := new Vec4[MaxCascades](_ => Zero4);
      otherShadowTiles := new Vec4[16](_ => Zero4);
      cascadeDatas := new Vec4[MaxCascades](_ => Zero4);
      buffer := [];
      cullingResults := NoCulling;
      settings := DefaultShadowSettings();
      shadowDirectionalLightCount := 0;
      shadowOtherLightCount := 0;
      useShadowMask := false;
      shadowAtlasSize := Zero4;
      otherStarts := [];
      hasSettings := false;
    }

    /** Starts a frame: no light holds a tile and the shadow mask is off. */
    method SetUp(cullingResults: CullingResults, shadowSettings: ShadowSettings)
      requires Valid()
      modifies this`cullingResults, this`settings, this`shadowDirectionalLightCount, this`shadowOtherLightCount,
               this`useShadowMask, this`otherStarts, this`hasSettings
      ensures Valid()
      ensures this.cullingResults == cullingResults && settings == shadowSettings && hasSettings
      ensures shadowDirectionalLightCount == 0 && shadowOtherLightCount == 0 && !useShadowMask
      ensures buffer == old(buffer) && shadowAtlasSize == old(shadowAtlasSize)
    {
      this.cullingResults := cullingResults;
      settings := shadowSettings;
      shadowDirectionalLightCount := 0;
      shadowOtherLightCount := 0;
      useShadowMask := false;
      otherStarts := [];
      hasSettings := true;
    }

    /** Gives a directional light its cascades' tiles when it casts shadows
        and fewer than four lights hold tiles. The result is the light's
        shadow data: strength, first tile, normal bias and mask channel; the
        strength is negated when the light has no casters in view (only
        baked shadows apply), and the result is zero when the light casts
        no shadows or no slot is left. */
    method ReserveDirectionalShadows(light: Light, visibleLightIndex: int) returns (r: Vec4)
      requires Valid()
      requires hasSettings || !(shadowDirectionalLightCount < MaxShadowedDirectionalLightCount && CastsShadows(light) &&
                                visibleLightIndex in cullingResults.casterBounds)
      modifies this`shadowDirectionalLightCount, this`useShadowMask, shadowedDirectionalLights
      ensures Valid()
      ensures var reserved := old(shadowDirectionalLightCount) < MaxShadowedDirectionalLightCount && CastsShadows(light);
              var inView := visibleLightIndex in cullingResults.casterBounds;
              var mask := MaskChannel(light.bakingOutput) as real;
              (!reserved ==> r == Zero4 && useShadowMask == old(useShadowMask)) &&
              (reserved ==> useShadowMask == (old(useShadowMask) || ShadowMaskBaked(light.bakingOutput))) &&
              (reserved && !inView ==> r == Vec4(-light.shadowStrength, 0.0, 0.0, mask)) &&
              (reserved && inView ==>
                 r == Vec4(light.shadowStrength, (old(shadowDirectionalLightCount) * settings.directional.cascadeCount) as real,
                           light.shadowNormalBias, mask))
      ensures if old(shadowDirectionalLightCount) < MaxShadowedDirectionalLightCount && CastsShadows(light) &&
                 visibleLightIndex in cullingResults.casterBounds
              then shadowDirectionalLightCount == old(shadowDirectionalLightCount) + 1 &&
                   shadowedDirectionalLights[..] == old(shadowedDirectionalLights[..])[old(shadowDirectionalLightCount) :=
                     ShadowedDirectionalLight(visibleLightIndex, light.shadowBias, light.shadowNearPlane)]
              else shadowDirectionalLightCount == old(shadowDirectionalLightCount) && unchanged(shadowedDirectionalLights)
    {
      if shadowDirectionalLightCount < MaxShadowedDirectionalLightCount &&
         light.shadows != NoShadows && light.shadowStrength > 0.0 {
        var maskChannel := -1;
        var lightBaking := light.bakingOutput;
        if lightBaking.lightmapBakeType == Mixed && lightBaking.mixedLightingMode == MixedLightingMode.Shadowmask {
          useShadowMask := true;
          maskChannel := lightBaking.occlusionMaskChannel;
        }
        if visibleLightIndex !in cullingResults.casterBounds {
          return Vec4(-light.shadowStrength, 0.0, 0.0, maskChannel as real);
        }
        var shadowDirectionalLightIndex := shadowDirectionalLightCount;
        shadowedDirectionalLights[shadowDirectionalLightIndex] :=
          ShadowedDirectionalLight(visibleLightIndex, light.shadowBias, light.shadowNearPlane);
        shadowDirectionalLightCount := shadowDirectionalLightCount + 1;
        return Vec4(light.shadowStrength, (shadowDirectionalLightIndex * settings.directional.cascadeCount) as real,
                    light.shadowNormalBias, maskChannel as real);
      }
      return Zero4;
    }

    /** Gives a spot light one tile and a point light six consecutive tiles
        of the other atlas, when the light casts shadows, the tiles fit in
        the sixteen and the light has casters in view. The result is the
        light's shadow data: strength (negated when no tile was given, zero
        when the light casts no shadows), first tile, 1 for a point light,
        and mask channel. */
    method ReserveOtherShadows(light: Light, visibleLightIndex: int) returns (r: Vec4)
      requires Valid()
      modifies this`shadowOtherLightCount, this`useShadowMask, this`otherStarts, shadowedOtherLights
      ensures Valid()
      ensures var isPoint := if light.lightType == Point then 1.0 else 0.0;
              var size := if light.lightType == Point then 6 else 1;
              var fits := old(shadowOtherLightCount) + size <= MaxShadowedOtherLightCount &&
                          visibleLightIndex in cullingResults.casterBounds;
              var mask := MaskChannel(light.bakingOutput) as real;
              (!CastsShadows(light) ==> r == Vec4(0.0, 0.0, isPoint, -1.0) && useShadowMask == old(useShadowMask)) &&
              (CastsShadows(light) ==> useShadowMask == (old(useShadowMask) || ShadowMaskBaked(light.bakingOutput))) &&
              (CastsShadows(light) && !fits ==> r == Vec4(-light.shadowStrength, 0.0, isPoint, mask)) &&
              (CastsShadows(light) && fits ==> r == Vec4(light.shadowStrength, old(shadowOtherLightCount) as real, isPoint, mask))
      ensures var size := if light.lightType == Point then 6 else 1;
              if CastsShadows(light) && old(shadowOtherLightCount) + size <= MaxShadowedOtherLightCount &&
                 visibleLightIndex in cullingResults.casterBounds
              then shadowOtherLightCount == old(shadowOtherLightCount) + size &&
                   otherStarts == old(otherStarts) + [old(shadowOtherLightCount)] &&
                   shadowedOtherLights[..] == old(shadowedOtherLights[..])[old(shadowOtherLightCount) :=
                     ShadowedOtherLight(visibleLightIndex, light.shadowBias, light.shadowNormalBias, light.lightType == Point)]
              else shadowOtherLightCount == old(shadowOtherLightCount) && otherStarts == old(otherStarts) &&
                   unchanged(shadowedOtherLights)
    {
      var isPoint := light.lightType == Point;
      if light.shadows == NoShadows || light.shadowStrength <= 0.0 {
        return Vec4(0.0, 0.0, if isPoint then 1.0 else 0.0, -1.0);
      }
      var maskChannel := -1;
      var lightBaking := light.bakingOutput;
      if lightBaking.lightmapBakeType == Mixed && lightBaking.mixedLightingMode == MixedLightingMode.Shadowmask {
        useShadowMask := true;
        maskChannel := lightBaking.occlusionMaskChannel;
      }
      var newShadowOtherLightCount := shadowOtherLightCount + (if isPoint then 6 else 1);
      if newShadowOtherLightCount > MaxShadowedOtherLightCount || visibleLightIndex !in cullingResults.casterBounds {
        return Vec4(-light.shadowStrength, 0.0, if isPoint then 1.0 else 0.0, maskChannel as real);
      }
      var shadowOtherLightIndex := shadowOtherLightCount;
      AddOtherLight(ShadowedOtherLight(visibleLightIndex, light.shadowBias, light.shadowNormalBias, isPoint));
      return Vec4(light.shadowStrength, shadowOtherLightIndex as real, if isPoint then 1.0 else 0.0, maskChannel as real);
    }

    /** Stores a reserved other light at the first free slot and takes its block of slots. */
    method AddOtherLight(l: ShadowedOtherLight)
      requires Valid() && shadowOtherLightCount + BlockSize(l) <= MaxShadowedOtherLightCount
      modifies this`shadowOtherLightCount, this`otherStarts, shadowedOtherLights
      ensures Valid()
      ensures shadowOtherLightCount == old(shadowOtherLightCount) + BlockSize(l)
      ensures otherStarts == old(otherStarts) + [old(shadowOtherLightCount)]
      ensures shadowedOtherLights[..] == old(shadowedOtherLights[..])[old(shadowOtherLightCount) := l]
    {
      ghost var before := shadowedOtherLights[..];
      shadowedOtherLights[shadowOtherLightCount] := l;
      ChainAppend(otherStarts, before, shadowOtherLightCount, shadowedOtherLights[..]);
      otherStarts := otherStarts + [shadowOtherLightCount];
      shadowOtherLightCount := shadowOtherLightCount + BlockSize(l);
    }

    /** Enables the keyword at enabledIndex and disables the others, in order. */
    method SetKeywords(keywords: seq<string>, enabledIndex: int)
      modifies this`buffer
      ensures buffer == old(buffer) + KeywordCommands(keywords, enabledIndex)
    {
      var i := 0;
      while i < |keywords|
        invariant 0 <= i <= |keywords|
        invariant buffer == old(buffer) + KeywordCommands(keywords, enabledIndex)[..i]
      {
        if i == enabledIndex {
          buffer := buffer + [SetKeyword(keywords[i], true)];
        } else {
          buffer := buffer + [SetKeyword(keywords[i], false)];
        }
        assert KeywordCommands(keywords, enabledIndex)[..i + 1] ==
               KeywordCommands(keywords, enabledIndex)[..i] + [KeywordCommands(keywords, enabledIndex)[i]];
        i := i + 1;
      }
      assert KeywordCommands(keywords, enabledIndex)[..i] == KeywordCommands(keywords, enabledIndex);
    }

    /** Stores cascade `index`'s culling sphere, shrunk by one filter kernel
        and squared, and its cascade datum. */
    method SetCascadeData(index: int, cullingSphere: Vec4, tileSize: int)
      requires Arrays() && 0 <= index < MaxCascades
      requires cullingSphere.w > 0.0 && tileSize > 2 * (settings.directional.filter.Ordinal() + 1)
      modifies cascadeCullingSpheres, cascadeDatas
      ensures var e := CascadeData(cullingSphere, tileSize, settings.directional.filter);
              cascadeCullingSpheres[..] == old(cascadeCullingSpheres[..])[index := e.sphere] &&
              cascadeDatas[..] == old(cascadeDatas[..])[index := e.data]
    {
      var texelSize := 2.0 * cullingSphere.w / tileSize as real;
      var filterSize := texelSize * (settings.directional.filter.Ordinal() + 1) as real;
      var radius := cullingSphere.w - filterSize;
      ghost var e := CascadeData(cullingSphere, tileSize, settings.directional.filter);
      assert radius == AdjustedRadius(cullingSphere.w, tileSize, settings.directional.filter);
      var sphere := cullingSphere.(w := radius * radius);
      assert sphere == e.sphere;
      cascadeCullingSpheres[index] := sphere;
      cascadeDatas[index] := Vec4(1.0 / sphere.w, 1.4142136 * filterSize, 0.0, 0.0);
    }

    /** Stores the tile data of other tile `index`. */
    method SetOtherTileData(index: int, offset: (int, int), scale: real, bias: real)
      requires Arrays() && 0 <= index < MaxShadowedOtherLightCount
      requires scale > 0.0 && shadowAtlasSize.w >= 0.0
      modifies otherShadowTiles
      ensures otherShadowTiles[..] == old(otherShadowTiles[..])[index := OtherTileData(offset, scale, bias, shadowAtlasSize.w)]
    {
      var border := shadowAtlasSize.w * 0.5;
      var x := offset.0 as real * scale + border;
      var y := offset.1 as real * scale + border;
      otherShadowTiles[index] := Vec4(x, y, scale - border - border, bias);
      assert otherShadowTiles[index] == OtherTileData(offset, scale, bias, shadowAtlasSize.w);
    }

    /** The directional atlas grid this frame: 1, 2 or 4 tiles per row for
        count * cascadeCount tiles, and the tile size in texels. */
    function DirectionalSplit(): int
      reads this`shadowDirectionalLightCount, this`settings
    {
      Split(shadowDirectionalLightCount * settings.directional.cascadeCount)
    }

    function DirectionalTileSize(): (t: int)
      reads this`shadowDirectionalLightCount, this`settings
      ensures t >= 64
    {
      TileSizeExact(settings.directional.atlasSize, DirectionalSplit());
      settings.directional.atlasSize.Pixels() / DirectionalSplit()
    }

    function OtherSplit(): int
      reads this`shadowOtherLightCount
    {
      Split(shadowOtherLightCount)
    }

    function OtherTileSize(): (t: int)
      reads this`shadowOtherLightCount, this`settings
      ensures t >= 64
    {
      TileSizeExact(settings.other.atlasSize, OtherSplit());
      settings.other.atlasSize.Pixels() / OtherSplit()
    }

    /** The tiles the directional pass renders this frame. */
    ghost function DirectionalPlan(): (jobs: seq<TileJob>)
      reads this`shadowDirectionalLightCount, this`settings, this`cullingResults, shadowedDirectionalLights
      requires 0 <= shadowDirectionalLightCount <= shadowedDirectionalLights.Length
      requires settings.directional.cascadeCount >= 0
    {
      DirectionalJobs(shadowedDirectionalLights[..], shadowDirectionalLightCount, settings.directional,
                      cullingResults, DirectionalTileSize())
    }

    /** The tiles the other pass renders this frame. */
    ghost function OtherPlan(): (jobs: seq<TileJob>)
      reads this`shadowDirectionalLightCount, this`shadowOtherLightCount, this`otherStarts, this`settings,
            this`cullingResults, shadowedOtherLights
      requires Valid()
    {
      OtherJobs(shadowedOtherLights[..], otherStarts, settings.other.filter, cullingResults, OtherTileSize())
    }

    /** The directional arrays after this frame's directional pass, over
        their contents m0, s0 and d0 before it: every tile of the plan holds
        its job's atlas matrix, the cascade arrays hold what the first light's
        cascades store, and every other entry is unchanged (all of them when
        no directional light holds tiles). */
    ghost predicate DirectionalArraysStored(m0: seq<Matrix>, s0: seq<Vec4>, d0: seq<Vec4>)
      reads this`shadowDirectionalLightCount, this`settings, this`cullingResults, shadowedDirectionalLights,
            dirShadowMatrices, cascadeCullingSpheres, cascadeDatas
      requires 0 <= shadowDirectionalLightCount <= shadowedDirectionalLights.Length
      requires settings.directional.cascadeCount >= 0
    {
      var d := settings.directional;
      var plan := DirectionalPlan();
      var first := DirectionalJobs(shadowedDirectionalLights[..], if shadowDirectionalLightCount > 0 then 1 else 0,
                                   d, cullingResults, DirectionalTileSize());
      dirShadowMatrices[..] == StoreMatrices(m0, plan, |plan|, DirectionalSplit(), reversedZ) &&
      cascadeCullingSpheres[..] == StoreVectors(s0, first, |first|, CascadeSphereOf(DirectionalTileSize(), d.filter)) &&
      cascadeDatas[..] == StoreVectors(d0, first, |first|, CascadeDatumOf(DirectionalTileSize(), d.filter))
    }

    /** The other arrays after this frame's other pass, over their contents
        m0 and t0 before it: every tile of the plan holds its job's atlas
        matrix and tile data, and every other entry is unchanged (all of them
        when no other light holds tiles). */
    ghost predicate OtherArraysStored(m0: seq<Matrix>, t0: seq<Vec4>)
      reads this`shadowDirectionalLightCount, this`shadowOtherLightCount, this`otherStarts, this`settings,
            this`cullingResults, this`shadowAtlasSize, shadowedOtherLights, otherShadowMatrices, otherShadowTiles
      requires Valid()
    {
      var plan := OtherPlan();
      otherShadowMatrices[..] == StoreMatrices(m0, plan, |plan|, OtherSplit(), reversedZ) &&
      otherShadowTiles[..] == StoreVectors(t0, plan, |plan|, OtherTileOf(OtherSplit(), shadowAtlasSize.w))
    }

    /** The state Render leaves, over the buffer b0 and the array contents
        before it: the buffer is b0 followed by the frame's render log, whose
        published arrays are those the passes leave, and the arrays hold what
        the two passes store. */
    ghost predicate Rendered(b0: seq<ShadowCmd>, shadowmaskMode: ShadowmaskMode, m0: seq<Matrix>, s0: seq<Vec4>,
                             d0: seq<Vec4>, om0: seq<Matrix>, ot0: seq<Vec4>)
      reads this, shadowedDirectionalLights, shadowedOtherLights, dirShadowMatrices, cascadeCullingSpheres, cascadeDatas,
            otherShadowMatrices, otherShadowTiles
      requires Valid() && ValidShadowSettings(settings)
    {
      buffer == b0 +
        RenderLog(shadowDirectionalLightCount, shadowOtherLightCount,
                  DirectionalPassLog(settings.directional, DirectionalPlan(), DirectionalSplit(),
                                     SetDirectionalArrays(dirShadowMatrices[..], cascadeCullingSpheres[..], cascadeDatas[..])),
                  OtherPassLog(settings.other, OtherPlan(), OtherSplit(),
                               SetOtherArrays(otherShadowMatrices[..], otherShadowTiles[..])),
                  settings.directional.cascadeCount, ShadowDistanceFade(settings), shadowAtlasSize,
                  ShadowMaskKeywordIndex(useShadowMask, shadowmaskMode)) &&
      DirectionalArraysStored(m0, s0, d0) && OtherArraysStored(om0, ot0)
    }

    /** Renders the frame's shadows: the directional atlas when a
        directional light holds tiles (a 1x1 placeholder atlas otherwise),
        the other atlas when an other light holds tiles (otherwise the other
        atlas name is bound to the directional atlas), then the globals every
        frame sets: the cascade count (0 without directional shadows), the
        distance fade, the atlas sizes and the shadow-mask keyword for the
        quality settings' shadow-mask mode. */
    method Render(shadowmaskMode: ShadowmaskMode)
      requires Valid() && hasSettings && ValidShadowSettings(settings)
      modifies this`buffer, this`shadowAtlasSize, dirShadowMatrices, cascadeCullingSpheres, cascadeDatas,
               otherShadowMatrices, otherShadowTiles
      ensures shadowAtlasSize == AtlasSizeAfter(old(shadowAtlasSize), shadowDirectionalLightCount, shadowOtherLightCount, settings)
      ensures Rendered(old(buffer), shadowmaskMode, old(dirShadowMatrices[..]), old(cascadeCullingSpheres[..]),
                       old(cascadeDatas[..]), old(otherShadowMatrices[..]), old(otherShadowTiles[..]))
      ensures shadowDirectionalLightCount == 0 ==> unchanged(dirShadowMatrices, cascadeCullingSpheres, cascadeDatas)
      ensures shadowOtherLightCount == 0 ==> unchanged(otherShadowMatrices, otherShadowTiles)
    {
      ghost var dirPass, otherPass := RenderAtlases();
      SetGlobals(shadowmaskMode);
      RenderLogAppend(old(buffer), shadowDirectionalLightCount, shadowOtherLightCount, dirPass, otherPass,
                      settings.directional.cascadeCount, ShadowDistanceFade(settings), shadowAtlasSize,
                      ShadowMaskKeywordIndex(useShadowMask, shadowmaskMode));
    }

    /** The globals Render sets every frame after the atlases: the cascade
        count (0 without directional shadows), the distance fade, the atlas
        sizes, and the shadow-mask keyword of the quality settings' mode
        (none without the shadow mask). */
    method SetGlobals(shadowmaskMode: ShadowmaskMode)
      requires ValidShadowSettings(settings)
      modifies this`buffer
      ensures buffer == old(buffer) +
                [SetCascadeCount(if shadowDirectionalLightCount > 0 then settings.directional.cascadeCount else 0),
                 SetDistanceFade(ShadowDistanceFade(settings)), SetAtlasSize(shadowAtlasSize)] +
                KeywordCommands(ShadowMaskKeywords, ShadowMaskKeywordIndex(useShadowMask, shadowmaskMode))
    {
      var cascadeCount := if shadowDirectionalLightCount > 0 then settings.directional.cascadeCount else 0;
      var fade := ShadowDistanceFade(settings);
      buffer := buffer + [SetCascadeCount(cascadeCount), SetDistanceFade(fade), SetAtlasSize(shadowAtlasSize)];
      var maskIndex := if useShadowMask then (if shadowmaskMode == ShadowmaskMode.Shadowmask then 0 else 1) else -1;
      SetKeywords(ShadowMaskKeywords, maskIndex);
    }

    /** The two atlases of Render, directional first; dirPass and otherPass
        are the logs of the two passes when they run. */
    method RenderAtlases() returns (ghost dirPass: seq<ShadowCmd>, ghost otherPass: seq<ShadowCmd>)
      requires Valid() && ValidShadowSettings(settings)
      modifies this`buffer, this`shadowAtlasSize, dirShadowMatrices, cascadeCullingSpheres, cascadeDatas,
               otherShadowMatrices, otherShadowTiles
      ensures shadowAtlasSize == AtlasSizeAfter(old(shadowAtlasSize), shadowDirectionalLightCount, shadowOtherLightCount, settings)
      ensures dirPass == DirectionalPassLog(settings.directional, DirectionalPlan(), DirectionalSplit(),
                                            SetDirectionalArrays(dirShadowMatrices[..], cascadeCullingSpheres[..], cascadeDatas[..]))
      ensures otherPass == OtherPassLog(settings.other, OtherPlan(), OtherSplit(),
                                        SetOtherArrays(otherShadowMatrices[..], otherShadowTiles[..]))
      ensures buffer == old(buffer) + (if shadowDirectionalLightCount > 0 then dirPass else [GetShadowAtlas(DirectionalAtlas, 1)]) +
                        (if shadowOtherLightCount > 0 then otherPass else [BindOtherAtlasToDirectional])
      ensures shadowDirectionalLightCount == 0 ==> unchanged(dirShadowMatrices, cascadeCullingSpheres, cascadeDatas)
      ensures shadowOtherLightCount == 0 ==> unchanged(otherShadowMatrices, otherShadowTiles)
      ensures DirectionalArraysStored(old(dirShadowMatrices[..]), old(cascadeCullingSpheres[..]), old(cascadeDatas[..]))
      ensures OtherArraysStored(old(otherShadowMatrices[..]), old(otherShadowTiles[..]))
    {
      RenderDirectionalAtlas();
      dirPass := DirectionalPassLog(settings.directional, DirectionalPlan(), DirectionalSplit(),
                                    SetDirectionalArrays(dirShadowMatrices[..], cascadeCullingSpheres[..], cascadeDatas[..]));
      RenderOtherAtlas();
      otherPass := OtherPassLog(settings.other, OtherPlan(), OtherSplit(),
                                SetOtherArrays(otherShadowMatrices[..], otherShadowTiles[..]));
    }

    /** The first step of Render: the directional atlas when a directional
        light holds tiles, otherwise a 1x1 placeholder that keeps the shader's
        texture slot bound. */
    method RenderDirectionalAtlas()
      requires Valid() && ValidShadowSettings(settings)
      modifies this`buffer, this`shadowAtlasSize, dirShadowMatrices, cascadeCullingSpheres, cascadeDatas
      ensures var atlas := settings.directional.atlasSize.Pixels();
              shadowAtlasSize == if shadowDirectionalLightCount > 0
                                 then old(shadowAtlasSize).(x := atlas as real, y := 1.0 / atlas as real)
                                 else old(shadowAtlasSize)
      ensures buffer == old(buffer) +
                if shadowDirectionalLightCount > 0
                then DirectionalPassLog(settings.directional, DirectionalPlan(), DirectionalSplit(),
                                        SetDirectionalArrays(dirShadowMatrices[..], cascadeCullingSpheres[..], cascadeDatas[..]))
                else [GetShadowAtlas(DirectionalAtlas, 1)]
      ensures shadowDirectionalLightCount == 0 ==> unchanged(dirShadowMatrices, cascadeCullingSpheres, cascadeDatas)
      ensures DirectionalArraysStored(old(dirShadowMatrices[..]), old(cascadeCullingSpheres[..]), old(cascadeDatas[..]))
    {
      if shadowDirectionalLightCount > 0 {
        RenderDirectionalShadows();
      } else {
        buffer := buffer + [GetShadowAtlas(DirectionalAtlas, 1)];
      }
    }

    /** The second step of Render: the other atlas when an other light holds
        tiles, otherwise the other atlas name is bound to the directional
        atlas. */
    method RenderOtherAtlas()
      requires Valid()
      modifies this`buffer, this`shadowAtlasSize, otherShadowMatrices, otherShadowTiles
      ensures var atlas := settings.other.atlasSize.Pixels();
              shadowAtlasSize == if shadowOtherLightCount > 0
                                 then old(shadowAtlasSize).(z := atlas as real, w := 1.0 / atlas as real)
                                 else old(shadowAtlasSize)
      ensures buffer == old(buffer) +
                if shadowOtherLightCount > 0
                then OtherPassLog(settings.other, OtherPlan(), OtherSplit(),
                                  SetOtherArrays(otherShadowMatrices[..], otherShadowTiles[..]))
                else [BindOtherAtlasToDirectional]
      ensures shadowOtherLightCount == 0 ==> unchanged(otherShadowMatrices, otherShadowTiles)
      ensures OtherArraysStored(old(otherShadowMatrices[..]), old(otherShadowTiles[..]))
    {
      if shadowOtherLightCount > 0 {
        RenderOtherShadows();
      } else {
        buffer := buffer + [BindOtherAtlasToDirectional];
      }
    }

    /** Renders the directional atlas: sets its size and texel size, acquires
        and clears it with shadow pancaking on, renders every reserved
        light's cascades in reservation order, publishes the matrices,
        culling spheres and cascade data, and selects the filter and
        cascade-blend keywords. The matrices hold what the directional plan
        stores, and the cascade arrays what the first light's cascades store. */
    method RenderDirectionalShadows()
      requires Valid() && settings.directional.cascadeCount <= MaxCascades
      modifies this`buffer, this`shadowAtlasSize, dirShadowMatrices, cascadeCullingSpheres, cascadeDatas
      ensures var atlas := settings.directional.atlasSize.Pixels();
              shadowAtlasSize == old(shadowAtlasSize).(x := atlas as real, y := 1.0 / atlas as real)
      ensures var plan := DirectionalPlan();
              buffer == old(buffer) + DirectionalPassLog(settings.directional, plan, DirectionalSplit(),
                          SetDirectionalArrays(dirShadowMatrices[..], cascadeCullingSpheres[..], cascadeDatas[..])) &&
              dirShadowMatrices[..] == StoreMatrices(old(dirShadowMatrices[..]), plan, |plan|, DirectionalSplit(), reversedZ)
      ensures var d := settings.directional;
              var first := DirectionalJobs(shadowedDirectionalLights[..], if shadowDirectionalLightCount > 0 then 1 else 0,
                                           d, cullingResults, DirectionalTileSize());
              cascadeCullingSpheres[..] == StoreVectors(old(cascadeCullingSpheres[..]), first, |first|,
                                                        CascadeSphereOf(DirectionalTileSize(), d.filter)) &&
              cascadeDatas[..] == StoreVectors(old(cascadeDatas[..]), first, |first|, CascadeDatumOf(DirectionalTileSize(), d.filter))
    {
      var atlasSize := settings.directional.atlasSize.Pixels();
      shadowAtlasSize := shadowAtlasSize.(x := atlasSize as real, y := 1.0 / atlasSize as real);
      buffer := buffer + [GetShadowAtlas(DirectionalAtlas, atlasSize), TargetAndClearAtlas(DirectionalAtlas), SetShadowPancaking(true)];
      var tiles := shadowDirectionalLightCount * settings.directional.cascadeCount;
      var split := if tiles <= 1 then 1 else if tiles <= 4 then 2 else 4;
      var tileSize := atlasSize / split;
      assert split == DirectionalSplit() && tileSize == DirectionalTileSize();
      RenderDirectionalLights(split, tileSize);
      var published := SetDirectionalArrays(dirShadowMatrices[..], cascadeCullingSpheres[..], cascadeDatas[..]);
      buffer := buffer + [published];
      SetKeywords(DirectionalFilterKeywords, settings.directional.filter.Ordinal() - 1);
      SetKeywords(CascadeBlendKeywords, settings.directional.cascadeBlend.Ordinal() - 1);
      DirectionalPassLogAppend(old(buffer), settings.directional, DirectionalPlan(), split, published);
    }

    /** The light loop of RenderDirectionalShadows: renders the reserved
        lights' cascades in reservation order into tiles of `tileSize`
        texels, `split` to a row. */
    method RenderDirectionalLights(split: int, tileSize: int)
      requires Valid() && settings.directional.cascadeCount <= MaxCascades
      requires split > 0 && tileSize >= 64
      modifies this`buffer, dirShadowMatrices, cascadeCullingSpheres, cascadeDatas
      ensures var d := settings.directional;
              var plan := DirectionalJobs(shadowedDirectionalLights[..], shadowDirectionalLightCount, d, cullingResults, tileSize);
              buffer == old(buffer) + TilesLog(plan, |plan|, split, tileSize) &&
              dirShadowMatrices[..] == StoreMatrices(old(dirShadowMatrices[..]), plan, |plan|, split, reversedZ)
      ensures var d := settings.directional;
              var first := DirectionalJobs(shadowedDirectionalLights[..], if shadowDirectionalLightCount > 0 then 1 else 0,
                                           d, cullingResults, tileSize);
              cascadeCullingSpheres[..] == StoreVectors(old(cascadeCullingSpheres[..]), first, |first|, CascadeSphereOf(tileSize, d.filter)) &&
              cascadeDatas[..] == StoreVectors(old(cascadeDatas[..]), first, |first|, CascadeDatumOf(tileSize, d.filter))
    {
      ghost var d := settings.directional;
      ghost var lights := shadowedDirectionalLights[..];
      ghost var m0, s0, c0 := dirShadowMatrices[..], cascadeCullingSpheres[..], cascadeDatas[..];
      ghost var sphereKind, datumKind := CascadeSphereOf(tileSize, d.filter), CascadeDatumOf(tileSize, d.filter);
      var i := 0;
      ghost var done: seq<TileJob> := [];
      ghost var first: seq<TileJob> := [];
      while i < shadowDirectionalLightCount
        invariant 0 <= i <= shadowDirectionalLightCount
        invariant done == DirectionalJobs(lights, i, d, cullingResults, tileSize)
        invariant first == DirectionalJobs(lights, if i > 0 then 1 else 0, d, cullingResults, tileSize)
        invariant buffer == old(buffer) + TilesLog(done, |done|, split, tileSize)
        invariant dirShadowMatrices[..] == StoreMatrices(m0, done, |done|, split, reversedZ)
        invariant cascadeCullingSpheres[..] == StoreVectors(s0, first, |first|, sphereKind)
        invariant cascadeDatas[..] == StoreVectors(c0, first, |first|, datumKind)
      {
        MulBound(i + 1, d.cascadeCount);
        assert (i + 1) * d.cascadeCount == i * d.cascadeCount + d.cascadeCount;
        ghost var part := CascadeJobs(lights[i], i, d.cascadeCount, d, cullingResults, tileSize);
        RenderDirectionalLightShadows(i, split, tileSize);
        DirectionalJobsNext(lights, i, d, cullingResults, tileSize);
        TilesLogConcat(done, part, split, tileSize);
        AppendAssoc(old(buffer), TilesLog(done, |done|, split, tileSize), TilesLog(part, |part|, split, tileSize));
        StoreMatricesConcat(m0, done, part, split, reversedZ);
        if i == 0 {
          first := part;
        }
        done := done + part;
        i := i + 1;
      }
    }

    /** Renders the cascades of the directional light reserved at `index`
        into tiles index * cascadeCount onwards; the first light also stores
        the cascade spheres and data. */
    method RenderDirectionalLightShadows(index: int, split: int, tileSize: int)
      requires Arrays() && settings.directional.cascadeCount <= MaxCascades
      requires 0 <= index < shadowDirectionalLightCount <= MaxShadowedDirectionalLightCount
      requires index * settings.directional.cascadeCount + settings.directional.cascadeCount <= 16
      requires split > 0 && tileSize >= 64
      modifies this`buffer, dirShadowMatrices, cascadeCullingSpheres, cascadeDatas
      ensures var d := settings.directional;
              var jobs := CascadeJobs(shadowedDirectionalLights[index], index, d.cascadeCount, d, cullingResults, tileSize);
              buffer == old(buffer) + TilesLog(jobs, |jobs|, split, tileSize) &&
              dirShadowMatrices[..] == StoreMatrices(old(dirShadowMatrices[..]), jobs, |jobs|, split, reversedZ)
      ensures var d := settings.directional;
              var jobs := CascadeJobs(shadowedDirectionalLights[index], index, d.cascadeCount, d, cullingResults, tileSize);
              var stored := if index == 0 then |jobs| else 0;
              cascadeCullingSpheres[..] == StoreVectors(old(cascadeCullingSpheres[..]), jobs, stored, CascadeSphereOf(tileSize, d.filter)) &&
              cascadeDatas[..] == StoreVectors(old(cascadeDatas[..]), jobs, stored, CascadeDatumOf(tileSize, d.filter))
    {
      var light := shadowedDirectionalLights[index];
      var d := settings.directional;
      var cascadeCount := d.cascadeCount;
      ghost var jobs := CascadeJobs(light, index, cascadeCount, d, cullingResults, tileSize);
      ghost var sphereKind, datumKind := CascadeSphereOf(tileSize, d.filter), CascadeDatumOf(tileSize, d.filter);
      ghost var b0, m0, s0, c0 := buffer, dirShadowMatrices[..], cascadeCullingSpheres[..], cascadeDatas[..];
      ghost var firstTile := index * cascadeCount;
      assert index == 0 ==> firstTile == 0;
      ghost var stored: nat := 0;
      var i := 0;
      while i < cascadeCount
        invariant 0 <= i <= cascadeCount && stored == (if index == 0 then i else 0)
        invariant buffer == b0 + TilesLog(jobs, i, split, tileSize)
        invariant dirShadowMatrices[..] == StoreMatrices(m0, jobs, i, split, reversedZ)
        invariant cascadeCullingSpheres[..] == StoreVectors(s0, jobs, stored, sphereKind)
        invariant cascadeDatas[..] == StoreVectors(c0, jobs, stored, datumKind)
      {
        RenderCascade(index, i, split, tileSize, jobs);
        TilesLogNext(b0, jobs, i, split, tileSize);
        StoreMatricesNext(m0, jobs, i, split, reversedZ);
        if index == 0 {
          StoreVectorsNext(s0, jobs, i, sphereKind);
          StoreVectorsNext(c0, jobs, i, datumKind);
          stored := stored + 1;
        }
        i := i + 1;
      }
    }

    /** Renders cascade `cascade` of the directional light reserved at
        `index` into tile index * cascadeCount + cascade: job `cascade` of
        that light's cascade list. */
    method RenderCascade(index: int, cascade: int, split: int, tileSize: int, ghost jobs: seq<TileJob>)
      requires Arrays() && settings.directional.cascadeCount <= MaxCascades
      requires 0 <= index < shadowDirectionalLightCount <= MaxShadowedDirectionalLightCount && 0 <= cascade < settings.directional.cascadeCount
      requires index * settings.directional.cascadeCount + settings.directional.cascadeCount <= 16
      requires split > 0 && tileSize >= 64
      requires jobs == CascadeJobs(shadowedDirectionalLights[index], index, settings.directional.cascadeCount,
                                   settings.directional, cullingResults, tileSize)
      modifies this`buffer, dirShadowMatrices, cascadeCullingSpheres, cascadeDatas
      ensures jobs[cascade].tile == index * settings.directional.cascadeCount + cascade
      ensures buffer == old(buffer) + TileCommands(jobs[cascade], split, tileSize)
      ensures dirShadowMatrices[..] == old(dirShadowMatrices[..])[jobs[cascade].tile := TileMatrix(jobs[cascade], split, reversedZ)]
      ensures CascadeStored(index == 0, jobs[cascade], CascadeSphereOf(tileSize, settings.directional.filter),
                            CascadeDatumOf(tileSize, settings.directional.filter),
                            old(cascadeCullingSpheres[..]), old(cascadeDatas[..]), cascadeCullingSpheres[..], cascadeDatas[..])
    {
      var light := shadowedDirectionalLights[index];
      var d := settings.directional;
      var cascadeCount := d.cascadeCount;
      var splitData := cullingResults.directionalShadows(light.visibleLightIndex, cascade, cascadeCount, d.CascadeRatio(),
                                                         tileSize, light.nearClipOffset);
      var cullingFactor := if 0.0 > 0.8 - d.cascadeDistance then 0.0 else 0.8 - d.cascadeDistance;
      splitData := splitData.(blendCullingFactor := cullingFactor);
      CascadeJobAt(light, index, cascadeCount, d, cullingResults, tileSize, cascade);
      ghost var job := jobs[cascade];
      assert splitData == job.slice;
      if index == 0 {
        SetCascadeData(cascade, splitData.cullingSphere, tileSize);
      }
      var tileIndex := index * cascadeCount + cascade;
      var offset := TileOffset(tileIndex, split);
      dirShadowMatrices[tileIndex] := ConverToAtlasMatrix(Mul(splitData.proj, splitData.view), offset, split, reversedZ);
      buffer := buffer + [SetViewport(Rect(offset.0 * tileSize, offset.1 * tileSize, tileSize, tileSize)),
                          SetViewProjection(splitData.view, splitData.proj),
                          SetDepthBias(light.slopeScaleBias),
                          DrawShadows(light.visibleLightIndex, splitData),
                          SetDepthBias(0.0)];
    }

    /** Renders the other atlas: sets its size and texel size, acquires and
        clears it with shadow pancaking off, renders every reserved light's
        block of tiles in slot order, publishes the matrices and tile data,
        and selects the filter keyword. The arrays hold what the other plan
        stores. */
    method RenderOtherShadows()
      requires Valid()
      modifies this`buffer, this`shadowAtlasSize, otherShadowMatrices, otherShadowTiles
      ensures var atlas := settings.other.atlasSize.Pixels();
              shadowAtlasSize == old(shadowAtlasSize).(z := atlas as real, w := 1.0 / atlas as real)
      ensures var plan := OtherPlan();
              buffer == old(buffer) + OtherPassLog(settings.other, plan, OtherSplit(),
                                                   SetOtherArrays(otherShadowMatrices[..], otherShadowTiles[..])) &&
              otherShadowMatrices[..] == StoreMatrices(old(otherShadowMatrices[..]), plan, |plan|, OtherSplit(), reversedZ) &&
              otherShadowTiles[..] == StoreVectors(old(otherShadowTiles[..]), plan, |plan|, OtherTileOf(OtherSplit(), shadowAtlasSize.w))
    {
      var atlasSize := settings.other.atlasSize.Pixels();
      shadowAtlasSize := shadowAtlasSize.(z := atlasSize as real, w := 1.0 / atlasSize as real);
      buffer := buffer + [GetShadowAtlas(OtherAtlas, atlasSize), TargetAndClearAtlas(OtherAtlas), SetShadowPancaking(false)];
      var split := if shadowOtherLightCount <= 1 then 1 else if shadowOtherLightCount <= 4 then 2 else 4;
      var tileSize := atlasSize / split;
      assert split == OtherSplit() && tileSize == OtherTileSize();
      RenderOtherLights(split, tileSize);
      var published := SetOtherArrays(otherShadowMatrices[..], otherShadowTiles[..]);
      buffer := buffer + [published];
      SetKeywords(OtherFilterKeywords, settings.other.filter.Ordinal() - 1);
      OtherPassLogAppend(old(buffer), settings.other, OtherPlan(), split, published);
    }

    /** The light loop of RenderOtherShadows: walks the slot table from slot
        0, rendering a point light's six faces and skipping its six slots, or
        a spot light's single tile. It visits exactly the reserved blocks. */
    method RenderOtherLights(split: int, tileSize: int)
      requires Valid() && split > 0 && tileSize >= 64 && shadowAtlasSize.w >= 0.0
      modifies this`buffer, otherShadowMatrices, otherShadowTiles
      ensures var plan := OtherJobs(shadowedOtherLights[..], otherStarts, settings.other.filter, cullingResults, tileSize);
              buffer == old(buffer) + TilesLog(plan, |plan|, split, tileSize) &&
              otherShadowMatrices[..] == StoreMatrices(old(otherShadowMatrices[..]), plan, |plan|, split, reversedZ) &&
              otherShadowTiles[..] == StoreVectors(old(otherShadowTiles[..]), plan, |plan|, OtherTileOf(split, shadowAtlasSize.w))
    {
      ghost var lights, starts, filter := shadowedOtherLights[..], otherStarts, settings.other.filter;
      ghost var m0, t0 := otherShadowMatrices[..], otherShadowTiles[..];
      ghost var kind := OtherTileOf(split, shadowAtlasSize.w);
      var i := 0;
      ghost var k := 0;
      ghost var done: seq<TileJob> := [];
      while i < shadowOtherLightCount
        invariant 0 <= k <= |starts|
        invariant i == if k < |starts| then starts[k] else shadowOtherLightCount
        invariant done == OtherJobs(lights, starts[..k], filter, cullingResults, tileSize)
        invariant buffer == old(buffer) + TilesLog(done, |done|, split, tileSize)
        invariant otherShadowMatrices[..] == StoreMatrices(m0, done, |done|, split, reversedZ)
        invariant otherShadowTiles[..] == StoreVectors(t0, done, |done|, kind)
        decreases shadowOtherLightCount - i
      {
        ChainNext(starts, lights, shadowOtherLightCount, k);
        ghost var part := BlockJobs(lights[i], i, filter, cullingResults, tileSize);
        if shadowedOtherLights[i].isPoint {
          RenderPointShadows(i, split, tileSize);
          i := i + 6;
        } else {
          RenderSpotShadows(i, split, tileSize);
          i := i + 1;
        }
        OtherJobsNext(lights, starts, k, filter, cullingResults, tileSize);
        TilesLogConcat(done, part, split, tileSize);
        AppendAssoc(old(buffer), TilesLog(done, |done|, split, tileSize), TilesLog(part, |part|, split, tileSize));
        StoreMatricesConcat(m0, done, part, split, reversedZ);
        StoreVectorsConcat(t0, done, part, kind);
        done := done + part;
        k := k + 1;
      }
      assert starts[..k] == starts;
    }

    /** Renders the spot light reserved at slot `index` into tile `index`. */
    method RenderSpotShadows(index: int, split: int, tileSize: int)
      requires Arrays() && 0 <= index < MaxShadowedOtherLightCount
      requires split > 0 && tileSize > 0 && shadowAtlasSize.w >= 0.0
      modifies this`buffer, otherShadowMatrices, otherShadowTiles
      ensures var jobs := [SpotJob(shadowedOtherLights[index], index, settings.other.filter, cullingResults, tileSize)];
              buffer == old(buffer) + TilesLog(jobs, 1, split, tileSize) &&
              otherShadowMatrices[..] == StoreMatrices(old(otherShadowMatrices[..]), jobs, 1, split, reversedZ) &&
              otherShadowTiles[..] == StoreVectors(old(otherShadowTiles[..]), jobs, 1, OtherTileOf(split, shadowAtlasSize.w))
    {
      ghost var b0, m0, t0 := buffer, otherShadowMatrices[..], otherShadowTiles[..];
      var light := shadowedOtherLights[index];
      var s := cullingResults.spotShadows(light.visibleLightIndex);
      var texelSize := 2.0 / (tileSize as real * s.proj.r0.x);
      var filterSize := texelSize * (settings.other.filter.Ordinal() + 1) as real;
      var bias := 1.4142136 * filterSize * light.normalBias;
      ghost var jobs := [SpotJob(light, index, settings.other.filter, cullingResults, tileSize)];
      assert jobs[0] == TileJob(index, light.visibleLightIndex, s, light.slopeScaleBias, bias);
      var offset := TileOffset(index, split);
      otherShadowMatrices[index] := ConverToAtlasMatrix(Mul(s.proj, s.view), offset, split, reversedZ);
      SetOtherTileData(index, offset, 1.0 / split as real, bias);
      buffer := buffer + [SetViewport(Rect(offset.0 * tileSize, offset.1 * tileSize, tileSize, tileSize)),
                          SetViewProjection(s.view, s.proj),
                          SetDepthBias(light.slopeScaleBias),
                          DrawShadows(light.visibleLightIndex, s),
                          SetDepthBias(0.0)];
      TilesLogNext(b0, jobs, 0, split, tileSize);
      StoreMatricesNext(m0, jobs, 0, split, reversedZ);
      StoreVectorsNext(t0, jobs, 0, OtherTileOf(split, shadowAtlasSize.w));
    }

    /** Renders the six cube faces of the point light reserved at slot
        `index` into tiles index to index + 5, each with its view flipped
        upside down. */
    method RenderPointShadows(index: int, split: int, tileSize: int)
      requires Arrays() && 0 <= index && index + 6 <= MaxShadowedOtherLightCount
      requires split > 0 && tileSize > 0 && shadowAtlasSize.w >= 0.0
      modifies this`buffer, otherShadowMatrices, otherShadowTiles
      ensures var jobs := PointJobs(shadowedOtherLights[index], index, 6, settings.other.filter, cullingResults, tileSize);
              buffer == old(buffer) + TilesLog(jobs, 6, split, tileSize) &&
              otherShadowMatrices[..] == StoreMatrices(old(otherShadowMatrices[..]), jobs, 6, split, reversedZ) &&
              otherShadowTiles[..] == StoreVectors(old(otherShadowTiles[..]), jobs, 6, OtherTileOf(split, shadowAtlasSize.w))
    {
      var light := shadowedOtherLights[index];
      var texelSize := 2.0 / tileSize as real;
      var filterSize := texelSize * (settings.other.filter.Ordinal() + 1) as real;
      var bias := 1.4142136 * filterSize * light.normalBias;
      assert bias == NormalBias(texelSize, settings.other.filter, light.normalBias);
      ghost var jobs := PointJobs(light, index, 6, settings.other.filter, cullingResults, tileSize);
      ghost var kind := OtherTileOf(split, shadowAtlasSize.w);
      ghost var b0, m0, t0 := buffer, otherShadowMatrices[..], otherShadowTiles[..];
      var i := 0;
      while i < 6
        invariant 0 <= i <= 6
        invariant buffer == b0 + TilesLog(jobs, i, split, tileSize)
        invariant otherShadowMatrices[..] == StoreMatrices(m0, jobs, i, split, reversedZ)
        invariant otherShadowTiles[..] == StoreVectors(t0, jobs, i, kind)
      {
        RenderPointFace(index, i, split, tileSize, bias, jobs, b0, m0, t0);
        i := i + 1;
      }
    }

    /** Renders cube face `face` of the point light reserved at slot `index`
        into tile index + face: job `face` of the light's face list. */
    method RenderPointFace(index: int, face: int, split: int, tileSize: int, bias: real, ghost jobs: seq<TileJob>,
                           ghost b0: seq<ShadowCmd>, ghost m0: seq<Matrix>, ghost t0: seq<Vec4>)
      requires Arrays() && 0 <= index && index + 6 <= MaxShadowedOtherLightCount && 0 <= face < 6
      requires split > 0 && tileSize > 0 && shadowAtlasSize.w >= 0.0
      requires jobs == PointJobs(shadowedOtherLights[index], index, 6, settings.other.filter, cullingResults, tileSize)
      requires bias == NormalBias(2.0 / tileSize as real, settings.other.filter, shadowedOtherLights[index].normalBias)
      requires buffer == b0 + TilesLog(jobs, face, split, tileSize)
      requires otherShadowMatrices[..] == StoreMatrices(m0, jobs, face, split, reversedZ)
      requires otherShadowTiles[..] == StoreVectors(t0, jobs, face, OtherTileOf(split, shadowAtlasSize.w))
      modifies this`buffer, otherShadowMatrices, otherShadowTiles
      ensures buffer == b0 + TilesLog(jobs, face + 1, split, tileSize)
      ensures otherShadowMatrices[..] == StoreMatrices(m0, jobs, face + 1, split, reversedZ)
      ensures otherShadowTiles[..] == StoreVectors(t0, jobs, face + 1, OtherTileOf(split, shadowAtlasSize.w))
    {
      var light := shadowedOtherLights[index];
      var s := cullingResults.pointShadows(light.visibleLightIndex, face);
      var view := s.view.(r1 := Vec4(-s.view.r1.x, -s.view.r1.y, -s.view.r1.z, -s.view.r1.w));
      PointJobAt(light, index, 6, settings.other.filter, cullingResults, tileSize, face);
      assert view == jobs[face].slice.view;
      var tileIndex := index + face;
      var offset := TileOffset(tileIndex, split);
      otherShadowMatrices[tileIndex] := ConverToAtlasMatrix(Mul(s.proj, view), offset, split, reversedZ);
      SetOtherTileData(tileIndex, offset, 1.0 / split as real, bias);
      buffer := buffer + [SetViewport(Rect(offset.0 * tileSize, offset.1 * tileSize, tileSize, tileSize)),
                          SetViewProjection(view, s.proj),
                          SetDepthBias(light.slopeScaleBias),
                          DrawShadows(light.visibleLightIndex, s.(view := view)),
                          SetDepthBias(0.0)];
      TilesLogNext(b0, jobs, face, split, tileSize);
      StoreMatricesNext(m0, jobs, face, split, reversedZ);
      StoreVectorsNext(t0, jobs, face, OtherTileOf(split, shadowAtlasSize.w));
    }

    /** Releases the directional atlas, and the other atlas when this frame acquired it. */
    method CleanUp()
      modifies this`buffer
      ensures buffer == old(buffer) + CleanUpLog(shadowOtherLightCount)
    {
      buffer := buffer + [ReleaseShadowAtlas(DirectionalAtlas)];
      if shadowOtherLightCount > 0 {
        buffer := buffer + [ReleaseShadowAtlas(OtherAtlas)];
      }
    }
  }
}
