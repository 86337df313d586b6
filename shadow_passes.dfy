/** What the two shadow passes of one frame draw, as values: the reserved
    lights, the chain of atlas slots the other lights occupy, the list of tile
    jobs each pass renders in order, the atlas matrix and tile data each job
    stores, and the commands each pass submits. The Shadows class is proved
    against these functions. */
module ShadowPasses {
  import opened Geometry
  import opened ShadowConfig
  import opened ShadowAtlas
  import opened Scene

  const MaxShadowedDirectionalLightCount: int := 4
  const MaxShadowedOtherLightCount: int := 16

  datatype ShadowedDirectionalLight = ShadowedDirectionalLight(
    visibleLightIndex: int,
    slopeScaleBias: real,
    nearClipOffset: real)

  datatype ShadowedOtherLight = ShadowedOtherLight(
    visibleLightIndex: int,
    slopeScaleBias: real,
    normalBias: real,
    isPoint: bool)

  /** The default values of the two structs: every field zero or false. */
  const NoDirectionalLight: ShadowedDirectionalLight := ShadowedDirectionalLight(0, 0.0, 0.0)
  const NoOtherLight: ShadowedOtherLight := ShadowedOtherLight(0, 0.0, 0.0, false)

  /** The number of atlas tiles an other light takes: six cube faces for a
      point light, one tile for a spot light. */
  function BlockSize(l: ShadowedOtherLight): int {
    if l.isPoint then 6 else 1
  }

  /** A light asks for a shadow when its shadows are on and its strength is positive. */
  predicate CastsShadows(light: Light) {
    light.shadows != NoShadows && light.shadowStrength > 0.0
  }

  /** The light's shadows are baked into the shadow mask (mixed lighting in Shadowmask mode). */
  predicate ShadowMaskBaked(b: LightBakingOutput) {
    b.lightmapBakeType.Mixed? && b.mixedLightingMode.Shadowmask?
  }

  /** The occlusion-mask channel reported to the shader, -1 for none. */
  function MaskChannel(b: LightBakingOutput): int {
    if ShadowMaskBaked(b) then b.occlusionMaskChannel else -1
  }

  // ---------------------------------------------------------------- slot chain

  /** The other-light slot table holds one entry per reserved light, at the
      first slot of its block; the slots a point light's other five faces take
      are skipped. `starts` lists the first slots in reservation order: they
      begin at 0, each follows the previous block, and the last block ends at
      the reserved slot count. */
  ghost predicate Chained(starts: seq<int>, lights: seq<ShadowedOtherLight>, count: int) {
    (forall k :: 0 <= k < |starts| ==> 0 <= starts[k] < count && starts[k] < |lights|) &&
    (forall k :: 0 <= k < |starts| - 1 ==> starts[k + 1] == starts[k] + BlockSize(lights[starts[k]])) &&
    (if starts == [] then count == 0
     else starts[0] == 0 && starts[|starts| - 1] + BlockSize(lights[starts[|starts| - 1]]) == count)
  }

  /** Reserving a light at the first free slot extends the chain by one block;
      the slots of the earlier blocks are untouched. */
  lemma ChainAppend(starts: seq<int>, lights: seq<ShadowedOtherLight>, count: int, lights': seq<ShadowedOtherLight>)
    requires Chained(starts, lights, count)
    requires 0 <= count < |lights'| && |lights'| == |lights|
    requires forall j :: 0 <= j < count ==> lights'[j] == lights[j]
    ensures Chained(starts + [count], lights', count + BlockSize(lights'[count]))
  {
    var s := starts + [count];
    forall k | 0 <= k < |s| - 1
      ensures s[k + 1] == s[k] + BlockSize(lights'[s[k]])
    {
      if k < |starts| - 1 {
        assert s[k + 1] == starts[k + 1];
      }
    }
  }

  /** The blocks before the k-th one form a chain that ends where the k-th block starts. */
  lemma ChainPrefix(starts: seq<int>, lights: seq<ShadowedOtherLight>, count: int, k: int)
    requires Chained(starts, lights, count) && 0 <= k < |starts|
    ensures Chained(starts[..k], lights, starts[k])
  {
    if k > 0 {
      ChainIncreasing(starts, lights, count, k - 1, k);
      forall i | 0 <= i < k
        ensures starts[i] < starts[k]
      {
        if i < k - 1 {
          ChainIncreasing(starts, lights, count, i, k - 1);
        }
      }
    }
  }

  /** Block k of a chain fits below the slot count, and the next block (or the
      count, after the last one) starts where it ends. */
  lemma ChainNext(starts: seq<int>, lights: seq<ShadowedOtherLight>, count: int, k: int)
    requires Chained(starts, lights, count) && 0 <= k < |starts|
    ensures starts[k] + BlockSize(lights[starts[k]]) <= count
    ensures k + 1 < |starts| ==> starts[k + 1] == starts[k] + BlockSize(lights[starts[k]])
    ensures k + 1 == |starts| ==> starts[k] + BlockSize(lights[starts[k]]) == count
  {
    if k + 1 < |starts| {
      assert starts[k + 1] == starts[k] + BlockSize(lights[starts[k]]);
      assert starts[k + 1] < count;
    }
  }

  /** Blocks come in increasing slot order, each ending before the next
      starts, so no two reserved lights share a slot. */
  lemma {:induction false} ChainIncreasing(starts: seq<int>, lights: seq<ShadowedOtherLight>, count: int, i: int, j: int)
    requires Chained(starts, lights, count) && 0 <= i < j < |starts|
    ensures starts[i] + BlockSize(lights[starts[i]]) <= starts[j]
  {
    if i < j - 1 {
      ChainIncreasing(starts, lights, count, i, j - 1);
      assert starts[j] == starts[j - 1] + BlockSize(lights[starts[j - 1]]);
    }
  }

  // ---------------------------------------------------------------- tile jobs

  /** One shadow tile to render: the tile index in the atlas, the light, the
      split data the culling produced (with the view matrix as drawn), the
      depth bias and the normal bias stored in the tile data. */
  datatype TileJob = TileJob(
    tile: nat,
    visibleLightIndex: int,
    slice: ShadowSlice,
    slopeScaleBias: real,
    normalBias: real)

  /** max(0, 0.8 - cascadeDistance), the cascade-blend culling factor. */
  function CullingFactor(d: Directional): (f: real)
    ensures f >= 0.0 && f >= 0.8 - d.cascadeDistance
    ensures f == 0.0 || f == 0.8 - d.cascadeDistance
  {
    if 0.8 - d.cascadeDistance > 0.0 then 0.8 - d.cascadeDistance else 0.0
  }

  /** Cascade `cascade` of the directional light reserved at `index`. */
  function DirectionalJob(l: ShadowedDirectionalLight, index: nat, cascade: nat, d: Directional,
                          culling: CullingResults, tileSize: int): TileJob
  {
    var s := culling.directionalShadows(l.visibleLightIndex, cascade, d.cascadeCount, d.CascadeRatio(), tileSize, l.nearClipOffset);
    TileJob(index * d.cascadeCount + cascade, l.visibleLightIndex, s.(blendCullingFactor := CullingFactor(d)),
            l.slopeScaleBias, 0.0)
  }

  /** The first n cascades of one directional light. */
  function CascadeJobs(l: ShadowedDirectionalLight, index: nat, n: nat, d: Directional,
                       culling: CullingResults, tileSize: int): (jobs: seq<TileJob>)
    ensures |jobs| == n
  {
    if n == 0 then []
    else CascadeJobs(l, index, n - 1, d, culling, tileSize) + [DirectionalJob(l, index, n - 1, d, culling, tileSize)]
  }

  /** Job i of a light's cascade list is its cascade i. */
  lemma {:induction false} CascadeJobAt(l: ShadowedDirectionalLight, index: nat, n: nat, d: Directional,
                                        culling: CullingResults, tileSize: int, i: nat)
    requires i < n
    ensures CascadeJobs(l, index, n, d, culling, tileSize)[i] == DirectionalJob(l, index, i, d, culling, tileSize)
    decreases n
  {
    if i < n - 1 {
      CascadeJobAt(l, index, n - 1, d, culling, tileSize, i);
    }
  }

  /** The cascades of the first n reserved directional lights, light by light. */
  function DirectionalJobs(lights: seq<ShadowedDirectionalLight>, n: int, d: Directional,
                           culling: CullingResults, tileSize: int): (jobs: seq<TileJob>)
    requires 0 <= n <= |lights|
    ensures |jobs| == n * d.cascadeCount
  {
    assert n * d.cascadeCount == (n - 1) * d.cascadeCount + d.cascadeCount;
    if n == 0 then []
    else DirectionalJobs(lights, n - 1, d, culling, tileSize) + CascadeJobs(lights[n - 1], n - 1, d.cascadeCount, d, culling, tileSize)
  }

  /** Reserving one more light appends its cascades. */
  lemma DirectionalJobsNext(lights: seq<ShadowedDirectionalLight>, n: int, d: Directional,
                            culling: CullingResults, tileSize: int)
    requires 0 <= n < |lights|
    ensures DirectionalJobs(lights, n + 1, d, culling, tileSize) ==
            DirectionalJobs(lights, n, d, culling, tileSize) + CascadeJobs(lights[n], n, d.cascadeCount, d, culling, tileSize)
  {
  }

  lemma MulAtLeast(x: int, d: int)
    requires x >= 1 && d > 0
    ensures x * d >= d
  {
    assert x * d == (x - 1) * d + d;
  }

  lemma MulSmall(x: int, d: int)
    requires d > 0 && -d < x * d < d
    ensures x == 0
  {
    if x > 0 {
      MulAtLeast(x, d);
    } else if x < 0 {
      MulAtLeast(-x, d);
    }
  }

  /** Tile q * d + r of a row of d tiles is column r of row q. */
  lemma DivModOfTile(q: int, r: int, d: int)
    requires 0 <= q && 0 <= r < d
    ensures (q * d + r) / d == q && (q * d + r) % d == r
  {
    var t := q * d + r;
    var k, m := t / d, t % d;
    assert k * d + m == q * d + r;
    assert (k - q) * d == r - m;
    MulSmall(k - q, d);
  }

  /** The last light's cascades close the directional pass. */
  lemma LastLightJob(lights: seq<ShadowedDirectionalLight>, n: int, d: Directional,
                     culling: CullingResults, tileSize: int, i: int)
    requires 0 < n <= |lights| && 0 <= i < d.cascadeCount
    ensures (n - 1) * d.cascadeCount + i < |DirectionalJobs(lights, n, d, culling, tileSize)|
    ensures DirectionalJobs(lights, n, d, culling, tileSize)[(n - 1) * d.cascadeCount + i] ==
            DirectionalJob(lights[n - 1], n - 1, i, d, culling, tileSize)
  {
    var before := DirectionalJobs(lights, n - 1, d, culling, tileSize);
    var last := CascadeJobs(lights[n - 1], n - 1, d.cascadeCount, d, culling, tileSize);
    assert DirectionalJobs(lights, n, d, culling, tileSize) == before + last;
    assert (before + last)[|before| + i] == last[i];
    CascadeJobAt(lights[n - 1], n - 1, d.cascadeCount, d, culling, tileSize, i);
  }

  /** Adding a light leaves the earlier lights' jobs in place. */
  lemma EarlierJob(lights: seq<ShadowedDirectionalLight>, n: int, d: Directional,
                   culling: CullingResults, tileSize: int, j: int)
    requires 0 < n <= |lights| && 0 <= j < (n - 1) * d.cascadeCount
    ensures DirectionalJobs(lights, n, d, culling, tileSize)[j] == DirectionalJobs(lights, n - 1, d, culling, tileSize)[j]
  {
    var before := DirectionalJobs(lights, n - 1, d, culling, tileSize);
    var last := CascadeJobs(lights[n - 1], n - 1, d.cascadeCount, d, culling, tileSize);
    assert DirectionalJobs(lights, n, d, culling, tileSize) == before + last;
  }

  lemma MulMonotonic(a: int, b: int, c: int)
    requires a <= b && c >= 0
    ensures a * c <= b * c
  {
    assert b * c - a * c == (b - a) * c;
  }

  /** Job q * cascadeCount + r of the directional pass is cascade r of the
      light reserved at q. */
  lemma {:induction false} DirectionalJobAt(lights: seq<ShadowedDirectionalLight>, n: int, d: Directional,
                                            culling: CullingResults, tileSize: int, q: int, r: int)
    requires 0 <= q < n <= |lights| && 0 <= r < d.cascadeCount
    ensures q * d.cascadeCount + r < |DirectionalJobs(lights, n, d, culling, tileSize)|
    ensures DirectionalJobs(lights, n, d, culling, tileSize)[q * d.cascadeCount + r] ==
            DirectionalJob(lights[q], q, r, d, culling, tileSize)
  {
    if q == n - 1 {
      LastLightJob(lights, n, d, culling, tileSize, r);
    } else {
      DirectionalJobAt(lights, n - 1, d, culling, tileSize, q, r);
      MulMonotonic(q + 1, n - 1, d.cascadeCount);
      assert (q + 1) * d.cascadeCount == q * d.cascadeCount + d.cascadeCount;
      EarlierJob(lights, n, d, culling, tileSize, q * d.cascadeCount + r);
    }
  }

  /** Job j of the directional pass is cascade j % cascadeCount of the light
      reserved at j / cascadeCount, and it renders into tile j. */
  lemma DirectionalJobOf(lights: seq<ShadowedDirectionalLight>, n: int, d: Directional,
                         culling: CullingResults, tileSize: int, j: int)
    requires 0 <= n <= |lights| && d.cascadeCount > 0 && 0 <= j < n * d.cascadeCount
    ensures j / d.cascadeCount < n
    ensures DirectionalJobs(lights, n, d, culling, tileSize)[j] ==
            DirectionalJob(lights[j / d.cascadeCount], j / d.cascadeCount, j % d.cascadeCount, d, culling, tileSize)
    ensures DirectionalJobs(lights, n, d, culling, tileSize)[j].tile == j
  {
    var cc := d.cascadeCount;
    var q, r := j / cc, j % cc;
    assert j == q * cc + r;
    if q >= n {
      MulMonotonic(n, q, cc);
      assert false;
    }
    DirectionalJobAt(lights, n, d, culling, tileSize, q, r);
  }

  /** The culling sphere and cascade datum stored for cascade `cascade`: they
      come from the split data of the directional light reserved first. */
  function CascadeEntryOf(l: ShadowedDirectionalLight, cascade: nat, d: Directional,
                          culling: CullingResults, tileSize: int): CascadeEntry
    requires tileSize > 2 * (d.filter.Ordinal() + 1)
  {
    CascadeData(DirectionalJob(l, 0, cascade, d, culling, tileSize).slice.cullingSphere, tileSize, d.filter)
  }

  /** The normal bias stored for an other light: sqrt(2) times one filter
      kernel of texels times the light's normal bias. */
  function NormalBias(texelSize: real, filter: FilterMode, normalBias: real): real {
    1.4142136 * (texelSize * (filter.Ordinal() + 1) as real) * normalBias
  }

  /** The spot light reserved at `index`; its texel size at unit distance is
      2 / (tileSize * m00) of its projection. */
  function SpotJob(l: ShadowedOtherLight, index: nat, filter: FilterMode, culling: CullingResults, tileSize: int): TileJob
    requires tileSize > 0
  {
    var s := culling.spotShadows(l.visibleLightIndex);
    var texelSize := 2.0 / (tileSize as real * s.proj.r0.x);
    TileJob(index, l.visibleLightIndex, s, l.slopeScaleBias, NormalBias(texelSize, filter, l.normalBias))
  }

  /** Negates the second row of a view matrix: the cube faces are drawn upside down. */
  function FlipY(view: Matrix): (r: Matrix)
    ensures r.r0 == view.r0 && r.r2 == view.r2 && r.r3 == view.r3
    ensures Add(r.r1, view.r1) == Zero4
  {
    view.(r1 := Negate(view.r1))
  }

  /** Cube face `face` of the point light reserved at `index`, in tile index + face. */
  function PointJob(l: ShadowedOtherLight, index: nat, face: nat, filter: FilterMode, culling: CullingResults, tileSize: int): TileJob
    requires tileSize > 0
  {
    var s := culling.pointShadows(l.visibleLightIndex, face);
    TileJob(index + face, l.visibleLightIndex, s.(view := FlipY(s.view)), l.slopeScaleBias,
            NormalBias(2.0 / tileSize as real, filter, l.normalBias))
  }

  /** The first n cube faces of a point light. */
  function PointJobs(l: ShadowedOtherLight, index: nat, n: nat, filter: FilterMode, culling: CullingResults, tileSize: int): (jobs: seq<TileJob>)
    requires tileSize > 0
    ensures |jobs| == n
  {
    if n == 0 then []
    else PointJobs(l, index, n - 1, filter, culling, tileSize) + [PointJob(l, index, n - 1, filter, culling, tileSize)]
  }

  /** Job f of a point light's face list is its cube face f. */
  lemma {:induction false} PointJobAt(l: ShadowedOtherLight, index: nat, n: nat, filter: FilterMode,
                                      culling: CullingResults, tileSize: int, f: nat)
    requires tileSize > 0 && f < n
    ensures PointJobs(l, index, n, filter, culling, tileSize)[f] == PointJob(l, index, f, filter, culling, tileSize)
    decreases n
  {
    if f < n - 1 {
      PointJobAt(l, index, n - 1, filter, culling, tileSize, f);
    }
  }

  /** The tiles of one other light: six faces for a point light, one tile for a spot light. */
  function BlockJobs(l: ShadowedOtherLight, index: nat, filter: FilterMode, culling: CullingResults, tileSize: int): (jobs: seq<TileJob>)
    requires tileSize > 0
    ensures |jobs| == BlockSize(l)
  {
    if l.isPoint then PointJobs(l, index, 6, filter, culling, tileSize)
    else [SpotJob(l, index, filter, culling, tileSize)]
  }

  /** Job f of a light's block renders into tile index + f, for that light. */
  lemma BlockJobAt(l: ShadowedOtherLight, index: nat, filter: FilterMode, culling: CullingResults, tileSize: int, f: int)
    requires tileSize > 0 && 0 <= f < BlockSize(l)
    ensures var job := BlockJobs(l, index, filter, culling, tileSize)[f];
            job.tile == index + f && job.visibleLightIndex == l.visibleLightIndex
  {
    if l.isPoint {
      PointJobAt(l, index, 6, filter, culling, tileSize, f);
    }
  }

  /** The tiles of the reserved other lights, block by block in slot order. */
  function OtherJobs(lights: seq<ShadowedOtherLight>, starts: seq<int>, filter: FilterMode,
                     culling: CullingResults, tileSize: int): (jobs: seq<TileJob>)
    requires forall k :: 0 <= k < |starts| ==> 0 <= starts[k] < |lights|
    requires tileSize > 0
  {
    if starts == [] then []
    else
      var last := starts[|starts| - 1];
      OtherJobs(lights, starts[..|starts| - 1], filter, culling, tileSize) + BlockJobs(lights[last], last, filter, culling, tileSize)
  }

  /** Taking one more block of the table appends that block's jobs. */
  lemma OtherJobsNext(lights: seq<ShadowedOtherLight>, starts: seq<int>, k: int, filter: FilterMode,
                      culling: CullingResults, tileSize: int)
    requires forall j :: 0 <= j < |starts| ==> 0 <= starts[j] < |lights|
    requires 0 <= k < |starts| && tileSize > 0
    ensures OtherJobs(lights, starts[..k + 1], filter, culling, tileSize) ==
            OtherJobs(lights, starts[..k], filter, culling, tileSize) + BlockJobs(lights[starts[k]], starts[k], filter, culling, tileSize)
  {
    assert starts[..k + 1][..k] == starts[..k];
  }

  /** Over a chained slot table the other pass renders one job per reserved slot. */
  lemma {:induction false} OtherJobsLength(lights: seq<ShadowedOtherLight>, starts: seq<int>, count: int, filter: FilterMode,
                                           culling: CullingResults, tileSize: int)
    requires Chained(starts, lights, count)
    requires tileSize > 0
    ensures |OtherJobs(lights, starts, filter, culling, tileSize)| == count
    decreases |starts|
  {
    if starts != [] {
      var m := |starts| - 1;
      ChainPrefix(starts, lights, count, m);
      OtherJobsLength(lights, starts[..m], starts[m], filter, culling, tileSize);
    }
  }

  /** The jobs of the other pass before the last block are those of the shorter table;
      the rest are the last block's. */
  lemma OtherJobsSplit(lights: seq<ShadowedOtherLight>, starts: seq<int>, count: int, filter: FilterMode,
                       culling: CullingResults, tileSize: int, j: int)
    requires Chained(starts, lights, count) && starts != []
    requires tileSize > 0
    requires 0 <= j < count
    ensures Chained(starts[..|starts| - 1], lights, starts[|starts| - 1])
    ensures |OtherJobs(lights, starts[..|starts| - 1], filter, culling, tileSize)| == starts[|starts| - 1]
    ensures j < |OtherJobs(lights, starts, filter, culling, tileSize)|
    ensures j < starts[|starts| - 1] ==>
              OtherJobs(lights, starts, filter, culling, tileSize)[j] ==
              OtherJobs(lights, starts[..|starts| - 1], filter, culling, tileSize)[j]
    ensures j >= starts[|starts| - 1] ==>
              OtherJobs(lights, starts, filter, culling, tileSize)[j] ==
              BlockJobs(lights[starts[|starts| - 1]], starts[|starts| - 1], filter, culling, tileSize)[j - starts[|starts| - 1]]
  {
    var m := |starts| - 1;
    ChainPrefix(starts, lights, count, m);
    OtherJobsLength(lights, starts[..m], starts[m], filter, culling, tileSize);
  }

  /** Job j of the other pass renders into tile j, for the reserved light whose
      block holds slot j. */
  lemma {:induction false} OtherJobOwner(lights: seq<ShadowedOtherLight>, starts: seq<int>, count: int, filter: FilterMode,
                                         culling: CullingResults, tileSize: int, j: int)
    requires Chained(starts, lights, count)
    requires tileSize > 0
    requires 0 <= j < count
    ensures var jobs := OtherJobs(lights, starts, filter, culling, tileSize);
            j < |jobs| && jobs[j].tile == j &&
            exists k :: 0 <= k < |starts| && starts[k] <= j < starts[k] + BlockSize(lights[starts[k]]) &&
                        jobs[j].visibleLightIndex == lights[starts[k]].visibleLightIndex
    decreases |starts|
  {
    var m := |starts| - 1;
    var last := starts[m];
    OtherJobsSplit(lights, starts, count, filter, culling, tileSize, j);
    var jobs := OtherJobs(lights, starts, filter, culling, tileSize);
    if j < last {
      OtherJobOwner(lights, starts[..m], last, filter, culling, tileSize, j);
      var before := OtherJobs(lights, starts[..m], filter, culling, tileSize);
      var k :| 0 <= k < m && starts[..m][k] <= j < starts[..m][k] + BlockSize(lights[starts[..m][k]]) &&
               before[j].visibleLightIndex == lights[starts[..m][k]].visibleLightIndex;
      assert starts[..m][k] == starts[k];
    } else {
      BlockJobAt(lights[last], last, filter, culling, tileSize, j - last);
      assert starts[m] <= j < starts[m] + BlockSize(lights[starts[m]]);
    }
  }

  /** Over a chained slot table, the other pass renders exactly one job per
      reserved slot, job j into tile j, and every job belongs to the reserved
      light whose block holds that slot. */
  lemma OtherJobsLayout(lights: seq<ShadowedOtherLight>, starts: seq<int>, count: int, filter: FilterMode,
                        culling: CullingResults, tileSize: int)
    requires Chained(starts, lights, count)
    requires tileSize > 0
    ensures var jobs := OtherJobs(lights, starts, filter, culling, tileSize);
            |jobs| == count &&
            forall j :: 0 <= j < count ==>
              (jobs[j].tile == j &&
               exists k :: 0 <= k < |starts| && starts[k] <= j < starts[k] + BlockSize(lights[starts[k]]) &&
                           jobs[j].visibleLightIndex == lights[starts[k]].visibleLightIndex)
  {
    OtherJobsLength(lights, starts, count, filter, culling, tileSize);
    forall j | 0 <= j < count
      ensures var jobs := OtherJobs(lights, starts, filter, culling, tileSize);
              jobs[j].tile == j &&
              exists k :: 0 <= k < |starts| && starts[k] <= j < starts[k] + BlockSize(lights[starts[k]]) &&
                          jobs[j].visibleLightIndex == lights[starts[k]].visibleLightIndex
    {
      OtherJobOwner(lights, starts, count, filter, culling, tileSize, j);
    }
  }

  // ---------------------------------------------------------------- per-tile results

  /** The atlas matrix stored for a job: ConverToAtlasMatrix of projection * view. */
  function TileMatrix(job: TileJob, split: int, reversedZ: bool): Matrix
    requires split > 0
  {
    ConverToAtlasMatrix(Mul(job.slice.proj, job.slice.view), TileOffset(job.tile, split), split, reversedZ)
  }

  /** The tile data stored for an other-light job. */
  function TileData(job: TileJob, split: int, atlasTexel: real): Vec4
    requires split > 0 && atlasTexel >= 0.0
  {
    OtherTileData(TileOffset(job.tile, split), TileScale(split), job.normalBias, atlasTexel)
  }

  ghost predicate TilesBelow(jobs: seq<TileJob>, n: int) {
    forall j :: 0 <= j < |jobs| ==> jobs[j].tile < n
  }

  /** The matrix array after the first n jobs stored their atlas matrices,
      in job order; a job whose tile lies outside the array stores nothing. */
  function StoreMatrices(m: seq<Matrix>, jobs: seq<TileJob>, n: nat, split: int, reversedZ: bool): (r: seq<Matrix>)
    requires n <= |jobs| && split > 0
    ensures |r| == |m|
  {
    if n == 0 then m
    else
      var before := StoreMatrices(m, jobs, n - 1, split, reversedZ);
      var job := jobs[n - 1];
      if job.tile < |m| then before[job.tile := TileMatrix(job, split, reversedZ)] else before
  }

  /** Storing one more job overwrites its tile's matrix. */
  lemma StoreMatricesNext(m: seq<Matrix>, jobs: seq<TileJob>, n: nat, split: int, reversedZ: bool)
    requires n < |jobs| && jobs[n].tile < |m| && split > 0
    ensures StoreMatrices(m, jobs, n + 1, split, reversedZ) ==
            StoreMatrices(m, jobs, n, split, reversedZ)[jobs[n].tile := TileMatrix(jobs[n], split, reversedZ)]
  {
  }

  /** What a vector array stores per job: the other-light tile data, or the
      cascade culling sphere or cascade datum of a directional cascade. */
  datatype VectorKind =
    | OtherTileOf(split: int, atlasTexel: real)
    | CascadeSphereOf(tileSize: int, filter: FilterMode)
    | CascadeDatumOf(tileSize: int, filter: FilterMode)

  predicate Storable(kind: VectorKind, job: TileJob) {
    match kind
    case OtherTileOf(split, atlasTexel) => split > 0 && atlasTexel >= 0.0
    case CascadeSphereOf(tileSize, filter) => tileSize > 2 * (filter.Ordinal() + 1)
    case CascadeDatumOf(tileSize, filter) => tileSize > 2 * (filter.Ordinal() + 1)
  }

  function VectorOf(kind: VectorKind, job: TileJob): Vec4
    requires Storable(kind, job)
  {
    match kind
    case OtherTileOf(split, atlasTexel) => TileData(job, split, atlasTexel)
    case CascadeSphereOf(tileSize, filter) => CascadeData(job.slice.cullingSphere, tileSize, filter).sphere
    case CascadeDatumOf(tileSize, filter) => CascadeData(job.slice.cullingSphere, tileSize, filter).data
  }

  ghost predicate AllStorable(kind: VectorKind, jobs: seq<TileJob>) {
    forall j :: 0 <= j < |jobs| ==> Storable(kind, jobs[j])
  }

  /** The vector array after the first n jobs stored their vectors, in job
      order; a job whose tile lies outside the array, or whose vector is
      undefined, stores nothing. */
  function StoreVectors(m: seq<Vec4>, jobs: seq<TileJob>, n: nat, kind: VectorKind): (r: seq<Vec4>)
    requires n <= |jobs|
    ensures |r| == |m|
  {
    if n == 0 then m
    else
      var before := StoreVectors(m, jobs, n - 1, kind);
      var job := jobs[n - 1];
      if job.tile < |m| && Storable(kind, job) then before[job.tile := VectorOf(kind, job)] else before
  }

  /** Storing one more job overwrites its tile's entry. */
  lemma StoreVectorsNext(m: seq<Vec4>, jobs: seq<TileJob>, n: nat, kind: VectorKind)
    requires n < |jobs| && jobs[n].tile < |m| && Storable(kind, jobs[n])
    ensures StoreVectors(m, jobs, n + 1, kind) == StoreVectors(m, jobs, n, kind)[jobs[n].tile := VectorOf(kind, jobs[n])]
  {
  }

  /** Storing the first base + k jobs is storing the first base and then the
      first k of `part`, when `part` lines up with the jobs from base on. */
  lemma {:induction false} StoreMatricesShift(m: seq<Matrix>, jobs: seq<TileJob>, base: nat, part: seq<TileJob>, k: nat,
                                              split: int, reversedZ: bool)
    requires base + k <= |jobs| && k <= |part| && split > 0
    requires forall r :: 0 <= r < k ==> jobs[base + r] == part[r]
    ensures StoreMatrices(m, jobs, base + k, split, reversedZ) ==
            StoreMatrices(StoreMatrices(m, jobs, base, split, reversedZ), part, k, split, reversedZ)
    decreases k
  {
    if k > 0 {
      StoreMatricesShift(m, jobs, base, part, k - 1, split, reversedZ);
      assert jobs[base + k - 1] == part[k - 1];
    }
  }

  lemma {:induction false} StoreVectorsShift(m: seq<Vec4>, jobs: seq<TileJob>, base: nat, part: seq<TileJob>, k: nat,
                                             kind: VectorKind)
    requires base + k <= |jobs| && k <= |part|
    requires forall r :: 0 <= r < k ==> jobs[base + r] == part[r]
    ensures StoreVectors(m, jobs, base + k, kind) == StoreVectors(StoreVectors(m, jobs, base, kind), part, k, kind)
    decreases k
  {
    if k > 0 {
      StoreVectorsShift(m, jobs, base, part, k - 1, kind);
      assert jobs[base + k - 1] == part[k - 1];
    }
  }

  /** Jobs in consecutive tiles from `base` leave tile base + j holding job
      j's matrix and every other entry as it was. */
  lemma {:induction false} StoredMatrices(m: seq<Matrix>, jobs: seq<TileJob>, n: nat, base: int, split: int, reversedZ: bool)
    requires n <= |jobs| && 0 <= base && base + n <= |m| && split > 0
    requires forall j :: 0 <= j < n ==> jobs[j].tile == base + j
    ensures var r := StoreMatrices(m, jobs, n, split, reversedZ);
            (forall j :: 0 <= j < n ==> r[base + j] == TileMatrix(jobs[j], split, reversedZ)) &&
            (forall t :: 0 <= t < |m| && !(base <= t < base + n) ==> r[t] == m[t])
    decreases n
  {
    if n > 0 {
      StoredMatrices(m, jobs, n - 1, base, split, reversedZ);
    }
  }

  lemma {:induction false} StoredVectors(m: seq<Vec4>, jobs: seq<TileJob>, n: nat, base: int, kind: VectorKind)
    requires n <= |jobs| && 0 <= base && base + n <= |m|
    requires forall j :: 0 <= j < n ==> jobs[j].tile == base + j && Storable(kind, jobs[j])
    ensures var r := StoreVectors(m, jobs, n, kind);
            (forall j :: 0 <= j < n ==> r[base + j] == VectorOf(kind, jobs[j])) &&
            (forall t :: 0 <= t < |m| && !(base <= t < base + n) ==> r[t] == m[t])
    decreases n
  {
    if n > 0 {
      StoredVectors(m, jobs, n - 1, base, kind);
    }
  }

  /** The commands one job submits: its viewport, its view and projection,
      the light's depth bias, the draw, and the bias reset. */
  function TileCommands(job: TileJob, split: int, tileSize: int): seq<ShadowCmd>
    requires split > 0
  {
    [SetViewport(TileViewport(job.tile, split, tileSize)),
     SetViewProjection(job.slice.view, job.slice.proj),
     SetDepthBias(job.slopeScaleBias),
     DrawShadows(job.visibleLightIndex, job.slice),
     SetDepthBias(0.0)]
  }

  /** The commands of the first n jobs, in order. */
  function TilesLog(jobs: seq<TileJob>, n: nat, split: int, tileSize: int): seq<ShadowCmd>
    requires n <= |jobs| && split > 0
  {
    if n == 0 then []
    else TilesLog(jobs, n - 1, split, tileSize) + TileCommands(jobs[n - 1], split, tileSize)
  }

  /** Appending one more job's commands to a log that ends with the first n
      jobs' commands gives a log ending with the first n + 1. */
  lemma TilesLogNext(prefix: seq<ShadowCmd>, jobs: seq<TileJob>, n: nat, split: int, tileSize: int)
    requires n < |jobs| && split > 0
    ensures (prefix + TilesLog(jobs, n, split, tileSize)) + TileCommands(jobs[n], split, tileSize) ==
            prefix + TilesLog(jobs, n + 1, split, tileSize)
  {
    AppendAssoc(prefix, TilesLog(jobs, n, split, tileSize), TileCommands(jobs[n], split, tileSize));
  }

  /** What rendering one cascade does to the cascade arrays: the light
      reserved first stores the job's culling sphere and cascade datum at the
      job's tile; any other light leaves them as they were. */
  ghost predicate CascadeStored(first: bool, job: TileJob, sphereKind: VectorKind, datumKind: VectorKind,
                                spheres: seq<Vec4>, datas: seq<Vec4>, spheres': seq<Vec4>, datas': seq<Vec4>)
  {
    if first then
      job.tile < |spheres| && job.tile < |datas| && Storable(sphereKind, job) && Storable(datumKind, job) &&
      spheres' == spheres[job.tile := VectorOf(sphereKind, job)] &&
      datas' == datas[job.tile := VectorOf(datumKind, job)]
    else spheres' == spheres && datas' == datas
  }

  lemma AppendAssoc<T>(a: seq<T>, b: seq<T>, c: seq<T>)
    ensures (a + b) + c == a + (b + c)
  {
  }

  /** The commands of the first base + k jobs are those of the first base
      followed by those of the first k of `part`, when `part` lines up with
      the jobs from base on. */
  lemma {:induction false} TilesLogShift(jobs: seq<TileJob>, base: nat, part: seq<TileJob>, k: nat, split: int, tileSize: int)
    requires base + k <= |jobs| && k <= |part| && split > 0
    requires forall r :: 0 <= r < k ==> jobs[base + r] == part[r]
    ensures TilesLog(jobs, base + k, split, tileSize) == TilesLog(jobs, base, split, tileSize) + TilesLog(part, k, split, tileSize)
    decreases k
  {
    if k > 0 {
      TilesLogShift(jobs, base, part, k - 1, split, tileSize);
      assert jobs[base + k - 1] == part[k - 1];
      AppendAssoc(TilesLog(jobs, base, split, tileSize), TilesLog(part, k - 1, split, tileSize),
                  TileCommands(part[k - 1], split, tileSize));
    }
  }

  /** The commands of the first n jobs depend on those jobs only. */
  lemma {:induction false} TilesLogAgree(a: seq<TileJob>, b: seq<TileJob>, n: nat, split: int, tileSize: int)
    requires n <= |a| && n <= |b| && split > 0
    requires forall r :: 0 <= r < n ==> a[r] == b[r]
    ensures TilesLog(a, n, split, tileSize) == TilesLog(b, n, split, tileSize)
    decreases n
  {
    if n > 0 {
      TilesLogAgree(a, b, n - 1, split, tileSize);
    }
  }

  /** A pass over the jobs of a and then those of b submits a's commands, then b's. */
  lemma {:induction false} TilesLogConcat(a: seq<TileJob>, b: seq<TileJob>, split: int, tileSize: int)
    requires split > 0
    ensures TilesLog(a + b, |a + b|, split, tileSize) == TilesLog(a, |a|, split, tileSize) + TilesLog(b, |b|, split, tileSize)
  {
    TilesLogShift(a + b, |a|, b, |b|, split, tileSize);
    TilesLogAgree(a + b, a, |a|, split, tileSize);
  }

  lemma {:induction false} StoreMatricesAgree(m: seq<Matrix>, a: seq<TileJob>, b: seq<TileJob>, n: nat, split: int, reversedZ: bool)
    requires n <= |a| && n <= |b| && split > 0
    requires forall r :: 0 <= r < n ==> a[r] == b[r]
    ensures StoreMatrices(m, a, n, split, reversedZ) == StoreMatrices(m, b, n, split, reversedZ)
    decreases n
  {
    if n > 0 {
      StoreMatricesAgree(m, a, b, n - 1, split, reversedZ);
    }
  }

  /** Storing the jobs of a and then those of b stores a's matrices, then b's. */
  lemma {:induction false} StoreMatricesConcat(m: seq<Matrix>, a: seq<TileJob>, b: seq<TileJob>, split: int, reversedZ: bool)
    requires split > 0
    ensures StoreMatrices(m, a + b, |a + b|, split, reversedZ) ==
            StoreMatrices(StoreMatrices(m, a, |a|, split, reversedZ), b, |b|, split, reversedZ)
  {
    StoreMatricesShift(m, a + b, |a|, b, |b|, split, reversedZ);
    StoreMatricesAgree(m, a + b, a, |a|, split, reversedZ);
  }

  lemma {:induction false} StoreVectorsAgree(m: seq<Vec4>, a: seq<TileJob>, b: seq<TileJob>, n: nat, kind: VectorKind)
    requires n <= |a| && n <= |b|
    requires forall r :: 0 <= r < n ==> a[r] == b[r]
    ensures StoreVectors(m, a, n, kind) == StoreVectors(m, b, n, kind)
    decreases n
  {
    if n > 0 {
      StoreVectorsAgree(m, a, b, n - 1, kind);
    }
  }

  /** Storing the jobs of a and then those of b stores a's vectors, then b's. */
  lemma {:induction false} StoreVectorsConcat(m: seq<Vec4>, a: seq<TileJob>, b: seq<TileJob>, kind: VectorKind)
    ensures StoreVectors(m, a + b, |a + b|, kind) == StoreVectors(StoreVectors(m, a, |a|, kind), b, |b|, kind)
  {
    StoreVectorsShift(m, a + b, |a|, b, |b|, kind);
    StoreVectorsAgree(m, a + b, a, |a|, kind);
  }

  /** The draws in a command list, in order. */
  function Draws(cmds: seq<ShadowCmd>): seq<ShadowCmd> {
    if cmds == [] then []
    else Draws(cmds[..|cmds| - 1]) + (if cmds[|cmds| - 1].DrawShadows? then [cmds[|cmds| - 1]] else [])
  }

  lemma {:induction false} DrawsAppend(a: seq<ShadowCmd>, b: seq<ShadowCmd>)
    ensures Draws(a + b) == Draws(a) + Draws(b)
    decreases |b|
  {
    if b == [] {
      assert a + b == a;
    } else {
      var b' := b[..|b| - 1];
      var c := b[|b| - 1];
      var tail := if c.DrawShadows? then [c] else [];
      DrawsAppend(a, b');
      assert (a + b)[..|a + b| - 1] == a + b';
      assert (a + b)[|a + b| - 1] == c;
      assert Draws(a + b) == Draws(a + b') + tail;
      assert Draws(b) == Draws(b') + tail;
      assert (Draws(a) + Draws(b')) + tail == Draws(a) + (Draws(b') + tail);
    }
  }

  lemma DrawsSingle(c: ShadowCmd)
    ensures Draws([c]) == if c.DrawShadows? then [c] else []
  {
    assert [c][..0] == [];
  }

  /** A job's commands hold exactly one draw, of the job's light and split data. */
  lemma TileCommandsDraws(job: TileJob, split: int, tileSize: int)
    requires split > 0
    ensures Draws(TileCommands(job, split, tileSize)) == [DrawShadows(job.visibleLightIndex, job.slice)]
  {
    var c := TileCommands(job, split, tileSize);
    assert c == [c[0]] + [c[1]] + [c[2]] + [c[3]] + [c[4]];
    DrawsAppend([c[0]], [c[1]]);
    DrawsAppend([c[0]] + [c[1]], [c[2]]);
    DrawsAppend([c[0]] + [c[1]] + [c[2]], [c[3]]);
    DrawsAppend([c[0]] + [c[1]] + [c[2]] + [c[3]], [c[4]]);
    DrawsSingle(c[0]);
    DrawsSingle(c[1]);
    DrawsSingle(c[2]);
    DrawsSingle(c[3]);
    DrawsSingle(c[4]);
  }

  /** A pass draws each of its jobs exactly once, in job order, with the
      job's light and split data. */
  lemma {:induction false} TilesLogDraws(jobs: seq<TileJob>, n: nat, split: int, tileSize: int)
    requires n <= |jobs| && split > 0
    ensures var draws := Draws(TilesLog(jobs, n, split, tileSize));
            |draws| == n &&
            forall j :: 0 <= j < n ==> draws[j] == DrawShadows(jobs[j].visibleLightIndex, jobs[j].slice)
    decreases n
  {
    if n > 0 {
      TilesLogDraws(jobs, n - 1, split, tileSize);
      var cmds := TileCommands(jobs[n - 1], split, tileSize);
      DrawsAppend(TilesLog(jobs, n - 1, split, tileSize), cmds);
      TileCommandsDraws(jobs[n - 1], split, tileSize);
    }
  }

  /** Every viewport a pass sets lies inside an atlas of `size` texels. */
  ghost predicate ViewportsInside(cmds: seq<ShadowCmd>, size: int) {
    forall c :: c in cmds && c.SetViewport? ==>
      0 <= c.viewport.x && c.viewport.x + c.viewport.width <= size &&
      0 <= c.viewport.y && c.viewport.y + c.viewport.height <= size
  }

  /** With n <= 16 tiles, split = Split(n) and tiles of atlas / split texels,
      every job whose tile is below n sets a viewport inside the atlas. */
  lemma {:induction false} TilesLogViewports(jobs: seq<TileJob>, n: nat, count: int, atlas: TextureSize)
    requires n <= |jobs| && count <= 16 && forall j :: 0 <= j < n ==> jobs[j].tile < count
    ensures ViewportsInside(TilesLog(jobs, n, Split(count), atlas.Pixels() / Split(count)), atlas.Pixels())
    decreases n
  {
    if n > 0 {
      TilesLogViewports(jobs, n - 1, count, atlas);
      ViewportInsideAtlas(jobs[n - 1].tile, count, atlas);
    }
  }

  /** The atlases a command list acquires and releases. */
  function Acquired(cmds: seq<ShadowCmd>): set<AtlasKind> {
    set c | c in cmds && c.GetShadowAtlas? :: c.atlas
  }

  function Released(cmds: seq<ShadowCmd>): set<AtlasKind> {
    set c | c in cmds && c.ReleaseShadowAtlas? :: c.atlas
  }

  lemma AtlasesAppend(a: seq<ShadowCmd>, b: seq<ShadowCmd>)
    ensures Acquired(a + b) == Acquired(a) + Acquired(b)
    ensures Released(a + b) == Released(a) + Released(b)
  {
  }

  lemma {:induction false} TilesLogKeepsAtlases(jobs: seq<TileJob>, n: nat, split: int, tileSize: int)
    requires n <= |jobs| && split > 0
    ensures Acquired(TilesLog(jobs, n, split, tileSize)) == {} && Released(TilesLog(jobs, n, split, tileSize)) == {}
    decreases n
  {
    if n > 0 {
      TilesLogKeepsAtlases(jobs, n - 1, split, tileSize);
      AtlasesAppend(TilesLog(jobs, n - 1, split, tileSize), TileCommands(jobs[n - 1], split, tileSize));
    }
  }

  lemma KeywordsKeepAtlases(keywords: seq<string>, enabledIndex: int)
    ensures Acquired(KeywordCommands(keywords, enabledIndex)) == {}
    ensures Released(KeywordCommands(keywords, enabledIndex)) == {}
  {
  }

  // ---------------------------------------------------------------- pass logs

  /** RenderDirectionalShadows: acquire and clear the directional atlas, turn
      shadow pancaking on, draw the jobs, publish the arrays, select the
      filter and cascade-blend keywords. */
  function DirectionalPassLog(d: Directional, jobs: seq<TileJob>, split: int, published: ShadowCmd): seq<ShadowCmd>
    requires split > 0
  {
    var atlas := d.atlasSize.Pixels();
    [GetShadowAtlas(DirectionalAtlas, atlas), TargetAndClearAtlas(DirectionalAtlas), SetShadowPancaking(true)] +
    TilesLog(jobs, |jobs|, split, atlas / split) + [published] +
    KeywordCommands(DirectionalFilterKeywords, d.filter.Ordinal() - 1) +
    KeywordCommands(CascadeBlendKeywords, d.cascadeBlend.Ordinal() - 1)
  }

  /** A log followed by a directional pass is the log extended command group by command group. */
  lemma DirectionalPassLogAppend(prefix: seq<ShadowCmd>, d: Directional, jobs: seq<TileJob>, split: int, published: ShadowCmd)
    requires split > 0
    ensures var atlas := d.atlasSize.Pixels();
            prefix + DirectionalPassLog(d, jobs, split, published) ==
            prefix + [GetShadowAtlas(DirectionalAtlas, atlas), TargetAndClearAtlas(DirectionalAtlas), SetShadowPancaking(true)] +
            TilesLog(jobs, |jobs|, split, atlas / split) + [published] +
            KeywordCommands(DirectionalFilterKeywords, d.filter.Ordinal() - 1) +
            KeywordCommands(CascadeBlendKeywords, d.cascadeBlend.Ordinal() - 1)
  {
  }

  /** RenderOtherShadows: the same for the other atlas, with pancaking off
      and the other filter keywords. */
  function OtherPassLog(o: Other, jobs: seq<TileJob>, split: int, published: ShadowCmd): seq<ShadowCmd>
    requires split > 0
  {
    var atlas := o.atlasSize.Pixels();
    [GetShadowAtlas(OtherAtlas, atlas), TargetAndClearAtlas(OtherAtlas), SetShadowPancaking(false)] +
    TilesLog(jobs, |jobs|, split, atlas / split) + [published] +
    KeywordCommands(OtherFilterKeywords, o.filter.Ordinal() - 1)
  }

  /** A log followed by an other pass is the log extended command group by command group. */
  lemma OtherPassLogAppend(prefix: seq<ShadowCmd>, o: Other, jobs: seq<TileJob>, split: int, published: ShadowCmd)
    requires split > 0
    ensures var atlas := o.atlasSize.Pixels();
            prefix + OtherPassLog(o, jobs, split, published) ==
            prefix + [GetShadowAtlas(OtherAtlas, atlas), TargetAndClearAtlas(OtherAtlas), SetShadowPancaking(false)] +
            TilesLog(jobs, |jobs|, split, atlas / split) + [published] +
            KeywordCommands(OtherFilterKeywords, o.filter.Ordinal() - 1)
  {
  }

  /** Render: a pass per atlas with reserved lights (a 1x1 placeholder
      directional atlas, and the other atlas bound to it, when there are
      none), then the globals every frame sets. */
  function RenderLog(dirCount: int, otherCount: int, dirPass: seq<ShadowCmd>, otherPass: seq<ShadowCmd>,
                     cascadeCount: int, fade: Vec4, atlasSize: Vec4, maskIndex: int): seq<ShadowCmd>
  {
    (if dirCount > 0 then dirPass else [GetShadowAtlas(DirectionalAtlas, 1)]) +
    (if otherCount > 0 then otherPass else [BindOtherAtlasToDirectional]) +
    [SetCascadeCount(if dirCount > 0 then cascadeCount else 0), SetDistanceFade(fade), SetAtlasSize(atlasSize)] +
    KeywordCommands(ShadowMaskKeywords, maskIndex)
  }

  /** A log followed by a frame's render log is the log extended part by part. */
  lemma RenderLogAppend(prefix: seq<ShadowCmd>, dirCount: int, otherCount: int, dirPass: seq<ShadowCmd>, otherPass: seq<ShadowCmd>,
                        cascadeCount: int, fade: Vec4, atlasSize: Vec4, maskIndex: int)
    ensures prefix + RenderLog(dirCount, otherCount, dirPass, otherPass, cascadeCount, fade, atlasSize, maskIndex) ==
            prefix + (if dirCount > 0 then dirPass else [GetShadowAtlas(DirectionalAtlas, 1)]) +
            (if otherCount > 0 then otherPass else [BindOtherAtlasToDirectional]) +
            [SetCascadeCount(if dirCount > 0 then cascadeCount else 0), SetDistanceFade(fade), SetAtlasSize(atlasSize)] +
            KeywordCommands(ShadowMaskKeywords, maskIndex)
  {
  }

  /** The atlas-size vector after Render: the resolution and texel size of the
      directional atlas in x and y, of the other atlas in z and w, each pair
      written only by the pass that renders that atlas. */
  function AtlasSizeAfter(prev: Vec4, dirCount: int, otherCount: int, s: ShadowSettings): Vec4 {
    var d := s.directional.atlasSize.Pixels();
    var o := s.other.atlasSize.Pixels();
    var v := if dirCount > 0 then prev.(x := d as real, y := 1.0 / d as real) else prev;
    if otherCount > 0 then v.(z := o as real, w := 1.0 / o as real) else v
  }

  /** When both atlases are rendered the published sizes no longer depend on
      the previous frame, and each texel size is the reciprocal of its
      resolution; an atlas not rendered keeps last frame's pair. */
  lemma AtlasSizeTexels(prev: Vec4, dirCount: int, otherCount: int, s: ShadowSettings)
    ensures var v := AtlasSizeAfter(prev, dirCount, otherCount, s);
            (dirCount > 0 ==> v.x == s.directional.atlasSize.Pixels() as real && v.x * v.y == 1.0) &&
            (dirCount <= 0 ==> v.x == prev.x && v.y == prev.y) &&
            (otherCount > 0 ==> v.z == s.other.atlasSize.Pixels() as real && v.z * v.w == 1.0) &&
            (otherCount <= 0 ==> v.z == prev.z && v.w == prev.w)
  {
  }

  /** CleanUp: release the directional atlas, and the other atlas when it was acquired. */
  function CleanUpLog(otherCount: int): seq<ShadowCmd> {
    [ReleaseShadowAtlas(DirectionalAtlas)] + (if otherCount > 0 then [ReleaseShadowAtlas(OtherAtlas)] else [])
  }

  /** The head of a pass acquires its atlas and releases nothing. */
  lemma PassHeadAtlases(kind: AtlasKind, size: int, pancaking: bool)
    ensures var head := [GetShadowAtlas(kind, size), TargetAndClearAtlas(kind), SetShadowPancaking(pancaking)];
            Acquired(head) == {kind} && Released(head) == {}
  {
    var head := [GetShadowAtlas(kind, size), TargetAndClearAtlas(kind), SetShadowPancaking(pancaking)];
    assert head[0] in head;
  }

  /** The tile commands, the publishing command and the keywords of a pass
      neither acquire nor release an atlas. */
  lemma PassTailAtlases(jobs: seq<TileJob>, split: int, tileSize: int, published: ShadowCmd, keywords: seq<ShadowCmd>)
    requires split > 0 && !published.GetShadowAtlas? && !published.ReleaseShadowAtlas?
    requires Acquired(keywords) == {} && Released(keywords) == {}
    ensures var tail := TilesLog(jobs, |jobs|, split, tileSize) + [published] + keywords;
            Acquired(tail) == {} && Released(tail) == {}
  {
    var tiles := TilesLog(jobs, |jobs|, split, tileSize);
    TilesLogKeepsAtlases(jobs, |jobs|, split, tileSize);
    AtlasesAppend(tiles, [published]);
    AtlasesAppend(tiles + [published], keywords);
  }

  lemma DirectionalPassAtlases(d: Directional, jobs: seq<TileJob>, split: int, published: ShadowCmd)
    requires split > 0 && published.SetDirectionalArrays?
    ensures Acquired(DirectionalPassLog(d, jobs, split, published)) == {DirectionalAtlas}
    ensures Released(DirectionalPassLog(d, jobs, split, published)) == {}
  {
    var atlas := d.atlasSize.Pixels();
    var head := [GetShadowAtlas(DirectionalAtlas, atlas), TargetAndClearAtlas(DirectionalAtlas), SetShadowPancaking(true)];
    var tiles := TilesLog(jobs, |jobs|, split, atlas / split);
    var k1 := KeywordCommands(DirectionalFilterKeywords, d.filter.Ordinal() - 1);
    var k2 := KeywordCommands(CascadeBlendKeywords, d.cascadeBlend.Ordinal() - 1);
    assert DirectionalPassLog(d, jobs, split, published) == head + (tiles + [published] + (k1 + k2));
    KeywordsKeepAtlases(DirectionalFilterKeywords, d.filter.Ordinal() - 1);
    KeywordsKeepAtlases(CascadeBlendKeywords, d.cascadeBlend.Ordinal() - 1);
    AtlasesAppend(k1, k2);
    PassHeadAtlases(DirectionalAtlas, atlas, true);
    PassTailAtlases(jobs, split, atlas / split, published, k1 + k2);
    AtlasesAppend(head, tiles + [published] + (k1 + k2));
  }

  lemma OtherPassAtlases(o: Other, jobs: seq<TileJob>, split: int, published: ShadowCmd)
    requires split > 0 && published.SetOtherArrays?
    ensures Acquired(OtherPassLog(o, jobs, split, published)) == {OtherAtlas}
    ensures Released(OtherPassLog(o, jobs, split, published)) == {}
  {
    var atlas := o.atlasSize.Pixels();
    var head := [GetShadowAtlas(OtherAtlas, atlas), TargetAndClearAtlas(OtherAtlas), SetShadowPancaking(false)];
    var tiles := TilesLog(jobs, |jobs|, split, atlas / split);
    var k1 := KeywordCommands(OtherFilterKeywords, o.filter.Ordinal() - 1);
    assert OtherPassLog(o, jobs, split, published) == head + (tiles + [published] + k1);
    KeywordsKeepAtlases(OtherFilterKeywords, o.filter.Ordinal() - 1);
    PassHeadAtlases(OtherAtlas, atlas, false);
    PassTailAtlases(jobs, split, atlas / split, published, k1);
    AtlasesAppend(head, tiles + [published] + k1);
  }

  /** The directional part of Render acquires the directional atlas and releases nothing. */
  lemma DirectionalPartAtlases(dirCount: int, dirPass: seq<ShadowCmd>)
    requires Acquired(dirPass) == {DirectionalAtlas} && Released(dirPass) == {}
    ensures var first := if dirCount > 0 then dirPass else [GetShadowAtlas(DirectionalAtlas, 1)];
            Acquired(first) == {DirectionalAtlas} && Released(first) == {}
  {
    if dirCount <= 0 {
      var first := [GetShadowAtlas(DirectionalAtlas, 1)];
      assert first[0] in first;
    }
  }

  /** The other part of Render acquires the other atlas only when it renders it. */
  lemma OtherPartAtlases(otherCount: int, otherPass: seq<ShadowCmd>)
    requires Acquired(otherPass) == {OtherAtlas} && Released(otherPass) == {}
    ensures var second := if otherCount > 0 then otherPass else [BindOtherAtlasToDirectional];
            Acquired(second) == (if otherCount > 0 then {OtherAtlas} else {}) && Released(second) == {}
  {
  }

  /** CleanUp releases the directional atlas, and the other atlas exactly when there are other shadows. */
  lemma CleanUpReleases(otherCount: int)
    ensures Released(CleanUpLog(otherCount)) == {DirectionalAtlas} + (if otherCount > 0 then {OtherAtlas} else {})
    ensures Acquired(CleanUpLog(otherCount)) == {}
  {
    var cleanup := CleanUpLog(otherCount);
    assert cleanup[0] in cleanup;
    if otherCount > 0 {
      assert cleanup[1] in cleanup;
    }
  }

  /** The globals Render sets every frame neither acquire nor release an atlas. */
  lemma GlobalsKeepAtlases(cascadeCount: int, fade: Vec4, atlasSize: Vec4, maskIndex: int)
    ensures var globals := [SetCascadeCount(cascadeCount), SetDistanceFade(fade), SetAtlasSize(atlasSize)] +
                           KeywordCommands(ShadowMaskKeywords, maskIndex);
            Acquired(globals) == {} && Released(globals) == {}
  {
    var fixed := [SetCascadeCount(cascadeCount), SetDistanceFade(fade), SetAtlasSize(atlasSize)];
    KeywordsKeepAtlases(ShadowMaskKeywords, maskIndex);
    AtlasesAppend(fixed, KeywordCommands(ShadowMaskKeywords, maskIndex));
  }

  /** Every temporary atlas Render acquires, CleanUp releases, and CleanUp
      releases nothing Render did not acquire. */
  lemma AtlasesBalanced(dirCount: int, otherCount: int, dirPass: seq<ShadowCmd>, otherPass: seq<ShadowCmd>,
                        cascadeCount: int, fade: Vec4, atlasSize: Vec4, maskIndex: int)
    requires Acquired(dirPass) == {DirectionalAtlas} && Released(dirPass) == {}
    requires Acquired(otherPass) == {OtherAtlas} && Released(otherPass) == {}
    ensures var render := RenderLog(dirCount, otherCount, dirPass, otherPass, cascadeCount, fade, atlasSize, maskIndex);
            Acquired(render) == Released(CleanUpLog(otherCount)) &&
            Released(render) == {}
  {
    var first := if dirCount > 0 then dirPass else [GetShadowAtlas(DirectionalAtlas, 1)];
    var second := if otherCount > 0 then otherPass else [BindOtherAtlasToDirectional];
    var fixed := [SetCascadeCount(if dirCount > 0 then cascadeCount else 0), SetDistanceFade(fade), SetAtlasSize(atlasSize)];
    var keywords := KeywordCommands(ShadowMaskKeywords, maskIndex);
    assert RenderLog(dirCount, otherCount, dirPass, otherPass, cascadeCount, fade, atlasSize, maskIndex) ==
           (first + second) + (fixed + keywords);
    DirectionalPartAtlases(dirCount, dirPass);
    OtherPartAtlases(otherCount, otherPass);
    GlobalsKeepAtlases(if dirCount > 0 then cascadeCount else 0, fade, atlasSize, maskIndex);
    AtlasesAppend(first, second);
    AtlasesAppend(first + second, fixed + keywords);
    CleanUpReleases(otherCount);
  }
}
