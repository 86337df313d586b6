/** The pure arithmetic of the shadow atlas: how many tiles per row, where a
    tile sits, the atlas-space sampling matrix of a tile, the per-cascade and
    per-tile shading data, and which shader keyword of a group is switched on.
    It also declares the vocabulary of the shadow command buffer. */
module ShadowAtlas {
  import opened Geometry
  import opened ShadowConfig
  import Scene

  // ---------------------------------------------------------------- commands

  datatype AtlasKind = DirectionalAtlas | OtherAtlas

  datatype Rect = Rect(x: int, y: int, width: int, height: int)

  /** The commands the shadow code submits to the render context, in order
      (the command buffer's contents at each ExecuteBuffer, then DrawShadows,
      which goes to the context directly). Array uploads carry the array
      contents at the time they are recorded. */
  datatype ShadowCmd =
    | GetShadowAtlas(atlas: AtlasKind, size: int)
    | TargetAndClearAtlas(atlas: AtlasKind)
    | ReleaseShadowAtlas(atlas: AtlasKind)
    | BindOtherAtlasToDirectional
    | SetShadowPancaking(on: bool)
    | SetViewport(viewport: Rect)
    | SetViewProjection(view: Matrix, proj: Matrix)
    | SetDepthBias(slopeScaleBias: real)
    | DrawShadows(visibleLightIndex: int, splitData: Scene.ShadowSlice)
    | SetKeyword(keyword: string, enabled: bool)
    | SetDirectionalArrays(matrices: seq<Matrix>, cullingSpheres: seq<Vec4>, cascadeData: seq<Vec4>)
    | SetOtherArrays(otherMatrices: seq<Matrix>, otherTiles: seq<Vec4>)
    | SetCascadeCount(count: int)
    | SetDistanceFade(fade: Vec4)
    | SetAtlasSize(atlasSize: Vec4)

  // ---------------------------------------------------------------- atlas grid

  /** The number of tiles per atlas row for n tiles: 1, 2 or 4. */
  function Split(n: int): (split: int)
    ensures split == 1 || split == 2 || split == 4
    ensures n <= 16 ==> n <= split * split
    ensures split == 1 || (split / 2) * (split / 2) < n
  {
    if n <= 1 then 1 else if n <= 4 then 2 else 4
  }

  /** More tiles never give a coarser grid. */
  lemma SplitMonotonic(a: int, b: int)
    requires a <= b
    ensures Split(a) <= Split(b)
  {
  }

  /** Every atlas resolution is divided exactly by every split, and a tile is
      at least 64 texels wide. */
  lemma TileSizeExact(atlas: TextureSize, split: int)
    requires split == 1 || split == 2 || split == 4
    ensures (atlas.Pixels() / split) * split == atlas.Pixels()
    ensures atlas.Pixels() / split >= 64
  {
  }

  /** The grid cell (column, row) of tile t, as the source computes it with
      t % split and t / split. */
  function TileOffset(t: int, split: int): (o: (int, int))
    requires 0 <= t && split > 0
    ensures 0 <= o.0 < split && 0 <= o.1
    ensures o.1 * split + o.0 == t
    ensures t < split * split ==> o.1 < split
  {
    (t % split, t / split)
  }

  /** The viewport of tile t in texels. */
  function TileViewport(t: int, split: int, tileSize: int): Rect
    requires 0 <= t && split > 0
  {
    var o := TileOffset(t, split);
    Rect(o.0 * tileSize, o.1 * tileSize, tileSize, tileSize)
  }

  lemma CellInside(c: int, split: int, tileSize: int)
    requires 0 <= c < split && tileSize >= 0
    ensures 0 <= c * tileSize && c * tileSize + tileSize <= split * tileSize
  {
    assert c * tileSize + tileSize == (c + 1) * tileSize;
    assert (c + 1) * tileSize <= split * tileSize;
  }

  /** For n <= 16 tiles on any atlas, each tile's viewport lies inside the atlas. */
  lemma ViewportInsideAtlas(t: int, n: int, atlas: TextureSize)
    requires 0 <= t < n <= 16
    ensures var split := Split(n);
            var r := TileViewport(t, split, atlas.Pixels() / split);
            0 <= r.x && r.x + r.width <= atlas.Pixels() &&
            0 <= r.y && r.y + r.height <= atlas.Pixels()
  {
    var split := Split(n);
    var size := atlas.Pixels() / split;
    TileSizeExact(atlas, split);
    var o := TileOffset(t, split);
    CellInside(o.0, split, size);
    CellInside(o.1, split, size);
  }

  lemma CellsApart(a: int, b: int, tileSize: int)
    requires a < b && tileSize >= 0
    ensures a * tileSize + tileSize <= b * tileSize
  {
    assert a * tileSize + tileSize == (a + 1) * tileSize;
    assert (a + 1) * tileSize <= b * tileSize;
  }

  /** Two different tiles have viewports that do not overlap. */
  lemma ViewportsDisjoint(t1: int, t2: int, split: int, tileSize: int)
    requires 0 <= t1 && 0 <= t2 && t1 != t2 && split > 0 && tileSize >= 0
    ensures var r1 := TileViewport(t1, split, tileSize);
            var r2 := TileViewport(t2, split, tileSize);
            r1.x + r1.width <= r2.x || r2.x + r2.width <= r1.x ||
            r1.y + r1.height <= r2.y || r2.y + r2.height <= r1.y
  {
    var o1, o2 := TileOffset(t1, split), TileOffset(t2, split);
    if o1.0 < o2.0 {
      CellsApart(o1.0, o2.0, tileSize);
    } else if o2.0 < o1.0 {
      CellsApart(o2.0, o1.0, tileSize);
    } else if o1.1 < o2.1 {
      CellsApart(o1.1, o2.1, tileSize);
    } else {
      assert o2.1 < o1.1;
      CellsApart(o2.1, o1.1, tileSize);
    }
  }

  // ---------------------------------------------------------------- atlas matrix

  /** Negates row 2 (m20..m23) when the device uses a reversed depth buffer. */
  function ReverseZ(m: Matrix, reversedZ: bool): Matrix {
    if reversedZ then m.(r2 := Negate(m.r2)) else m
  }

  /** Remaps clip space [-1, 1] to texture space [0, 1] in rows 0 to 2. */
  function ClipToTexture(m: Matrix): Matrix {
    Matrix(Scale(0.5, Add(m.r0, m.r3)), Scale(0.5, Add(m.r1, m.r3)), Scale(0.5, Add(m.r2, m.r3)), m.r3)
  }

  /** Scales rows 0 and 1 by 1/split and shifts them by the tile offset. */
  function TileTransform(m: Matrix, offset: (int, int), split: int): Matrix
    requires split > 0
  {
    var scale := TileScale(split);
    m.(r0 := Scale(scale, Add(m.r0, Scale(offset.0 as real, m.r3))),
       r1 := Scale(scale, Add(m.r1, Scale(offset.1 as real, m.r3))))
  }

  /** ConverToAtlasMatrix: the atlas-space sampling matrix of a tile. */
  function ConverToAtlasMatrix(m: Matrix, offset: (int, int), split: int, reversedZ: bool): (r: Matrix)
    requires split > 0
    ensures r.r3 == m.r3
  {
    TileTransform(ClipToTexture(ReverseZ(m, reversedZ)), offset, split)
  }

  /** The depth convention changes row 2 of the result and nothing else; row 2
      is (m2 + m3)/2 for the conventional and (m3 - m2)/2 for the reversed one. */
  lemma ReversedZOnlyRow2(m: Matrix, offset: (int, int), split: int)
    requires split > 0
    ensures var a := ConverToAtlasMatrix(m, offset, split, false);
            var b := ConverToAtlasMatrix(m, offset, split, true);
            a.r0 == b.r0 && a.r1 == b.r1 && a.r3 == b.r3 &&
            a.r2 == Scale(0.5, Add(m.r2, m.r3)) &&
            b.r2 == Scale(0.5, Add(Negate(m.r2), m.r3))
  {
  }

  lemma DotScale(k: real, v: Vec4, p: Vec4)
    ensures Dot(Scale(k, v), p) == k * Dot(v, p)
  {
  }

  lemma DotAdd(u: Vec4, v: Vec4, p: Vec4)
    ensures Dot(Add(u, v), p) == Dot(u, p) + Dot(v, p)
  {
  }

  lemma DotNegate(v: Vec4, p: Vec4)
    ensures Dot(Negate(v), p) == -Dot(v, p)
  {
  }

  /** The image of p under a row rewritten by ClipToTexture and TileTransform. */
  lemma OffsetRowImage(rk: Vec4, r3: Vec4, p: Vec4, offset: real, s: real)
    ensures Dot(Scale(s, Add(Scale(0.5, Add(rk, r3)), Scale(offset, r3))), p) ==
            s * (0.5 * (Dot(rk, p) + Dot(r3, p)) + offset * Dot(r3, p))
  {
    DotAdd(rk, r3, p);
    DotScale(0.5, Add(rk, r3), p);
    DotScale(offset, r3, p);
    DotAdd(Scale(0.5, Add(rk, r3)), Scale(offset, r3), p);
    DotScale(s, Add(Scale(0.5, Add(rk, r3)), Scale(offset, r3)), p);
  }

  lemma UnitRatio(x: real, w: real)
    requires w > 0.0 && -w <= x <= w
    ensures -1.0 <= x / w <= 1.0
  {
    var u := x / w;
    assert u * w == x;
    assert (u - 1.0) * w <= 0.0;
    assert (u + 1.0) * w >= 0.0;
  }

  lemma UnitFraction(a: real, w: real)
    requires w > 0.0 && 0.0 <= a <= w
    ensures 0.0 <= a / w <= 1.0
  {
    var u := a / w;
    assert u * w == a;
    assert (u - 1.0) * w <= 0.0;
  }

  lemma DivideOut(a: real, v: real, w: real)
    requires w > 0.0 && a == v * w
    ensures a / w == v
  {
  }

  /** The scale 1/split applied to a tile's u and v. */
  function TileScale(split: int): (s: real)
    requires split > 0
    ensures s > 0.0 && s * (split as real) == 1.0
  {
    1.0 / (split as real)
  }

  /** With clip-space coordinate x in [-w, w] and w > 0, the texture
      coordinate s * ((x + w)/2 + offset * w), divided by w, lies in
      [offset * s, (offset + 1) * s] where s = 1/split. */
  lemma TileCoordinateBounds(a: real, x: real, w: real, offset: int, split: int)
    requires w > 0.0 && -w <= x <= w && split > 0
    requires a == TileScale(split) * (0.5 * (x + w) + offset as real * w)
    ensures offset as real * TileScale(split) <= a / w <= (offset + 1) as real * TileScale(split)
  {
    var s := TileScale(split);
    UnitRatio(x, w);
    var u := x / w;
    assert x == u * w;
    var v := s * (0.5 * (u + 1.0) + offset as real);
    assert a == v * w;
    DivideOut(a, v, w);
    assert 0.0 <= 0.5 * (u + 1.0) <= 1.0;
  }

  /** One of the two tile rows of the atlas matrix applied to p. */
  lemma AtlasRowImage(m: Matrix, p: Vec4, offset: int, split: int, row: Vec4, source: Vec4)
    requires split > 0
    requires row == Scale(TileScale(split), Add(Scale(0.5, Add(source, m.r3)), Scale(offset as real, m.r3)))
    ensures Dot(row, p) == TileScale(split) * (0.5 * (Dot(source, p) + Dot(m.r3, p)) + offset as real * Dot(m.r3, p))
  {
    OffsetRowImage(source, m.r3, p, offset as real, TileScale(split));
  }

  /** A point whose clip-space x and y lie in [-w, w], w > 0, is sent by the
      atlas matrix to u/w and v/w in [offset/split, (offset + 1)/split]: inside
      its own tile, whichever depth convention the device uses. */
  lemma AtlasMatrixMapsIntoTile(m: Matrix, p: Vec4, offset: (int, int), split: int, reversedZ: bool)
    requires split > 0
    requires var x, y, w := Dot(m.r0, p), Dot(m.r1, p), Dot(m.r3, p);
             w > 0.0 && -w <= x <= w && -w <= y <= w
    ensures var r := ConverToAtlasMatrix(m, offset, split, reversedZ);
            var w := Dot(m.r3, p);
            var s := TileScale(split);
            offset.0 as real * s <= Dot(r.r0, p) / w <= (offset.0 + 1) as real * s &&
            offset.1 as real * s <= Dot(r.r1, p) / w <= (offset.1 + 1) as real * s
  {
    var r := ConverToAtlasMatrix(m, offset, split, reversedZ);
    AtlasRows(m, offset, split, reversedZ);
    RowInTile(m, p, offset.0, split, r.r0, m.r0);
    RowInTile(m, p, offset.1, split, r.r1, m.r1);
  }

  lemma RowInTile(m: Matrix, p: Vec4, offset: int, split: int, row: Vec4, source: Vec4)
    requires split > 0
    requires row == Scale(TileScale(split), Add(Scale(0.5, Add(source, m.r3)), Scale(offset as real, m.r3)))
    requires Dot(m.r3, p) > 0.0 && -Dot(m.r3, p) <= Dot(source, p) <= Dot(m.r3, p)
    ensures Dot(row, p) == TileScale(split) * (0.5 * (Dot(source, p) + Dot(m.r3, p)) + offset as real * Dot(m.r3, p))
    ensures offset as real * TileScale(split) <= Dot(row, p) / Dot(m.r3, p) <= (offset + 1) as real * TileScale(split)
  {
    AtlasRowImage(m, p, offset, split, row, source);
    TileCoordinateBounds(Dot(row, p), Dot(source, p), Dot(m.r3, p), offset, split);
  }

  /** A point with clip-space depth z in [-w, w], w > 0, is sent by the atlas
      matrix to depth/w in [0, 1]: (z + w)/2, or (w - z)/2 on a reversed depth
      buffer; the atlas matrix keeps w. */
  lemma AtlasDepthInRange(m: Matrix, p: Vec4, offset: (int, int), split: int, reversedZ: bool)
    requires split > 0
    requires var z, w := Dot(m.r2, p), Dot(m.r3, p);
             w > 0.0 && -w <= z <= w
    ensures var r := ConverToAtlasMatrix(m, offset, split, reversedZ);
            var z, w := Dot(m.r2, p), Dot(m.r3, p);
            Dot(r.r3, p) == w &&
            Dot(r.r2, p) == (if reversedZ then 0.5 * (w - z) else 0.5 * (z + w)) &&
            0.0 <= Dot(r.r2, p) / w <= 1.0
  {
    var z, w := Dot(m.r2, p), Dot(m.r3, p);
    AtlasRows(m, offset, split, reversedZ);
    DepthRowImage(m, p, reversedZ);
    UnitFraction(if reversedZ then 0.5 * (w - z) else 0.5 * (z + w), w);
  }

  /** The rows of the atlas matrix written out. */
  lemma AtlasRows(m: Matrix, offset: (int, int), split: int, reversedZ: bool)
    requires split > 0
    ensures var r := ConverToAtlasMatrix(m, offset, split, reversedZ);
            var s := TileScale(split);
            r.r0 == Scale(s, Add(Scale(0.5, Add(m.r0, m.r3)), Scale(offset.0 as real, m.r3))) &&
            r.r1 == Scale(s, Add(Scale(0.5, Add(m.r1, m.r3)), Scale(offset.1 as real, m.r3))) &&
            r.r2 == Scale(0.5, Add(if reversedZ then Negate(m.r2) else m.r2, m.r3)) &&
            r.r3 == m.r3
  {
  }

  lemma DepthRowImage(m: Matrix, p: Vec4, reversedZ: bool)
    ensures Dot(Scale(0.5, Add(if reversedZ then Negate(m.r2) else m.r2, m.r3)), p) ==
            (if reversedZ then 0.5 * (Dot(m.r3, p) - Dot(m.r2, p)) else 0.5 * (Dot(m.r2, p) + Dot(m.r3, p)))
  {
    var n2 := if reversedZ then Negate(m.r2) else m.r2;
    DotNegate(m.r2, p);
    DotAdd(n2, m.r3, p);
    DotScale(0.5, Add(n2, m.r3), p);
  }

  // ---------------------------------------------------------------- cascade data

  /** The culling-sphere radius shrunk by one filter kernel: the texel size is
      2r/tileSize and the kernel spans filter ordinal + 1 texels. */
  function AdjustedRadius(radius: real, tileSize: int, filter: FilterMode): (r: real)
    requires radius > 0.0 && tileSize > 2 * (filter.Ordinal() + 1)
    ensures 0.0 < r < radius
  {
    var texelSize := 2.0 * radius / tileSize as real;
    var filterSize := texelSize * (filter.Ordinal() + 1) as real;
    var k := (2 * (filter.Ordinal() + 1)) as real / tileSize as real;
    assert 0.0 < k < 1.0;
    assert filterSize == radius * k;
    radius - filterSize
  }

  /** The culling sphere and cascade datum stored for one cascade. */
  datatype CascadeEntry = CascadeEntry(sphere: Vec4, data: Vec4)

  /** SetCascadeData: the sphere keeps its centre and stores the squared
      adjusted radius; the datum holds its reciprocal and sqrt(2) times the
      filter size. */
  function CascadeData(cullingSphere: Vec4, tileSize: int, filter: FilterMode): (e: CascadeEntry)
    requires cullingSphere.w > 0.0 && tileSize > 2 * (filter.Ordinal() + 1)
    ensures e.sphere.x == cullingSphere.x && e.sphere.y == cullingSphere.y && e.sphere.z == cullingSphere.z
    ensures var r := AdjustedRadius(cullingSphere.w, tileSize, filter);
            e.sphere.w == r * r && 0.0 < e.sphere.w < cullingSphere.w * cullingSphere.w
    ensures e.data.x * e.sphere.w == 1.0 && e.data.y > 0.0 && e.data.z == 0.0 && e.data.w == 0.0
    ensures e.data.y == 1.4142136 * (cullingSphere.w - AdjustedRadius(cullingSphere.w, tileSize, filter))
    ensures e.data.y * tileSize as real == 1.4142136 * 2.0 * cullingSphere.w * (filter.Ordinal() + 1) as real
  {
    var texelSize := 2.0 * cullingSphere.w / tileSize as real;
    var filterSize := texelSize * (filter.Ordinal() + 1) as real;
    var r := AdjustedRadius(cullingSphere.w, tileSize, filter);
    assert 0.0 < r * r < cullingSphere.w * cullingSphere.w by {
      assert r * r < r * cullingSphere.w < cullingSphere.w * cullingSphere.w;
    }
    CascadeEntry(cullingSphere.(w := r * r), Vec4(1.0 / (r * r), 1.4142136 * filterSize, 0.0, 0.0))
  }

  /** A wider filter kernel shrinks the cascade sphere more, so its stored
      squared radius is smaller and its reciprocal larger. */
  lemma CascadeShrinkMonotonic(cullingSphere: Vec4, tileSize: int, f1: FilterMode, f2: FilterMode)
    requires cullingSphere.w > 0.0
    requires tileSize > 2 * (f1.Ordinal() + 1) && tileSize > 2 * (f2.Ordinal() + 1)
    requires f1.Ordinal() <= f2.Ordinal()
    ensures AdjustedRadius(cullingSphere.w, tileSize, f2) <= AdjustedRadius(cullingSphere.w, tileSize, f1)
    ensures CascadeData(cullingSphere, tileSize, f2).sphere.w <= CascadeData(cullingSphere, tileSize, f1).sphere.w
    ensures CascadeData(cullingSphere, tileSize, f1).data.x <= CascadeData(cullingSphere, tileSize, f2).data.x
  {
    AdjustedRadiusMonotonic(cullingSphere.w, tileSize, f1, f2);
    var e1, e2 := CascadeData(cullingSphere, tileSize, f1), CascadeData(cullingSphere, tileSize, f2);
    SquareMonotonic(AdjustedRadius(cullingSphere.w, tileSize, f2), AdjustedRadius(cullingSphere.w, tileSize, f1));
    InverseAntitone(e2.sphere.w, e1.sphere.w, e2.data.x, e1.data.x);
  }

  lemma AdjustedRadiusMonotonic(radius: real, tileSize: int, f1: FilterMode, f2: FilterMode)
    requires radius > 0.0
    requires tileSize > 2 * (f1.Ordinal() + 1) && tileSize > 2 * (f2.Ordinal() + 1)
    requires f1.Ordinal() <= f2.Ordinal()
    ensures AdjustedRadius(radius, tileSize, f2) <= AdjustedRadius(radius, tileSize, f1)
  {
    var texelSize := 2.0 * radius / tileSize as real;
    assert texelSize > 0.0;
    ScaleMonotonic(texelSize, (f1.Ordinal() + 1) as real, (f2.Ordinal() + 1) as real);
  }

  lemma InverseAntitone(a: real, b: real, ia: real, ib: real)
    requires 0.0 < a <= b && ia * a == 1.0 && ib * b == 1.0
    ensures ib <= ia
  {
    assert ia > 0.0 && ib > 0.0;
    assert ib * a <= ib * b;
    assert (ia - ib) * a >= 0.0;
  }

  lemma ScaleMonotonic(k: real, a: real, b: real)
    requires k > 0.0 && a <= b
    ensures k * a <= k * b
  {
  }

  lemma SquareMonotonic(a: real, b: real)
    requires 0.0 < a <= b
    ensures a * a <= b * b
  {
    assert a * a <= a * b <= b * b;
  }

  // ---------------------------------------------------------------- tile data

  /** SetOtherTileData: the tile's UV origin and size, pulled in by half an
      atlas texel on every side, and the normal bias. */
  function OtherTileData(offset: (int, int), scale: real, bias: real, atlasTexel: real): (v: Vec4)
    requires atlasTexel >= 0.0 && scale > 0.0
    ensures offset.0 as real * scale <= v.x && v.x + v.z <= (offset.0 + 1) as real * scale
    ensures offset.1 as real * scale <= v.y && v.y + v.z <= (offset.1 + 1) as real * scale
    ensures v.z == scale - atlasTexel && v.w == bias
  {
    var border := atlasTexel * 0.5;
    var x := offset.0 as real * scale + border;
    var y := offset.1 as real * scale + border;
    Vec4(x, y, scale - border - border, bias)
  }

  // ---------------------------------------------------------------- keywords

  const DirectionalFilterKeywords: seq<string> := ["_DIRECTIONAL_PCF3", "_DIRECTIONAL_PCF5", "_DIRECTIONAL_PCF7"]
  const OtherFilterKeywords: seq<string> := ["_OTHER_PCF3", "_OTHER_PCF5", "_OTHER_PCF7"]
  const CascadeBlendKeywords: seq<string> := ["_CASCADE_BLEND_SOFT", "_CASCADE_BLEND_DITHER"]
  const ShadowMaskKeywords: seq<string> := ["_SHADOW_MASK_ALWAYS", "_SHADOW_MASK_DISTANCE"]

  /** SetKeywords: one command per keyword, in order, enabling the one at
      enabledIndex and disabling the rest. */
  function KeywordCommands(keywords: seq<string>, enabledIndex: int): (cmds: seq<ShadowCmd>)
  {
    seq(|keywords|, j requires 0 <= j < |keywords| => SetKeyword(keywords[j], j == enabledIndex))
  }

  function EnabledKeywords(cmds: seq<ShadowCmd>): set<string> {
    set c | c in cmds && c.SetKeyword? && c.enabled :: c.keyword
  }

  function DisabledKeywords(cmds: seq<ShadowCmd>): set<string> {
    set c | c in cmds && c.SetKeyword? && !c.enabled :: c.keyword
  }

  ghost predicate Distinct(keywords: seq<string>) {
    forall i, j :: 0 <= i < j < |keywords| ==> keywords[i] != keywords[j]
  }

  /** Of a group of distinct keywords, exactly the one at enabledIndex ends up
      enabled and every other one disabled; an index outside the group (such
      as -1) disables them all. */
  lemma KeywordSelection(keywords: seq<string>, enabledIndex: int)
    requires Distinct(keywords)
    ensures var cmds := KeywordCommands(keywords, enabledIndex);
            EnabledKeywords(cmds) == (if 0 <= enabledIndex < |keywords| then {keywords[enabledIndex]} else {}) &&
            DisabledKeywords(cmds) == (set k | k in keywords) - EnabledKeywords(cmds)
  {
    var cmds := KeywordCommands(keywords, enabledIndex);
    var on := if 0 <= enabledIndex < |keywords| then {keywords[enabledIndex]} else {};
    forall k | k in EnabledKeywords(cmds) ensures k in on {
      var j :| 0 <= j < |cmds| && cmds[j].keyword == k && cmds[j].enabled;
    }
    forall k | k in on ensures k in EnabledKeywords(cmds) {
      assert cmds[enabledIndex].keyword == k;
    }
    forall k | k in DisabledKeywords(cmds) ensures k in keywords && k !in on {
      var j :| 0 <= j < |cmds| && cmds[j].keyword == k && !cmds[j].enabled;
    }
    forall k | k in keywords && k !in on ensures k in DisabledKeywords(cmds) {
      var j :| 0 <= j < |keywords| && keywords[j] == k;
      assert cmds[j] in cmds;
    }
  }

  lemma ShadowKeywordGroupsDistinct()
    ensures Distinct(DirectionalFilterKeywords) && Distinct(OtherFilterKeywords)
    ensures Distinct(CascadeBlendKeywords) && Distinct(ShadowMaskKeywords)
  {
  }

  /** The shadow-mask keyword index: -1 without baked shadow masks, otherwise
      0 (always) for Shadowmask mode and 1 (distance) for Distance Shadowmask. */
  function ShadowMaskKeywordIndex(useShadowMask: bool, mode: Scene.ShadowmaskMode): (k: int)
    ensures k == -1 <==> !useShadowMask
    ensures useShadowMask ==> (k == 0 <==> mode.Shadowmask?) && 0 <= k <= 1
  {
    if useShadowMask then (if mode.Shadowmask? then 0 else 1) else -1
  }
}
