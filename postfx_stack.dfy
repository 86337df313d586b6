/** The post-processing stack (class PostFXStack): it is active for game
    and scene-view cameras that have settings, and renders bloom by
    downsampling a prefiltered copy of the frame into a pyramid of
    temporary render targets and combining the levels back up into the
    camera target. Command buffers are lists of commands; shader property
    ids come from a registry that hands out one integer per name. */
module PostFXRendering {
  import opened Scene
  import opened PostFXConfig

  const MaxBloomPyramidLevels: int := 16

  // ------------------------------------------------------------ property ids

  function DigitChar(d: int): char
    requires 0 <= d < 10
  {
    ('0' as int + d) as char
  }

  /** The decimal digits of n, as string concatenation with an int prints them. */
  function Digits(n: nat): (s: string)
    ensures 1 <= |s| && (n < 10 <==> |s| == 1)
  {
    if n < 10 then [DigitChar(n)] else Digits(n / 10) + [DigitChar(n % 10)]
  }

  /** Different numbers print differently. */
  lemma {:induction false} DigitsInjective(a: nat, b: nat)
    requires Digits(a) == Digits(b)
    ensures a == b
    decreases a
  {
    if 10 <= a {
      var da, db := Digits(a), Digits(b);
      assert da[..|da| - 1] == Digits(a / 10) && db[..|db| - 1] == Digits(b / 10);
      assert da[|da| - 1] == DigitChar(a % 10) && db[|db| - 1] == DigitChar(b % 10);
      DigitsInjective(a / 10, b / 10);
    }
  }

  /** The name of pyramid level i: "_BloomPyramid" followed by i. */
  function PyramidName(i: nat): string {
    "_BloomPyramid" + Digits(i)
  }

  lemma PyramidNameInjective(i: nat, j: nat)
    requires PyramidName(i) == PyramidName(j)
    ensures i == j
  {
    assert PyramidName(i)[13..] == Digits(i) && PyramidName(j)[13..] == Digits(j);
    DigitsInjective(i, j);
  }

  const FxSourceName: string := "_PostFXSource"
  const FxSource2Name: string := "_PostFXSource2"
  const BloomBicubicUpsamplingName: string := "_BloomBicubicUpsampling"
  const BloomPrefilterName: string := "_BloomPrefilter"
  const BloomThresholdName: string := "_BloomThreshold"
  const BloomIntensityName: string := "_BloomIntensity"

  /** No pyramid level shares its name with one of the stack's other properties. */
  lemma PyramidNamesAreOwn(i: nat)
    ensures PyramidName(i) !in {FxSourceName, FxSource2Name, BloomBicubicUpsamplingName, BloomPrefilterName,
                                BloomThresholdName, BloomIntensityName}
  {
    var n := PyramidName(i);
    assert n[1] == 'B' && n[6] == 'P' && n[7] == 'y';
    assert FxSourceName[1] == 'P' && FxSource2Name[1] == 'P';
    assert BloomBicubicUpsamplingName[6] == 'B' && BloomThresholdName[6] == 'T' && BloomIntensityName[6] == 'I';
    assert BloomPrefilterName[7] == 'r';
  }

  /** Shader.PropertyToID: every name gets one integer, and a name not seen
      before gets the next unused one. */
  class PropertyIds {
    var ids: map<string, int>
    var next: int

    ghost predicate Valid()
      reads this
    {
      0 <= next &&
      (forall n :: n in ids ==> 0 <= ids[n] < next) &&
      (forall a, b :: a in ids && b in ids && ids[a] == ids[b] ==> a == b)
    }

    constructor()
      ensures Valid() && ids == map[] && next == 0
    {
      ids := map[];
      next := 0;
    }

    method PropertyToID(name: string) returns (id: int)
      requires Valid()
      modifies this
      ensures Valid()
      ensures name in old(ids) ==> id == old(ids)[name] && ids == old(ids) && next == old(next)
      ensures name !in old(ids) ==> id == old(next) && ids == old(ids)[name := id] && next == old(next) + 1
    {
      if name in ids {
        id := ids[name];
      } else {
        id := next;
        assert forall n :: n in ids ==> ids[n] != id;
        ids := ids[name := id];
        next := next + 1;
      }
    }
  }

  // ---------------------------------------------------------------- commands

  datatype Pass = BloomCombine | BloomHorizontal | BloomPrefilter | BloomVertical | Copy

  datatype Target = Texture(id: int) | CameraTarget

  datatype FXCmd =
    | BeginSample(name: string)
    | EndSample(name: string)
    /** The bloom threshold vector, computed from these settings, set on `property`. */
    | SetBloomThreshold(property: int, bloom: BloomSettings)
    | SetGlobalFloat(property: int, value: real)
    | SetGlobalTexture(property: int, texture: Target)
    | GetTemporaryRT(id: int, width: int, height: int)
    | SetRenderTarget(target: Target)
    | DrawProcedural(material: Material?, pass: Pass)
    | ReleaseTemporaryRT(id: int)

  /** The property ids the stack's commands name. */
  datatype FXIds = FXIds(fxSource: int, fxSource2: int, bicubicUpsampling: int, prefilter: int,
                         threshold: int, intensity: int, pyramid: int)

  /** The items `pick` finds in each command of a log, in log order. */
  function Collect<T>(log: seq<FXCmd>, pick: FXCmd -> seq<T>): seq<T> {
    if log == [] then [] else pick(log[0]) + Collect(log[1..], pick)
  }

  lemma {:induction false} CollectConcat<T>(a: seq<FXCmd>, b: seq<FXCmd>, pick: FXCmd -> seq<T>)
    ensures Collect(a + b, pick) == Collect(a, pick) + Collect(b, pick)
    decreases |a|
  {
    if a != [] {
      assert (a + b)[0] == a[0] && (a + b)[1..] == a[1..] + b;
      CollectConcat(a[1..], b, pick);
    } else {
      assert a + b == b;
    }
  }

  lemma CollectOne<T>(c: FXCmd, pick: FXCmd -> seq<T>)
    ensures Collect([c], pick) == pick(c)
  {
    assert [c][1..] == [];
  }

  lemma CollectTwo<T>(x: FXCmd, y: FXCmd, pick: FXCmd -> seq<T>)
    ensures Collect([x, y], pick) == pick(x) + pick(y)
  {
    assert [x, y] == [x] + [y];
    CollectConcat([x], [y], pick);
    CollectOne(x, pick);
    CollectOne(y, pick);
  }

  /** A log in five pieces holds what its pieces hold, in order. */
  lemma CollectFive<T>(a: seq<FXCmd>, b: seq<FXCmd>, c: seq<FXCmd>, d: seq<FXCmd>, e: seq<FXCmd>, pick: FXCmd -> seq<T>)
    ensures Collect(a + b + c + d + e, pick) == Collect(a, pick) + Collect(b, pick) + Collect(c, pick) + Collect(d, pick) + Collect(e, pick)
  {
    CollectConcat(a + b + c + d, e, pick);
    CollectConcat(a + b + c, d, pick);
    CollectConcat(a + b, c, pick);
    CollectConcat(a, b, pick);
  }

  /** What a log of three commands holds. */
  lemma CollectThree<T>(x: FXCmd, y: FXCmd, z: FXCmd, pick: FXCmd -> seq<T>)
    ensures Collect([x, y, z], pick) == pick(x) + pick(y) + pick(z)
  {
    assert [x, y, z] == [x] + [y] + [z];
    CollectConcat([x] + [y], [z], pick);
    CollectConcat([x], [y], pick);
    CollectOne(x, pick);
    CollectOne(y, pick);
    CollectOne(z, pick);
  }

  function AcquiredId(c: FXCmd): seq<int> {
    if c.GetTemporaryRT? then [c.id] else []
  }

  function ReleasedId(c: FXCmd): seq<int> {
    if c.ReleaseTemporaryRT? then [c.id] else []
  }

  function DrawnPass(c: FXCmd): seq<Pass> {
    if c.DrawProcedural? then [c.pass] else []
  }

  /** The temporary render targets a log acquires, in order. */
  function Acquired(log: seq<FXCmd>): seq<int> {
    Collect(log, AcquiredId)
  }

  /** The temporary render targets a log releases, in order. */
  function Released(log: seq<FXCmd>): seq<int> {
    Collect(log, ReleasedId)
  }

  /** The passes a log draws, in order. */
  function Drawn(log: seq<FXCmd>): seq<Pass> {
    Collect(log, DrawnPass)
  }

  /** The n integers from a. */
  function Span(a: int, n: nat): (s: seq<int>)
    ensures |s| == n
  {
    if n == 0 then [] else Span(a, n - 1) + [a + n - 1]
  }

  lemma SpanNext(a: int, n: nat)
    ensures Span(a, n + 1) == Span(a, n) + [a + n]
  {
  }

  lemma SpanTwo(a: int, k: nat, n: nat)
    requires n == k + 2
    ensures Span(a, n) == Span(a, k) + [a + k] + [a + k + 1]
  {
    SpanNext(a, k);
    SpanNext(a, k + 1);
  }

  /** Span(a, n) for n >= 1 is a followed by Span(a + 1, n - 1). */
  lemma {:induction false} SpanFront(a: int, n: nat)
    requires 1 <= n
    ensures Span(a, n) == [a] + Span(a + 1, n - 1)
  {
    if n > 1 {
      SpanFront(a, n - 1);
    }
  }

  function Repeat<T>(x: seq<T>, n: nat): seq<T> {
    if n == 0 then [] else Repeat(x, n - 1) + x
  }

  // ------------------------------------------------------------ bloom levels

  /** C#'s integer halving, which truncates toward zero. */
  function Half(n: int): int {
    if n >= 0 then n / 2 else -((-n) / 2)
  }

  /** n halved k times. */
  function Halve(n: int, k: nat): int {
    if k == 0 then n else Half(Halve(n, k - 1))
  }

  /** The first level from k on at which the downsampling loop stops: the
      iteration limit is reached or a side of the level falls below the
      downscale limit. */
  function Levels(b: BloomSettings, width: int, height: int, k: nat): nat
    decreases b.maxIterations - k
  {
    if k >= b.maxIterations || Halve(width, k) < b.downscaleLimit || Halve(height, k) < b.downscaleLimit then k
    else Levels(b, width, height, k + 1)
  }

  /** The number of pyramid levels bloom renders for a first level of the
      given size: none when the intensity is not positive. */
  function BloomLevels(b: BloomSettings, width: int, height: int): nat {
    if b.intensity > 0.0 then Levels(b, width, height, 0) else 0
  }

  lemma {:induction false} LevelsMeaning(b: BloomSettings, width: int, height: int, k: nat)
    ensures var n := Levels(b, width, height, k);
            k <= n && (n == k || n <= b.maxIterations) &&
            (forall j :: k <= j < n ==> Halve(width, j) >= b.downscaleLimit && Halve(height, j) >= b.downscaleLimit) &&
            (n < b.maxIterations ==> Halve(width, n) < b.downscaleLimit || Halve(height, n) < b.downscaleLimit)
    decreases b.maxIterations - k
  {
    if !(k >= b.maxIterations || Halve(width, k) < b.downscaleLimit || Halve(height, k) < b.downscaleLimit) {
      LevelsMeaning(b, width, height, k + 1);
    }
  }

  /** Bloom renders no level without a positive intensity; otherwise it
      renders every level whose sides are at least the downscale limit, up
      to the iteration limit, stopping at the first one that is too small.
      With the declared ranges there are at most 16 levels. */
  lemma BloomLevelsMeaning(b: BloomSettings, width: int, height: int)
    ensures var n := BloomLevels(b, width, height);
            (b.intensity <= 0.0 ==> n == 0) &&
            (n <= b.maxIterations || n == 0) &&
            (forall j :: 0 <= j < n ==> Halve(width, j) >= b.downscaleLimit && Halve(height, j) >= b.downscaleLimit) &&
            (b.intensity > 0.0 && n < b.maxIterations ==>
               Halve(width, n) < b.downscaleLimit || Halve(height, n) < b.downscaleLimit) &&
            (ValidBloom(b) ==> n <= MaxBloomPyramidLevels)
  {
    LevelsMeaning(b, width, height, 0);
  }

  // -------------------------------------------------------------- bloom log

  /** Draw: the source texture, the render target, and a procedural triangle. */
  function DrawLog(ids: FXIds, from: Target, to: Target, pass: Pass, m: Material?): seq<FXCmd> {
    [SetGlobalTexture(ids.fxSource, from), SetRenderTarget(to), DrawProcedural(m, pass)]
  }

  /** The target level k downsamples from: the prefilter for the first
      level, the previous level's vertical target after that. */
  function DownFrom(ids: FXIds, k: nat): int {
    if k == 0 then ids.prefilter else ids.pyramid + 2 * k - 1
  }

  /** Level k: a horizontal pass into target pyramid+2k and a vertical pass
      into pyramid+2k+1, both of the level's size. */
  function DownStep(ids: FXIds, k: nat, width: int, height: int, m: Material?): seq<FXCmd> {
    var mid, to := ids.pyramid + 2 * k, ids.pyramid + 2 * k + 1;
    var w, h := Halve(width, k), Halve(height, k);
    [GetTemporaryRT(mid, w, h)] + DrawLog(ids, Texture(DownFrom(ids, k)), Texture(mid), BloomHorizontal, m) +
    [GetTemporaryRT(to, w, h)] + DrawLog(ids, Texture(mid), Texture(to), BloomVertical, m)
  }

  /** The first n levels. */
  function DownLog(ids: FXIds, n: nat, width: int, height: int, m: Material?): seq<FXCmd> {
    if n == 0 then [] else DownLog(ids, n - 1, width, height, m) + DownStep(ids, n - 1, width, height, m)
  }

  /** One combine at level c-1: `from` is blended onto the vertical target of
      that level into its horizontal target, and both sources are released. */
  function UpStep(ids: FXIds, c: nat, from: int, m: Material?): seq<FXCmd>
    requires c > 0
  {
    var to := ids.pyramid + 2 * c - 2;
    [SetGlobalTexture(ids.fxSource2, Texture(to + 1))] + DrawLog(ids, Texture(from), Texture(to), BloomCombine, m) +
    [ReleaseTemporaryRT(from), ReleaseTemporaryRT(to + 1)]
  }

  /** The combine passes from level c back up to level 1: each combines the
      current result `from` with the vertical target of the level below
      into that level's horizontal target, then releases both inputs. */
  function UpLog(ids: FXIds, c: nat, from: int, m: Material?): seq<FXCmd> {
    if c == 0 then [] else UpStep(ids, c, from, m) + UpLog(ids, c - 1, ids.pyramid + 2 * c - 2, m)
  }

  /** One more combine step extends a log by the next part of UpLog. */
  lemma UpLogStep(ids: FXIds, c: nat, from: int, m: Material?, before: seq<FXCmd>)
    requires c > 0
    ensures (before + UpStep(ids, c, from, m)) + UpLog(ids, c - 1, ids.pyramid + 2 * c - 2, m) == before + UpLog(ids, c, from, m)
  {
  }

  lemma CombineLogParts(ids: FXIds, n: nat, b: BloomSettings, sourceId: int, m: Material?, before: seq<FXCmd>)
    requires n > 0
    ensures before + CombineHead(ids, n, b) + UpLog(ids, n - 1, ids.pyramid + 2 * n - 1, m) + CombineLast(ids, n, sourceId, m)
            == before + CombineLog(ids, n, b, sourceId, m)
  {
  }

  /** The result the last combine reads after n levels: level 0's vertical
      target when there is one level, level 0's horizontal target otherwise. */
  function FinalFrom(ids: FXIds, n: nat): int {
    if n == 1 then ids.pyramid + 1 else ids.pyramid
  }

  /** The head of the combine phase: the bloom uniforms are set and the
      deepest horizontal target, which no combine reads, is released. */
  function CombineHead(ids: FXIds, n: nat, b: BloomSettings): seq<FXCmd> {
    [SetGlobalFloat(ids.intensity, b.intensity),
     SetGlobalFloat(ids.bicubicUpsampling, if b.bicubicUpsampling then 1.0 else 0.0),
     ReleaseTemporaryRT(ids.pyramid + 2 * n - 2)]
  }

  /** The last combine: the original frame is the second source, the result
      goes to the camera target, and the last intermediate is released. */
  function CombineLast(ids: FXIds, n: nat, sourceId: int, m: Material?): seq<FXCmd> {
    [SetGlobalTexture(ids.fxSource2, Texture(sourceId))] +
    DrawLog(ids, Texture(FinalFrom(ids, n)), CameraTarget, BloomCombine, m) +
    [ReleaseTemporaryRT(FinalFrom(ids, n))]
  }

  /** Combining n > 0 levels back up into the camera target. */
  function CombineLog(ids: FXIds, n: nat, b: BloomSettings, sourceId: int, m: Material?): seq<FXCmd>
    requires n > 0
  {
    CombineHead(ids, n, b) + UpLog(ids, n - 1, ids.pyramid + 2 * n - 1, m) + CombineLast(ids, n, sourceId, m)
  }

  /** The start of DoBloom: the profiler sample, the threshold vector and
      the half-size prefilter target. */
  function BloomHead(ids: FXIds, b: BloomSettings, width: int, height: int): seq<FXCmd> {
    [BeginSample("Bloom"), SetBloomThreshold(ids.threshold, b), GetTemporaryRT(ids.prefilter, width, height)]
  }

  /** The number of pyramid levels DoBloom renders for a camera of the given
      pixel size: the first level is a quarter of the camera's size. */
  function BloomLevelCount(b: BloomSettings, pixelWidth: int, pixelHeight: int): nat {
    BloomLevels(b, Half(Half(pixelWidth)), Half(Half(pixelHeight)))
  }

  /** After the pyramid: combining its n levels, or copying the frame when
      there are none. */
  function BloomMiddle(ids: FXIds, b: BloomSettings, n: nat, sourceId: int, m: Material?): seq<FXCmd> {
    if n > 0 then CombineLog(ids, n, b, sourceId, m) else DrawLog(ids, Texture(sourceId), CameraTarget, Copy, m)
  }

  function BloomTail(ids: FXIds): seq<FXCmd> {
    [ReleaseTemporaryRT(ids.prefilter), EndSample("Bloom")]
  }

  /** The commands DoBloom records for a camera of the given pixel size,
      with every draw using material m. */
  function BloomLog(ids: FXIds, b: BloomSettings, pixelWidth: int, pixelHeight: int, sourceId: int, m: Material?): seq<FXCmd> {
    var width, height := Half(pixelWidth), Half(pixelHeight);
    var n := BloomLevelCount(b, pixelWidth, pixelHeight);
    BloomHead(ids, b, width, height) + DrawLog(ids, Texture(sourceId), Texture(ids.prefilter), BloomPrefilter, m) +
    DownLog(ids, n, Half(width), Half(height), m) + BloomMiddle(ids, b, n, sourceId, m) + BloomTail(ids)
  }

  /** DoBloom's log, assembled from the pieces its steps record. */
  lemma BloomLogParts(ids: FXIds, b: BloomSettings, pixelWidth: int, pixelHeight: int, sourceId: int, m: Material?,
                      before: seq<FXCmd>)
    ensures before + BloomHead(ids, b, Half(pixelWidth), Half(pixelHeight)) +
            DrawLog(ids, Texture(sourceId), Texture(ids.prefilter), BloomPrefilter, m) +
            DownLog(ids, BloomLevelCount(b, pixelWidth, pixelHeight), Half(Half(pixelWidth)), Half(Half(pixelHeight)), m) +
            BloomMiddle(ids, b, BloomLevelCount(b, pixelWidth, pixelHeight), sourceId, m) + BloomTail(ids)
            == before + BloomLog(ids, b, pixelWidth, pixelHeight, sourceId, m)
  {
  }

  // --------------------------------------------------------- bloom properties

  lemma DrawLogContents(ids: FXIds, from: Target, to: Target, pass: Pass, m: Material?)
    ensures Acquired(DrawLog(ids, from, to, pass, m)) == [] && Released(DrawLog(ids, from, to, pass, m)) == []
    ensures Drawn(DrawLog(ids, from, to, pass, m)) == [pass]
  {
    var d := DrawLog(ids, from, to, pass, m);
    CollectThree(d[0], d[1], d[2], AcquiredId);
    CollectThree(d[0], d[1], d[2], ReleasedId);
    CollectThree(d[0], d[1], d[2], DrawnPass);
  }

  /** Level k acquires pyramid+2k, then pyramid+2k+1, releases nothing, and
      draws horizontally then vertically. */
  lemma DownStepContents(ids: FXIds, k: nat, width: int, height: int, m: Material?)
    ensures var s := DownStep(ids, k, width, height, m);
            Acquired(s) == [ids.pyramid + 2 * k, ids.pyramid + 2 * k + 1] && Released(s) == [] &&
            Drawn(s) == [BloomHorizontal, BloomVertical]
  {
    var mid, to := ids.pyramid + 2 * k, ids.pyramid + 2 * k + 1;
    var w, h := Halve(width, k), Halve(height, k);
    var d1 := DrawLog(ids, Texture(DownFrom(ids, k)), Texture(mid), BloomHorizontal, m);
    var d2 := DrawLog(ids, Texture(mid), Texture(to), BloomVertical, m);
    DrawLogContents(ids, Texture(DownFrom(ids, k)), Texture(mid), BloomHorizontal, m);
    DrawLogContents(ids, Texture(mid), Texture(to), BloomVertical, m);
    CollectConcat([GetTemporaryRT(mid, w, h)] + d1 + [GetTemporaryRT(to, w, h)], d2, AcquiredId);
    CollectConcat([GetTemporaryRT(mid, w, h)] + d1, [GetTemporaryRT(to, w, h)], AcquiredId);
    CollectConcat([GetTemporaryRT(mid, w, h)], d1, AcquiredId);
    CollectConcat([GetTemporaryRT(mid, w, h)] + d1 + [GetTemporaryRT(to, w, h)], d2, ReleasedId);
    CollectConcat([GetTemporaryRT(mid, w, h)] + d1, [GetTemporaryRT(to, w, h)], ReleasedId);
    CollectConcat([GetTemporaryRT(mid, w, h)], d1, ReleasedId);
    CollectConcat([GetTemporaryRT(mid, w, h)] + d1 + [GetTemporaryRT(to, w, h)], d2, DrawnPass);
    CollectConcat([GetTemporaryRT(mid, w, h)] + d1, [GetTemporaryRT(to, w, h)], DrawnPass);
    CollectConcat([GetTemporaryRT(mid, w, h)], d1, DrawnPass);
  }

  /** The first n levels acquire pyramid .. pyramid+2n-1 in order, release
      nothing, and draw n horizontal-vertical pairs. */
  lemma {:induction false} DownLogContents(ids: FXIds, n: nat, width: int, height: int, m: Material?)
    ensures var s := DownLog(ids, n, width, height, m);
            Acquired(s) == Span(ids.pyramid, 2 * n) && Released(s) == [] &&
            Drawn(s) == Repeat([BloomHorizontal, BloomVertical], n)
  {
    if n > 0 {
      var prev, step := DownLog(ids, n - 1, width, height, m), DownStep(ids, n - 1, width, height, m);
      DownLogContents(ids, n - 1, width, height, m);
      DownStepContents(ids, n - 1, width, height, m);
      CollectConcat(prev, step, AcquiredId);
      CollectConcat(prev, step, ReleasedId);
      CollectConcat(prev, step, DrawnPass);
      SpanTwo(ids.pyramid, 2 * (n - 1), 2 * n);
    }
  }

  /** One combine: it acquires nothing, draws one combine, and releases
      `from` and then the vertical target it read. */
  lemma UpStepContents(ids: FXIds, c: nat, from: int, m: Material?)
    requires c > 0
    ensures var s := UpStep(ids, c, from, m);
            Acquired(s) == [] && Released(s) == [from, ids.pyramid + 2 * c - 1] && Drawn(s) == [BloomCombine]
  {
    var to := ids.pyramid + 2 * c - 2;
    var head := [SetGlobalTexture(ids.fxSource2, Texture(to + 1))];
    var d := DrawLog(ids, Texture(from), Texture(to), BloomCombine, m);
    var rel := [ReleaseTemporaryRT(from), ReleaseTemporaryRT(to + 1)];
    DrawLogContents(ids, Texture(from), Texture(to), BloomCombine, m);
    assert rel == [rel[0]] + [rel[1]];
    CollectOne(head[0], AcquiredId);
    CollectOne(head[0], ReleasedId);
    CollectOne(head[0], DrawnPass);
    CollectOne(rel[0], AcquiredId);
    CollectOne(rel[0], ReleasedId);
    CollectOne(rel[0], DrawnPass);
    CollectOne(rel[1], AcquiredId);
    CollectOne(rel[1], ReleasedId);
    CollectOne(rel[1], DrawnPass);
    CollectConcat([rel[0]], [rel[1]], AcquiredId);
    CollectConcat([rel[0]], [rel[1]], ReleasedId);
    CollectConcat([rel[0]], [rel[1]], DrawnPass);
    CollectConcat(head + d, rel, AcquiredId);
    CollectConcat(head, d, AcquiredId);
    CollectConcat(head + d, rel, ReleasedId);
    CollectConcat(head, d, ReleasedId);
    CollectConcat(head + d, rel, DrawnPass);
    CollectConcat(head, d, DrawnPass);
  }

  /** The combines from level c up acquire nothing and draw c combines. */
  lemma {:induction false} UpLogDraws(ids: FXIds, c: nat, from: int, m: Material?)
    ensures Acquired(UpLog(ids, c, from, m)) == []
    ensures Drawn(UpLog(ids, c, from, m)) == seq(c, _ => BloomCombine)
  {
    if c > 0 {
      var to := ids.pyramid + 2 * c - 2;
      UpLogDraws(ids, c - 1, to, m);
      UpStepContents(ids, c, from, m);
      CollectConcat(UpStep(ids, c, from, m), UpLog(ids, c - 1, to, m), AcquiredId);
      CollectConcat(UpStep(ids, c, from, m), UpLog(ids, c - 1, to, m), DrawnPass);
      assert seq(c, _ => BloomCombine) == [BloomCombine] + seq(c - 1, _ => BloomCombine);
    }
  }

  /** The combines from level c up release `from`, then the pyramid
      targets from pyramid+2c-1 down to pyramid+1. */
  lemma {:induction false} UpLogReleases(ids: FXIds, c: nat, from: int, m: Material?)
    requires c > 0
    ensures Released(UpLog(ids, c, from, m)) == [from] + Desc(ids.pyramid + 1, 2 * c - 1)
  {
    UpLogReleasesStep(ids, c, from, m);
    if c == 1 {
      assert UpLog(ids, 0, ids.pyramid, m) == [];
      assert Desc(ids.pyramid + 1, 1) == [ids.pyramid + 1];
    } else {
      UpLogReleases(ids, c - 1, ids.pyramid + 2 * c - 2, m);
      DescTwoOdd(ids.pyramid, c);
      ReleaseOrderStep(Released(UpLog(ids, c, from, m)), Released(UpLog(ids, c - 1, ids.pyramid + 2 * c - 2, m)),
                       Desc(ids.pyramid + 1, 2 * (c - 1) - 1), Desc(ids.pyramid + 1, 2 * c - 1),
                       from, ids.pyramid + 2 * c - 1, ids.pyramid + 2 * c - 2);
    }
  }

  lemma UpLogReleasesStep(ids: FXIds, c: nat, from: int, m: Material?)
    requires c > 0
    ensures Released(UpLog(ids, c, from, m)) == [from, ids.pyramid + 2 * c - 1] + Released(UpLog(ids, c - 1, ids.pyramid + 2 * c - 2, m))
  {
    var step := UpStep(ids, c, from, m);
    var rest := UpLog(ids, c - 1, ids.pyramid + 2 * c - 2, m);
    UpStepContents(ids, c, from, m);
    CollectConcat(step, rest, ReleasedId);
  }

  lemma ReleaseOrderStep(released: seq<int>, rest: seq<int>, below: seq<int>, all: seq<int>, from: int, x: int, y: int)
    requires released == [from, x] + rest
    requires rest == [y] + below
    requires all == [x] + [y] + below
    ensures released == [from] + all
  {
  }

  /** The n integers from a, largest first. */
  function Desc(a: int, n: nat): (s: seq<int>)
    ensures |s| == n
  {
    if n == 0 then [] else [a + n - 1] + Desc(a, n - 1)
  }

  lemma DescTwoOdd(P: int, c: nat)
    requires c > 1
    ensures Desc(P + 1, 2 * c - 1) == [P + 2 * c - 1] + [P + 2 * c - 2] + Desc(P + 1, 2 * (c - 1) - 1)
  {
    assert Desc(P + 1, 2 * c - 1) == [P + 2 * c - 1] + Desc(P + 1, 2 * c - 2);
  }

  /** Largest first or smallest first, the same integers. */
  lemma {:induction false} DescIsSpan(a: int, n: nat)
    ensures multiset(Desc(a, n)) == multiset(Span(a, n))
  {
    if n > 0 {
      DescIsSpan(a, n - 1);
      assert Desc(a, n) == [a + n - 1] + Desc(a, n - 1);
      assert Span(a, n) == Span(a, n - 1) + [a + n - 1];
    }
  }

  lemma {:induction false} SpanRange(a: int, n: nat)
    ensures forall x :: x in Span(a, n) ==> a <= x < a + n
  {
    if n > 0 {
      SpanRange(a, n - 1);
    }
  }

  lemma CombineHeadContents(ids: FXIds, n: nat, b: BloomSettings)
    ensures var s := CombineHead(ids, n, b);
            Acquired(s) == [] && Released(s) == [ids.pyramid + 2 * n - 2] && Drawn(s) == []
  {
    var s := CombineHead(ids, n, b);
    CollectThree(s[0], s[1], s[2], AcquiredId);
    CollectThree(s[0], s[1], s[2], ReleasedId);
    CollectThree(s[0], s[1], s[2], DrawnPass);
  }

  lemma CombineLastContents(ids: FXIds, n: nat, sourceId: int, m: Material?)
    ensures var s := CombineLast(ids, n, sourceId, m);
            Acquired(s) == [] && Released(s) == [FinalFrom(ids, n)] && Drawn(s) == [BloomCombine]
  {
    var source2 := [SetGlobalTexture(ids.fxSource2, Texture(sourceId))];
    var d := DrawLog(ids, Texture(FinalFrom(ids, n)), CameraTarget, BloomCombine, m);
    var release := [ReleaseTemporaryRT(FinalFrom(ids, n))];
    DrawLogContents(ids, Texture(FinalFrom(ids, n)), CameraTarget, BloomCombine, m);
    CollectOne(source2[0], AcquiredId);
    CollectOne(source2[0], ReleasedId);
    CollectOne(source2[0], DrawnPass);
    CollectOne(release[0], AcquiredId);
    CollectOne(release[0], ReleasedId);
    CollectOne(release[0], DrawnPass);
    CollectConcat(source2 + d, release, AcquiredId);
    CollectConcat(source2, d, AcquiredId);
    CollectConcat(source2 + d, release, ReleasedId);
    CollectConcat(source2, d, ReleasedId);
    CollectConcat(source2 + d, release, DrawnPass);
    CollectConcat(source2, d, DrawnPass);
  }

  /** Combining n levels acquires nothing and draws n combines. */
  lemma CombineLogDraws(ids: FXIds, n: nat, b: BloomSettings, sourceId: int, m: Material?)
    requires n > 0
    ensures Acquired(CombineLog(ids, n, b, sourceId, m)) == []
    ensures Drawn(CombineLog(ids, n, b, sourceId, m)) == seq(n, _ => BloomCombine)
  {
    var head := CombineHead(ids, n, b);
    var up := UpLog(ids, n - 1, ids.pyramid + 2 * n - 1, m);
    var last := CombineLast(ids, n, sourceId, m);
    CombineHeadContents(ids, n, b);
    CombineLastContents(ids, n, sourceId, m);
    UpLogDraws(ids, n - 1, ids.pyramid + 2 * n - 1, m);
    CollectConcat(head + up, last, AcquiredId);
    CollectConcat(head, up, AcquiredId);
    CollectConcat(head + up, last, DrawnPass);
    CollectConcat(head, up, DrawnPass);
    assert seq(n, _ => BloomCombine) == seq(n - 1, _ => BloomCombine) + [BloomCombine];
  }

  /** Combining n levels releases the deepest horizontal target, what the
      upward combines release, and finally the last intermediate result. */
  lemma CombineLogReleases(ids: FXIds, n: nat, b: BloomSettings, sourceId: int, m: Material?)
    requires n > 0
    ensures Released(CombineLog(ids, n, b, sourceId, m)) ==
            [ids.pyramid + 2 * n - 2] + Released(UpLog(ids, n - 1, ids.pyramid + 2 * n - 1, m)) + [FinalFrom(ids, n)]
  {
    var head := CombineHead(ids, n, b);
    var up := UpLog(ids, n - 1, ids.pyramid + 2 * n - 1, m);
    var last := CombineLast(ids, n, sourceId, m);
    CombineHeadContents(ids, n, b);
    CombineLastContents(ids, n, sourceId, m);
    CollectConcat(head + up, last, ReleasedId);
    CollectConcat(head, up, ReleasedId);
  }

  /** The order in which combining n > 1 levels releases the pyramid. */
  function CombineReleaseOrder(P: int, n: nat): seq<int>
    requires n > 1
  {
    [P + 2 * n - 2] + ([P + 2 * n - 1] + Desc(P + 1, 2 * (n - 1) - 1)) + [P]
  }

  lemma CombineReleaseOrderIsSpan(P: int, n: nat)
    requires n > 1
    ensures multiset(CombineReleaseOrder(P, n)) == multiset(Span(P, 2 * n))
  {
    DescIsSpan(P + 1, 2 * (n - 1) - 1);
    SpanSplit(P, n);
    SameTargets(CombineReleaseOrder(P, n), Span(P, 2 * n), Desc(P + 1, 2 * (n - 1) - 1), Span(P + 1, 2 * (n - 1) - 1),
                P + 2 * n - 2, P + 2 * n - 1, P);
  }

  /** The pyramid targets of n > 1 levels, split as the combine phase
      releases them. */
  lemma SpanSplit(P: int, n: nat)
    requires n > 1
    ensures Span(P, 2 * n) == [P] + Span(P + 1, 2 * (n - 1) - 1) + [P + 2 * n - 2] + [P + 2 * n - 1]
  {
    SpanFront(P, 2 * n);
    assert Span(P + 1, 2 * n - 1) == Span(P + 1, 2 * n - 2) + [P + 2 * n - 1];
    assert Span(P + 1, 2 * n - 2) == Span(P + 1, 2 * n - 3) + [P + 2 * n - 2];
  }

  lemma SameTargets(order: seq<int>, whole: seq<int>, desc: seq<int>, below: seq<int>, deepest: int, top: int, last: int)
    requires order == [deepest] + ([top] + desc) + [last]
    requires whole == [last] + below + [deepest] + [top]
    requires multiset(desc) == multiset(below)
    ensures multiset(order) == multiset(whole)
  {
  }

  /** Combining n levels releases every pyramid target pyramid ..
      pyramid+2n-1 exactly once. */
  lemma CombineReleasesAll(ids: FXIds, n: nat, b: BloomSettings, sourceId: int, m: Material?)
    requires n > 0
    ensures multiset(Released(CombineLog(ids, n, b, sourceId, m))) == multiset(Span(ids.pyramid, 2 * n))
  {
    if n == 1 {
      CombineOneReleases(ids, b, sourceId, m);
    } else {
      CombineReleasesInOrder(ids, n, b, sourceId, m);
      CombineReleaseOrderIsSpan(ids.pyramid, n);
    }
  }

  lemma CombineOneReleases(ids: FXIds, b: BloomSettings, sourceId: int, m: Material?)
    ensures Released(CombineLog(ids, 1, b, sourceId, m)) == Span(ids.pyramid, 2)
  {
    CombineLogReleases(ids, 1, b, sourceId, m);
    assert UpLog(ids, 0, ids.pyramid + 1, m) == [];
    assert Span(ids.pyramid, 2) == [ids.pyramid, ids.pyramid + 1];
  }

  lemma CombineReleasesInOrder(ids: FXIds, n: nat, b: BloomSettings, sourceId: int, m: Material?)
    requires n > 1
    ensures Released(CombineLog(ids, n, b, sourceId, m)) == CombineReleaseOrder(ids.pyramid, n)
  {
    CombineLogReleases(ids, n, b, sourceId, m);
    UpLogReleases(ids, n - 1, ids.pyramid + 2 * n - 1, m);
    assert FinalFrom(ids, n) == ids.pyramid;
  }

  lemma BloomHeadContents(ids: FXIds, b: BloomSettings, width: int, height: int)
    ensures var s := BloomHead(ids, b, width, height);
            Acquired(s) == [ids.prefilter] && Released(s) == [] && Drawn(s) == []
  {
    var s := BloomHead(ids, b, width, height);
    CollectThree(s[0], s[1], s[2], AcquiredId);
    CollectThree(s[0], s[1], s[2], ReleasedId);
    CollectThree(s[0], s[1], s[2], DrawnPass);
  }

  lemma BloomTailContents(ids: FXIds)
    ensures Acquired(BloomTail(ids)) == [] && Released(BloomTail(ids)) == [ids.prefilter] && Drawn(BloomTail(ids)) == []
  {
    var s := BloomTail(ids);
    CollectTwo(s[0], s[1], AcquiredId);
    CollectTwo(s[0], s[1], ReleasedId);
    CollectTwo(s[0], s[1], DrawnPass);
  }

  /** Bloom acquires the prefilter target, then the pyramid targets in
      order; it releases what the combine (or copy) releases, then the
      prefilter. */
  lemma BloomTargets(ids: FXIds, b: BloomSettings, pixelWidth: int, pixelHeight: int, sourceId: int, m: Material?)
    ensures var log := BloomLog(ids, b, pixelWidth, pixelHeight, sourceId, m);
            var n := BloomLevelCount(b, pixelWidth, pixelHeight);
            Acquired(log) == [ids.prefilter] + Span(ids.pyramid, 2 * n) &&
            Released(log) == Released(BloomMiddle(ids, b, n, sourceId, m)) + [ids.prefilter]
  {
    var width, height := Half(pixelWidth), Half(pixelHeight);
    var n := BloomLevelCount(b, pixelWidth, pixelHeight);
    var head := BloomHead(ids, b, width, height);
    var pre := DrawLog(ids, Texture(sourceId), Texture(ids.prefilter), BloomPrefilter, m);
    var down := DownLog(ids, n, Half(width), Half(height), m);
    var mid := BloomMiddle(ids, b, n, sourceId, m);
    CollectFive(head, pre, down, mid, BloomTail(ids), AcquiredId);
    CollectFive(head, pre, down, mid, BloomTail(ids), ReleasedId);
    BloomHeadContents(ids, b, width, height);
    BloomTailContents(ids);
    DrawLogContents(ids, Texture(sourceId), Texture(ids.prefilter), BloomPrefilter, m);
    DownLogContents(ids, n, Half(width), Half(height), m);
    if n > 0 {
      CombineLogDraws(ids, n, b, sourceId, m);
      CombineLogReleases(ids, n, b, sourceId, m);
    } else {
      DrawLogContents(ids, Texture(sourceId), CameraTarget, Copy, m);
    }
  }

  /** Every temporary render target bloom acquires it also releases, each
      exactly once. */
  lemma BloomReleasesAll(ids: FXIds, b: BloomSettings, pixelWidth: int, pixelHeight: int, sourceId: int, m: Material?)
    ensures var log := BloomLog(ids, b, pixelWidth, pixelHeight, sourceId, m);
            multiset(Released(log)) == multiset(Acquired(log))
  {
    var n := BloomLevelCount(b, pixelWidth, pixelHeight);
    BloomTargets(ids, b, pixelWidth, pixelHeight, sourceId, m);
    if n > 0 {
      CombineReleasesAll(ids, n, b, sourceId, m);
    } else {
      DrawLogContents(ids, Texture(sourceId), CameraTarget, Copy, m);
    }
  }

  /** Bloom draws the prefilter, then a horizontal and a vertical pass per
      level, then one combine per level, or a single copy when there are no
      levels. */
  lemma BloomPasses(ids: FXIds, b: BloomSettings, pixelWidth: int, pixelHeight: int, sourceId: int, m: Material?)
    ensures var n := BloomLevelCount(b, pixelWidth, pixelHeight);
            Drawn(BloomLog(ids, b, pixelWidth, pixelHeight, sourceId, m)) ==
            [BloomPrefilter] + Repeat([BloomHorizontal, BloomVertical], n) +
            (if n == 0 then [Copy] else seq(n, _ => BloomCombine))
  {
    var width, height := Half(pixelWidth), Half(pixelHeight);
    var n := BloomLevelCount(b, pixelWidth, pixelHeight);
    var head := BloomHead(ids, b, width, height);
    var pre := DrawLog(ids, Texture(sourceId), Texture(ids.prefilter), BloomPrefilter, m);
    var down := DownLog(ids, n, Half(width), Half(height), m);
    var mid := BloomMiddle(ids, b, n, sourceId, m);
    CollectFive(head, pre, down, mid, BloomTail(ids), DrawnPass);
    BloomHeadContents(ids, b, width, height);
    BloomTailContents(ids);
    DrawLogContents(ids, Texture(sourceId), Texture(ids.prefilter), BloomPrefilter, m);
    DownLogContents(ids, n, Half(width), Half(height), m);
    if n > 0 {
      CombineLogDraws(ids, n, b, sourceId, m);
    } else {
      DrawLogContents(ids, Texture(sourceId), CameraTarget, Copy, m);
    }
  }

  /** With the declared bloom ranges, bloom only uses the prefilter and the
      first 32 ids from the pyramid on, the ones the stack registers. */
  lemma BloomIdsInRange(ids: FXIds, b: BloomSettings, pixelWidth: int, pixelHeight: int, sourceId: int, m: Material?)
    requires ValidBloom(b)
    ensures forall id :: id in Acquired(BloomLog(ids, b, pixelWidth, pixelHeight, sourceId, m)) ==>
              id == ids.prefilter || ids.pyramid <= id < ids.pyramid + 2 * MaxBloomPyramidLevels
  {
    var n := BloomLevelCount(b, pixelWidth, pixelHeight);
    BloomTargets(ids, b, pixelWidth, pixelHeight, sourceId, m);
    BloomLevelsMeaning(b, Half(Half(pixelWidth)), Half(Half(pixelHeight)));
    SpanRange(ids.pyramid, 2 * n);
  }

  // ------------------------------------------------------------------ stack

  /** What fetching the settings' Material leaves in the cache: an existing
      material is kept; otherwise one exists afterwards exactly when the
      settings have a shader. */
  predicate Fetched(before: Material?, after: Material?, shader: Shader?) {
    (before != null ==> after == before) &&
    (before == null ==> (after == null <==> shader == null))
  }

  /** The post-processing stack of one camera renderer. */
  class PostFXStack {
    /** The shader property ids: the six static ones and bloomPyramidId. */
    const ids: FXIds
    /** The "Post FX" command buffer. */
    var buffer: seq<FXCmd>
    /** Everything executed on the render context, in order. */
    var submitted: seq<FXCmd>
    var camera: Camera
    var settings: PostFXSettings?

    predicate IsActive()
      reads this`settings
    {
      settings != null
    }

    /** Registers the static property names, then _BloomPyramid0 ..
        _BloomPyramid31. When none of the pyramid names was registered
        before, the 32 pyramid ids are consecutive from bloomPyramidId, and
        the prefilter id lies below them. */
    constructor (registry: PropertyIds)
      requires registry.Valid()
      modifies registry
      ensures registry.Valid()
      ensures Registered(old(registry.ids), registry.ids, ids)
      ensures buffer == [] && submitted == [] && settings == null
    {
      var fx := RegisterNames(registry);
      ids := fx;
      buffer := [];
      submitted := [];
      settings := null;
    }

    /** The stack is active for game and scene-view cameras (the camera
        types whose flag is at most SceneView's) that have settings. */
    method SetUp(camera: Camera, postFXSettings: PostFXSettings?)
      modifies this`camera, this`settings
      ensures this.camera == camera
      ensures IsActive() <==> postFXSettings != null && (camera.cameraType == Game || camera.cameraType == SceneView)
      ensures IsActive() ==> settings == postFXSettings
    {
      this.camera := camera;
      settings := if camera.cameraType.Value() <= CameraType.SceneView.Value() then postFXSettings else null;
    }

    /** A full-screen triangle from `from` into `to` with the given pass of
        the settings' material. */
    method Draw(from: Target, to: Target, pass: Pass)
      requires settings != null
      modifies this`buffer, settings`material
      ensures Fetched(old(settings.material), settings.material, settings.shader)
      ensures old(settings.material) == null && settings.material != null ==>
                fresh(settings.material) && settings.material.shader == settings.shader &&
                settings.material.hideFlags == HideAndDontSave
      ensures buffer == old(buffer) + DrawLog(ids, from, to, pass, settings.material)
    {
      buffer := buffer + [SetGlobalTexture(ids.fxSource, from), SetRenderTarget(to)];
      var material := settings.GetMaterial();
      buffer := buffer + [DrawProcedural(material, pass)];
    }

    /** The downsampling loop of DoBloom: from a first level of the given
        size it renders the levels BloomLevels counts, each into a
        horizontal and a vertical pyramid target. */
    method Downsample(width0: int, height0: int) returns (levels: nat, fromId: int, toId: int)
      requires settings != null && (settings.material != null || settings.shader == null)
      modifies this`buffer, settings`material
      ensures settings.material == old(settings.material)
      ensures levels == BloomLevels(settings.bloom, width0, height0)
      ensures fromId == DownFrom(ids, levels) && toId == ids.pyramid + 2 * levels + 1
      ensures buffer == old(buffer) + DownLog(ids, levels, width0, height0, settings.material)
    {
      var bloom := settings.bloom;
      levels, fromId, toId := 0, ids.prefilter, ids.pyramid + 1;
      var width, height := width0, height0;
      if bloom.intensity > 0.0 {
        while levels < bloom.maxIterations
          invariant width == Halve(width0, levels) && height == Halve(height0, levels)
          invariant fromId == DownFrom(ids, levels) && toId == ids.pyramid + 2 * levels + 1
          invariant settings.material == old(settings.material)
          invariant buffer == old(buffer) + DownLog(ids, levels, width0, height0, settings.material)
          invariant Levels(bloom, width0, height0, 0) == Levels(bloom, width0, height0, levels)
        {
          if width < bloom.downscaleLimit || height < bloom.downscaleLimit {
            break;
          }
          var midId := toId - 1;
          buffer := buffer + [GetTemporaryRT(midId, width, height)];
          Draw(Texture(fromId), Texture(midId), BloomHorizontal);
          buffer := buffer + [GetTemporaryRT(toId, width, height)];
          Draw(Texture(midId), Texture(toId), BloomVertical);
          assert buffer == old(buffer) + DownLog(ids, levels, width0, height0, settings.material) +
                           DownStep(ids, levels, width0, height0, settings.material);
          width, height := Half(width), Half(height);
          fromId := toId;
          toId := toId + 2;
          levels := levels + 1;
        }
      }
    }

    /** The combining part of DoBloom for n > 0 levels, starting from the
        ids the downsampling loop ends with. */
    method Combine(n: nat, fromId0: int, toId0: int, sourceId: int)
      requires settings != null && (settings.material != null || settings.shader == null)
      requires n > 0 && fromId0 == ids.pyramid + 2 * n - 1 && toId0 == ids.pyramid + 2 * n + 1
      modifies this`buffer, settings`material
      ensures settings.material == old(settings.material)
      ensures buffer == old(buffer) + CombineLog(ids, n, settings.bloom, sourceId, settings.material)
    {
      var bloom := settings.bloom;
      ghost var m := settings.material;
      var fromId, toId := fromId0, toId0;
      buffer := buffer + [SetGlobalFloat(ids.intensity, bloom.intensity),
                          SetGlobalFloat(ids.bicubicUpsampling, if bloom.bicubicUpsampling then 1.0 else 0.0),
                          ReleaseTemporaryRT(fromId - 1)];
      toId := toId - 5;
      fromId := CombineUp(n, fromId, toId);
      CombineFinal(n, fromId, sourceId);
      CombineLogParts(ids, n, bloom, sourceId, m, old(buffer));
    }

    /** The combine loop: each level from the second deepest up is combined
        with the result below it, into its horizontal target. */
    method CombineUp(n: nat, fromId0: int, toId0: int) returns (fromId: int)
      requires settings != null && (settings.material != null || settings.shader == null)
      requires n > 0 && fromId0 == ids.pyramid + 2 * n - 1 && toId0 == ids.pyramid + 2 * n - 4
      modifies this`buffer, settings`material
      ensures settings.material == old(settings.material)
      ensures fromId == FinalFrom(ids, n)
      ensures buffer == old(buffer) + UpLog(ids, n - 1, ids.pyramid + 2 * n - 1, settings.material)
    {
      ghost var m := settings.material;
      fromId := fromId0;
      var toId := toId0;
      var i := n - 1;
      while i > 0
        invariant 0 <= i <= n - 1
        invariant toId == ids.pyramid + 2 * i - 2
        invariant fromId == if i == n - 1 then ids.pyramid + 2 * n - 1 else ids.pyramid + 2 * i
        invariant settings.material == m
        invariant buffer + UpLog(ids, i, fromId, m) == old(buffer) + UpLog(ids, n - 1, ids.pyramid + 2 * n - 1, m)
      {
        ghost var before := buffer;
        CombineStep(i, fromId, toId);
        UpLogStep(ids, i, fromId, m, before);
        fromId := toId;
        toId := toId - 2;
        i := i - 1;
      }
    }

    /** One pass of the combine loop: level i - 1's horizontal target gets
        the combination of `fromId` with level i - 1's vertical target. */
    method CombineStep(i: nat, fromId: int, toId: int)
      requires settings != null && (settings.material != null || settings.shader == null)
      requires i > 0 && toId == ids.pyramid + 2 * i - 2
      modifies this`buffer, settings`material
      ensures settings.material == old(settings.material)
      ensures buffer == old(buffer) + UpStep(ids, i, fromId, settings.material)
    {
      ghost var before := buffer;
      buffer := buffer + [SetGlobalTexture(ids.fxSource2, Texture(toId + 1))];
      Draw(Texture(fromId), Texture(toId), BloomCombine);
      buffer := buffer + [ReleaseTemporaryRT(fromId), ReleaseTemporaryRT(toId + 1)];
    }

    /** The last combine of DoBloom, into the camera target. */
    method CombineFinal(n: nat, fromId: int, sourceId: int)
      requires settings != null && (settings.material != null || settings.shader == null)
      requires n > 0 && fromId == FinalFrom(ids, n)
      modifies this`buffer, settings`material
      ensures settings.material == old(settings.material)
      ensures buffer == old(buffer) + CombineLast(ids, n, sourceId, settings.material)
    {
      buffer := buffer + [SetGlobalTexture(ids.fxSource2, Texture(sourceId))];
      Draw(Texture(fromId), CameraTarget, BloomCombine);
      buffer := buffer + [ReleaseTemporaryRT(fromId)];
    }

    /** Bloom: the frame is prefiltered into a half-size target, downsampled
        into the pyramid and combined back up into the camera target; with
        no pyramid level it is copied to the camera target instead. */
    method DoBloom(sourceId: int)
      requires settings != null
      modifies this`buffer, settings`material
      ensures Fetched(old(settings.material), settings.material, settings.shader)
      ensures old(settings.material) == null && settings.material != null ==>
                fresh(settings.material) && settings.material.shader == settings.shader &&
                settings.material.hideFlags == HideAndDontSave
      ensures buffer == old(buffer) + BloomLog(ids, settings.bloom, camera.pixelWidth, camera.pixelHeight, sourceId, settings.material)
    {
      var bloom := settings.bloom;
      buffer := buffer + [BeginSample("Bloom"), SetBloomThreshold(ids.threshold, bloom)];
      var width, height := Half(camera.pixelWidth), Half(camera.pixelHeight);
      buffer := buffer + [GetTemporaryRT(ids.prefilter, width, height)];
      ghost var head := buffer;
      assert head == old(buffer) + BloomHead(ids, bloom, width, height);
      Draw(Texture(sourceId), Texture(ids.prefilter), BloomPrefilter);
      ghost var m := settings.material;
      ghost var prefiltered := buffer;
      width, height := Half(width), Half(height);
      var levels, fromId, toId := Downsample(width, height);
      assert levels == BloomLevelCount(bloom, camera.pixelWidth, camera.pixelHeight);
      ghost var down := buffer;
      CombineOrCopy(levels, fromId, toId, sourceId);
      ghost var middle := buffer;
      buffer := buffer + [ReleaseTemporaryRT(ids.prefilter), EndSample("Bloom")];
      assert buffer == middle + BloomTail(ids);
      BloomLogParts(ids, bloom, camera.pixelWidth, camera.pixelHeight, sourceId, m, old(buffer));
    }

    /** The part of DoBloom after the pyramid: combining its levels back
        up, or copying the frame to the camera target when there are none. */
    method CombineOrCopy(levels: nat, fromId: int, toId: int, sourceId: int)
      requires settings != null && (settings.material != null || settings.shader == null)
      requires fromId == DownFrom(ids, levels) && toId == ids.pyramid + 2 * levels + 1
      modifies this`buffer, settings`material
      ensures settings.material == old(settings.material)
      ensures buffer == old(buffer) + BloomMiddle(ids, settings.bloom, levels, sourceId, settings.material)
    {
      if levels > 0 {
        Combine(levels, fromId, toId, sourceId);
      } else {
        Draw(Texture(sourceId), CameraTarget, Copy);
      }
    }

    /** Render: bloom into the buffer, which is then executed and cleared. */
    method Render(sourceId: int)
      requires settings != null
      modifies this`buffer, this`submitted, settings`material
      ensures Fetched(old(settings.material), settings.material, settings.shader)
      ensures old(settings.material) == null && settings.material != null ==>
                fresh(settings.material) && settings.material.shader == settings.shader &&
                settings.material.hideFlags == HideAndDontSave
      ensures submitted == old(submitted) + old(buffer) +
                           BloomLog(ids, settings.bloom, camera.pixelWidth, camera.pixelHeight, sourceId, settings.material)
      ensures buffer == []
    {
      DoBloom(sourceId);
      submitted := submitted + buffer;
      buffer := [];
    }
  }

  ghost predicate Extends(before: map<string, int>, after: map<string, int>) {
    forall n :: n in before ==> n in after && after[n] == before[n]
  }

  /** What the PostFXStack constructor leaves behind, from the registry's
      names before to its names after: the old names keep their ids, the
      six static names and the 32 pyramid names are registered, `fx` holds
      their ids, and when no pyramid name was registered before, the
      pyramid ids are consecutive from fx.pyramid and the prefilter id lies
      below them. */
  ghost predicate Registered(before: map<string, int>, after: map<string, int>, fx: FXIds) {
    && Extends(before, after)
    && FxSourceName in after && after[FxSourceName] == fx.fxSource
    && FxSource2Name in after && after[FxSource2Name] == fx.fxSource2
    && BloomBicubicUpsamplingName in after && after[BloomBicubicUpsamplingName] == fx.bicubicUpsampling
    && BloomPrefilterName in after && after[BloomPrefilterName] == fx.prefilter
    && BloomThresholdName in after && after[BloomThresholdName] == fx.threshold
    && BloomIntensityName in after && after[BloomIntensityName] == fx.intensity
    && (forall j :: 0 <= j < 2 * MaxBloomPyramidLevels ==> PyramidName(j) in after)
    && PyramidName(0) in after && after[PyramidName(0)] == fx.pyramid
    && ((forall j :: 0 <= j < 2 * MaxBloomPyramidLevels ==> PyramidName(j) !in before) ==>
          fx.prefilter < fx.pyramid &&
          forall j :: 0 <= j < 2 * MaxBloomPyramidLevels ==> after[PyramidName(j)] == fx.pyramid + j)
  }

  /** Registering the static names, then the pyramid names, gives Registered. */
  lemma RegisteredAll(ids0: map<string, int>, ids1: map<string, int>, ids2: map<string, int>, next1: int, fx: FXIds)
    requires Extends(ids0, ids1) && Extends(ids1, ids2)
    requires forall n :: n in ids1 ==> ids1[n] < next1
    requires FxSourceName in ids1 && ids1[FxSourceName] == fx.fxSource
    requires FxSource2Name in ids1 && ids1[FxSource2Name] == fx.fxSource2
    requires BloomBicubicUpsamplingName in ids1 && ids1[BloomBicubicUpsamplingName] == fx.bicubicUpsampling
    requires BloomPrefilterName in ids1 && ids1[BloomPrefilterName] == fx.prefilter
    requires BloomThresholdName in ids1 && ids1[BloomThresholdName] == fx.threshold
    requires BloomIntensityName in ids1 && ids1[BloomIntensityName] == fx.intensity
    requires forall j :: 0 <= j < 2 * MaxBloomPyramidLevels && PyramidName(j) !in ids0 ==> PyramidName(j) !in ids1
    requires forall j :: 0 <= j < 2 * MaxBloomPyramidLevels ==> PyramidName(j) in ids2
    requires ids2[PyramidName(0)] == fx.pyramid
    requires (forall j :: 0 <= j < 2 * MaxBloomPyramidLevels ==> PyramidName(j) !in ids1) ==>
               fx.pyramid == next1 &&
               forall j :: 0 <= j < 2 * MaxBloomPyramidLevels ==> ids2[PyramidName(j)] == fx.pyramid + j
    ensures Registered(ids0, ids2, fx)
  {
    ExtendsTransitive(ids0, ids1, ids2);
  }

  lemma ExtendsTransitive(a: map<string, int>, b: map<string, int>, c: map<string, int>)
    requires Extends(a, b) && Extends(b, c)
    ensures Extends(a, c)
  {
  }

  /** Registering the static names adds no pyramid name. */
  lemma StaticsLeavePyramidFresh(before: map<string, int>, after: map<string, int>)
    requires forall n :: n in after ==>
               n in before || n in {FxSourceName, FxSource2Name, BloomBicubicUpsamplingName, BloomPrefilterName, BloomThresholdName, BloomIntensityName}
    ensures forall k :: 0 <= k < 2 * MaxBloomPyramidLevels && PyramidName(k) !in before ==> PyramidName(k) !in after
  {
    forall k | 0 <= k < 2 * MaxBloomPyramidLevels && PyramidName(k) !in before
      ensures PyramidName(k) !in after
    {
      PyramidNamesAreOwn(k);
    }
  }

  /** A name registered: it has an id, and no other name is added. */
  method Register(registry: PropertyIds, name: string) returns (id: int)
    requires registry.Valid()
    modifies registry
    ensures registry.Valid() && Extends(old(registry.ids), registry.ids)
    ensures name in registry.ids && registry.ids[name] == id
    ensures forall n :: n in registry.ids ==> n in old(registry.ids) || n == name
  {
    id := registry.PropertyToID(name);
  }

  /** Pyramid level i's name registered: as Register, and a name not seen
      before takes the next id. */
  method RegisterLevel(registry: PropertyIds, i: nat) returns (id: int)
    requires registry.Valid()
    modifies registry
    ensures registry.Valid() && Extends(old(registry.ids), registry.ids)
    ensures PyramidName(i) in registry.ids && registry.ids[PyramidName(i)] == id
    ensures forall n :: n in registry.ids ==> n in old(registry.ids) || n == PyramidName(i)
    ensures PyramidName(i) !in old(registry.ids) ==> id == old(registry.next) && registry.next == old(registry.next) + 1
  {
    id := registry.PropertyToID(PyramidName(i));
  }

  /** The registrations of the PostFXStack constructor: the six static
      names, then the 32 pyramid names. */
  method RegisterNames(registry: PropertyIds) returns (fx: FXIds)
    requires registry.Valid()
    modifies registry
    ensures registry.Valid()
    ensures Registered(old(registry.ids), registry.ids, fx)
  {
    ghost var ids0 := registry.ids;
    var fxSource, fxSource2, bicubic, prefilter, threshold, intensity := RegisterStaticNames(registry);
    ghost var ids1, next1 := registry.ids, registry.next;
    var pyramid := RegisterPyramidNames(registry);
    fx := FXIds(fxSource, fxSource2, bicubic, prefilter, threshold, intensity, pyramid);
    RegisteredAll(ids0, ids1, registry.ids, next1, fx);
  }

  /** The static initialiser of PostFXStack: its six property names. */
  method RegisterStaticNames(registry: PropertyIds)
    returns (fxSource: int, fxSource2: int, bicubic: int, prefilter: int, threshold: int, intensity: int)
    requires registry.Valid()
    modifies registry
    ensures registry.Valid() && Extends(old(registry.ids), registry.ids)
    ensures FxSourceName in registry.ids && registry.ids[FxSourceName] == fxSource
    ensures FxSource2Name in registry.ids && registry.ids[FxSource2Name] == fxSource2
    ensures BloomBicubicUpsamplingName in registry.ids && registry.ids[BloomBicubicUpsamplingName] == bicubic
    ensures BloomPrefilterName in registry.ids && registry.ids[BloomPrefilterName] == prefilter
    ensures BloomThresholdName in registry.ids && registry.ids[BloomThresholdName] == threshold
    ensures BloomIntensityName in registry.ids && registry.ids[BloomIntensityName] == intensity
    ensures forall j :: 0 <= j < 2 * MaxBloomPyramidLevels && PyramidName(j) !in old(registry.ids) ==>
              PyramidName(j) !in registry.ids
  {
    ghost var ids0 := registry.ids;
    fxSource := Register(registry, FxSourceName);
    fxSource2 := Register(registry, FxSource2Name);
    bicubic := Register(registry, BloomBicubicUpsamplingName);
    prefilter := Register(registry, BloomPrefilterName);
    threshold := Register(registry, BloomThresholdName);
    intensity := Register(registry, BloomIntensityName);
    StaticsLeavePyramidFresh(ids0, registry.ids);
  }

  /** The loop of the PostFXStack constructor: _BloomPyramid0 .. 31 are
      registered in order; bloomPyramidId is the id of the first. */
  method RegisterPyramidNames(registry: PropertyIds) returns (pyramid: int)
    requires registry.Valid()
    modifies registry
    ensures registry.Valid() && Extends(old(registry.ids), registry.ids)
    ensures forall j :: 0 <= j < 2 * MaxBloomPyramidLevels ==> PyramidName(j) in registry.ids
    ensures registry.ids[PyramidName(0)] == pyramid
    ensures (forall j :: 0 <= j < 2 * MaxBloomPyramidLevels ==> PyramidName(j) !in old(registry.ids)) ==>
              pyramid == old(registry.next) &&
              forall j :: 0 <= j < 2 * MaxBloomPyramidLevels ==> registry.ids[PyramidName(j)] == pyramid + j
  {
    ghost var allFresh := forall j :: 0 <= j < 2 * MaxBloomPyramidLevels ==> PyramidName(j) !in registry.ids;
    ghost var before, next := registry.ids, registry.next;
    pyramid := RegisterLevel(registry, 0);
    PyramidFirst(before, registry.ids, next, registry.next, pyramid, allFresh);
    var i := 1;
    while i < 2 * MaxBloomPyramidLevels
      invariant 1 <= i <= 2 * MaxBloomPyramidLevels && registry.Valid()
      invariant PyramidUpTo(old(registry.ids), registry.ids, old(registry.next), registry.next, i, pyramid, allFresh)
    {
      before, next := registry.ids, registry.next;
      var id := RegisterLevel(registry, i);
      PyramidNext(old(registry.ids), before, registry.ids, old(registry.next), next, registry.next, i, pyramid, allFresh, id);
      i := i + 1;
    }
  }

  /** Pyramid names 0 .. i-1 are registered after `ids0`: the old names keep
      their ids, level 0 has id `pyramid`, and when no pyramid name was
      registered before (allFresh) the levels so far have consecutive ids
      from next0 and the later ones are still unregistered. */
  ghost predicate PyramidUpTo(ids0: map<string, int>, ids: map<string, int>, next0: int, next: int, i: nat, pyramid: int,
                              allFresh: bool)
  {
    && Extends(ids0, ids)
    && (forall j :: 0 <= j < i ==> PyramidName(j) in ids)
    && PyramidName(0) in ids && ids[PyramidName(0)] == pyramid
    && (allFresh ==>
          && pyramid == next0 && next == pyramid + i
          && (forall j :: 0 <= j < i ==> ids[PyramidName(j)] == pyramid + j)
          && (forall k :: i <= k < 2 * MaxBloomPyramidLevels ==> PyramidName(k) !in ids))
  }

  lemma PyramidFirst(before: map<string, int>, after: map<string, int>, nextBefore: int, nextAfter: int, id: int,
                     allFresh: bool)
    requires allFresh ==> forall k :: 0 <= k < 2 * MaxBloomPyramidLevels ==> PyramidName(k) !in before
    requires Extends(before, after) && PyramidName(0) in after && after[PyramidName(0)] == id
    requires forall n :: n in after ==> n in before || n == PyramidName(0)
    requires PyramidName(0) !in before ==> id == nextBefore && nextAfter == nextBefore + 1
    ensures PyramidUpTo(before, after, nextBefore, nextAfter, 1, id, allFresh)
  {
    StillFresh(0, before, after, allFresh);
  }

  lemma PyramidNext(ids0: map<string, int>, before: map<string, int>, after: map<string, int>, next0: int,
                    nextBefore: int, nextAfter: int, i: nat, pyramid: int, allFresh: bool, id: int)
    requires 1 <= i < 2 * MaxBloomPyramidLevels
    requires PyramidUpTo(ids0, before, next0, nextBefore, i, pyramid, allFresh)
    requires Extends(before, after) && PyramidName(i) in after && after[PyramidName(i)] == id
    requires forall n :: n in after ==> n in before || n == PyramidName(i)
    requires PyramidName(i) !in before ==> id == nextBefore && nextAfter == nextBefore + 1
    ensures PyramidUpTo(ids0, after, next0, nextAfter, i + 1, pyramid, allFresh)
  {
    ExtendsTransitive(ids0, before, after);
    StillFresh(i, before, after, allFresh);
  }

  /** One more pyramid name registered: the later names are as fresh as
      they were. */
  lemma StillFresh(i: nat, before: map<string, int>, after: map<string, int>, allFresh: bool)
    requires i < 2 * MaxBloomPyramidLevels
    requires allFresh ==> forall k :: i <= k < 2 * MaxBloomPyramidLevels ==> PyramidName(k) !in before
    requires forall n :: n in after ==> n in before || n == PyramidName(i)
    ensures allFresh ==> forall k :: i < k < 2 * MaxBloomPyramidLevels ==> PyramidName(k) !in after
  {
    forall k | i < k < 2 * MaxBloomPyramidLevels
      ensures allFresh ==> PyramidName(k) !in after
    {
      if PyramidName(k) == PyramidName(i) {
        PyramidNameInjective(k, i);
      }
    }
  }
}
