/** The lighting pass of one camera (class Lighting): it walks the visible
    lights, packs the first four directional ones into the colour, direction
    and shadow-data arrays the shaders read, asks the shadow renderer for
    their shadows, lets it render, and publishes the arrays. The command
    buffer is the list of commands recorded since the last submission; the
    render context is the list of commands submitted to it. */
module LightingPass {
  import opened Geometry
  import opened Scene
  import opened ShadowConfig
  import opened ShadowAtlas
  import opened ShadowPasses
  import opened ShadowRendering

  const MaxDirLightCount: int := 4

  // ------------------------------------------------------- directional lights

  /** The visible-list positions of the directional lights, in list order. */
  function DirectionalPositions(v: seq<VisibleLight>): (p: seq<int>)
    ensures |p| <= |v|
  {
    if v == [] then []
    else DirectionalPositions(v[..|v| - 1]) + (if v[|v| - 1].lightType == LightType.Directional then [|v| - 1] else [])
  }

  /** Every position found holds a directional light. */
  lemma {:induction false} DirectionalPositionsValid(v: seq<VisibleLight>)
    ensures forall k :: 0 <= k < |DirectionalPositions(v)| ==>
              0 <= DirectionalPositions(v)[k] < |v| && v[DirectionalPositions(v)[k]].lightType == LightType.Directional
    decreases |v|
  {
    if v != [] {
      var w := v[..|v| - 1];
      DirectionalPositionsValid(w);
      var p := DirectionalPositions(w);
      assert forall k :: 0 <= k < |p| ==> v[p[k]] == w[p[k]];
    }
  }

  /** The positions are increasing and name every directional light of the
      list: skipping a non-directional light takes no position. */
  lemma {:induction false} DirectionalPositionsExact(v: seq<VisibleLight>)
    ensures var p := DirectionalPositions(v);
            (forall k, l :: 0 <= k < l < |p| ==> p[k] < p[l]) &&
            (forall j :: 0 <= j < |v| && v[j].lightType == LightType.Directional ==> j in p)
    decreases |v|
  {
    if v != [] {
      var n := |v| - 1;
      var w := v[..n];
      var q, p := DirectionalPositions(w), DirectionalPositions(v);
      DirectionalPositionsExact(w);
      DirectionalPositionsValid(w);
      assert p == q + (if v[n].lightType == LightType.Directional then [n] else []);
      forall k, l | 0 <= k < l < |p|
        ensures p[k] < p[l]
      {
        assert p[k] == q[k] && q[k] < n;
        if l < |q| {
          assert p[l] == q[l];
        }
      }
      forall j | 0 <= j < |v| && v[j].lightType == LightType.Directional
        ensures j in p
      {
        if j < n {
          assert w[j] == v[j];
          assert j in q;
        } else {
          assert p[|p| - 1] == n;
        }
      }
    }
  }

  /** The positions found in a prefix of the list begin the positions of the whole list. */
  lemma {:induction false} DirectionalPositionsPrefix(v: seq<VisibleLight>, i: int)
    requires 0 <= i <= |v|
    ensures var q := DirectionalPositions(v[..i]);
            |q| <= |DirectionalPositions(v)| && DirectionalPositions(v)[..|q|] == q
    decreases |v| - i
  {
    if i < |v| {
      DirectionalPositionsPrefix(v, i + 1);
      assert v[..i + 1][..i] == v[..i];
    } else {
      assert v[..i] == v;
    }
  }

  /** Looking at one more light of the list adds its position when it is directional. */
  lemma DirectionalPositionsNext(v: seq<VisibleLight>, i: int)
    requires 0 <= i < |v|
    ensures DirectionalPositions(v[..i + 1]) ==
            DirectionalPositions(v[..i]) + (if v[i].lightType == LightType.Directional then [i] else [])
  {
    assert v[..i + 1][..i] == v[..i];
  }

  /** The positions of the directional lights the pass sets up: the first four. */
  function SelectedPositions(v: seq<VisibleLight>): (p: seq<int>)
    ensures |p| <= MaxDirLightCount
    ensures forall k :: 0 <= k < |p| ==> 0 <= p[k] < |v| && v[p[k]].lightType == LightType.Directional
  {
    var all := DirectionalPositions(v);
    DirectionalPositionsValid(v);
    if |all| <= MaxDirLightCount then all
    else
      assert forall k :: 0 <= k < MaxDirLightCount ==> all[..MaxDirLightCount][k] == all[k];
      all[..MaxDirLightCount]
  }

  /** The loop over the visible list has set up the selected lights when it
      has seen the whole list, or when it has found four. */
  lemma SelectedWhenDone(v: seq<VisibleLight>, i: int)
    requires 0 <= i <= |v|
    requires i == |v| || |DirectionalPositions(v[..i])| == MaxDirLightCount
    requires |DirectionalPositions(v[..i])| <= MaxDirLightCount
    ensures SelectedPositions(v) == DirectionalPositions(v[..i])
  {
    DirectionalPositionsPrefix(v, i);
    if i == |v| {
      assert v[..i] == v;
    }
  }

  /** The visible lights at the given positions. */
  function LightsAt(v: seq<VisibleLight>, p: seq<int>): (lights: seq<VisibleLight>)
    requires forall k :: 0 <= k < |p| ==> 0 <= p[k] < |v|
    ensures |lights| == |p|
  {
    if p == [] then [] else LightsAt(v, p[..|p| - 1]) + [v[p[|p| - 1]]]
  }

  lemma {:induction false} LightsAtIndex(v: seq<VisibleLight>, p: seq<int>, k: int)
    requires forall j :: 0 <= j < |p| ==> 0 <= p[j] < |v|
    requires 0 <= k < |p|
    ensures LightsAt(v, p)[k] == v[p[k]]
    decreases |p|
  {
    if k < |p| - 1 {
      LightsAtIndex(v, p[..|p| - 1], k);
    }
  }

  /** The colours published for the set-up lights, in order. */
  function Colors(lights: seq<VisibleLight>): (c: seq<Vec4>)
    ensures |c| == |lights|
  {
    if lights == [] then [] else Colors(lights[..|lights| - 1]) + [lights[|lights| - 1].finalColor]
  }

  /** The direction a directional light shines along: the negated third
      column (the local z axis) of its local-to-world matrix. */
  function LightDirection(l: VisibleLight): Vec4 {
    Negate(Column(l.localToWorldMatrix, 2))
  }

  function Directions(lights: seq<VisibleLight>): (d: seq<Vec4>)
    ensures |d| == |lights|
  {
    if lights == [] then [] else Directions(lights[..|lights| - 1]) + [LightDirection(lights[|lights| - 1])]
  }

  lemma {:induction false} ColorsAndDirectionsIndex(lights: seq<VisibleLight>, k: int)
    requires 0 <= k < |lights|
    ensures Colors(lights)[k] == lights[k].finalColor && Directions(lights)[k] == LightDirection(lights[k])
    decreases |lights|
  {
    if k < |lights| - 1 {
      ColorsAndDirectionsIndex(lights[..|lights| - 1], k);
    }
  }

  // ------------------------------------------------------ shadow reservation

  /** One call of ReserveDirectionalShadows: the light and the index passed as
      its visible-light index. */
  datatype Request = Request(light: Light, visibleLightIndex: int)

  function Requests(lights: seq<VisibleLight>, indices: seq<int>): (reqs: seq<Request>)
    requires |lights| == |indices|
    ensures |reqs| == |lights|
  {
    if lights == [] then []
    else Requests(lights[..|lights| - 1], indices[..|indices| - 1]) + [Request(lights[|lights| - 1].light, indices[|indices| - 1])]
  }

  lemma {:induction false} RequestsIndex(lights: seq<VisibleLight>, indices: seq<int>, k: int)
    requires |lights| == |indices| && 0 <= k < |lights|
    ensures Requests(lights, indices)[k] == Request(lights[k].light, indices[k])
    decreases |lights|
  {
    if k < |lights| - 1 {
      RequestsIndex(lights[..|lights| - 1], indices[..|indices| - 1], k);
    }
  }

  /** 0, 1, ..., n - 1. */
  function Counter(n: nat): (c: seq<int>)
    ensures |c| == n
  {
    if n == 0 then [] else Counter(n - 1) + [n - 1]
  }

  lemma {:induction false} CounterIndex(n: nat, k: int)
    requires 0 <= k < n
    ensures Counter(n)[k] == k
    decreases n
  {
    if k < n - 1 {
      CounterIndex(n - 1, k);
    }
  }

  /** The shadow renderer's directional bookkeeping: how many lights hold
      tiles, whether one of them uses the shadow mask, and the slot table. */
  datatype DirectionalSlots = DirectionalSlots(count: int, useShadowMask: bool, lights: seq<ShadowedDirectionalLight>)

  ghost predicate SlotsInRange(s: DirectionalSlots) {
    0 <= s.count <= MaxShadowedDirectionalLightCount && |s.lights| == MaxShadowedDirectionalLightCount
  }

  /** The shadow data ReserveDirectionalShadows returns for a request and the
      bookkeeping it leaves, as its contract states. */
  function ReserveDirectional(s: DirectionalSlots, q: Request, cascadeCount: int, casterBounds: set<int>): (r: (Vec4, DirectionalSlots))
    requires SlotsInRange(s)
    ensures SlotsInRange(r.1)
  {
    var light := q.light;
    var mask := MaskChannel(light.bakingOutput) as real;
    if !(s.count < MaxShadowedDirectionalLightCount && CastsShadows(light)) then (Zero4, s)
    else
      var s1 := s.(useShadowMask := s.useShadowMask || ShadowMaskBaked(light.bakingOutput));
      if q.visibleLightIndex !in casterBounds then (Vec4(-light.shadowStrength, 0.0, 0.0, mask), s1)
      else
        (Vec4(light.shadowStrength, (s.count * cascadeCount) as real, light.shadowNormalBias, mask),
         s1.(count := s.count + 1,
             lights := s.lights[s.count := ShadowedDirectionalLight(q.visibleLightIndex, light.shadowBias, light.shadowNearPlane)]))
  }

  /** The shadow data of a list of requests made in order, and the bookkeeping after the last. */
  function ReserveAll(s: DirectionalSlots, reqs: seq<Request>, cascadeCount: int, casterBounds: set<int>): (r: (seq<Vec4>, DirectionalSlots))
    requires SlotsInRange(s)
    ensures SlotsInRange(r.1) && |r.0| == |reqs|
  {
    if reqs == [] then ([], s)
    else
      var before := ReserveAll(s, reqs[..|reqs| - 1], cascadeCount, casterBounds);
      var last := ReserveDirectional(before.1, reqs[|reqs| - 1], cascadeCount, casterBounds);
      (before.0 + [last.0], last.1)
  }

  /** Reservations only add slots: the count never falls, earlier slots keep
      their lights, and every new slot records the visible-light index of
      one of the requests. */
  lemma {:induction false} ReserveAllSlots(s: DirectionalSlots, reqs: seq<Request>, cascadeCount: int, casterBounds: set<int>)
    requires SlotsInRange(s)
    ensures var t := ReserveAll(s, reqs, cascadeCount, casterBounds).1;
            s.count <= t.count && t.lights[..s.count] == s.lights[..s.count] &&
            forall j :: s.count <= j < t.count ==>
              exists k :: 0 <= k < |reqs| && t.lights[j].visibleLightIndex == reqs[k].visibleLightIndex
    decreases |reqs|
  {
    if reqs != [] {
      var init := reqs[..|reqs| - 1];
      ReserveAllSlots(s, init, cascadeCount, casterBounds);
      var mid := ReserveAll(s, init, cascadeCount, casterBounds).1;
      var t := ReserveAll(s, reqs, cascadeCount, casterBounds).1;
      forall j | s.count <= j < t.count
        ensures exists k :: 0 <= k < |reqs| && t.lights[j].visibleLightIndex == reqs[k].visibleLightIndex
      {
        if j < mid.count {
          var k :| 0 <= k < |init| && mid.lights[j].visibleLightIndex == init[k].visibleLightIndex;
          assert t.lights[j] == mid.lights[j];
          assert reqs[k] == init[k];
        } else {
          assert t.lights[j].visibleLightIndex == reqs[|reqs| - 1].visibleLightIndex;
        }
      }
    }
  }

  /** The shadow data of a request for a light that holds tiles points at
      its first tile: the number of lights reserved before it times the
      cascade count. */
  lemma ReserveDirectionalTile(s: DirectionalSlots, q: Request, cascadeCount: int, casterBounds: set<int>)
    requires SlotsInRange(s)
    ensures var r := ReserveDirectional(s, q, cascadeCount, casterBounds);
            r.1.count == s.count + 1 <==>
              s.count < MaxShadowedDirectionalLightCount && CastsShadows(q.light) && q.visibleLightIndex in casterBounds
    ensures var r := ReserveDirectional(s, q, cascadeCount, casterBounds);
            r.1.count == s.count + 1 ==>
              r.0.y == (s.count * cascadeCount) as real && r.1.lights[s.count].visibleLightIndex == q.visibleLightIndex
  {
  }

  /** Every slot the pass reserves names a directional light of the visible
      list, when each request carries the light's own position. */
  lemma ReservedLightsAreDirectional(v: seq<VisibleLight>, s: DirectionalSlots, cascadeCount: int, casterBounds: set<int>)
    requires SlotsInRange(s)
    ensures var p := SelectedPositions(v);
            var t := ReserveAll(s, Requests(LightsAt(v, p), p), cascadeCount, casterBounds).1;
            forall j :: s.count <= j < t.count ==>
              0 <= t.lights[j].visibleLightIndex < |v| && v[t.lights[j].visibleLightIndex].lightType == LightType.Directional
  {
    var p := SelectedPositions(v);
    var reqs := Requests(LightsAt(v, p), p);
    ReserveAllSlots(s, reqs, cascadeCount, casterBounds);
    var t := ReserveAll(s, reqs, cascadeCount, casterBounds).1;
    forall j | s.count <= j < t.count
      ensures 0 <= t.lights[j].visibleLightIndex < |v| && v[t.lights[j].visibleLightIndex].lightType == LightType.Directional
    {
      var k :| 0 <= k < |reqs| && t.lights[j].visibleLightIndex == reqs[k].visibleLightIndex;
      RequestsIndex(LightsAt(v, p), p, k);
    }
  }

  /** A single shadow-casting request made when no slot is taken and its
      light has casters in view takes slot 0 under the request's index. */
  lemma ReserveFirstSlot(s: DirectionalSlots, q: Request, cascadeCount: int, casterBounds: set<int>)
    requires SlotsInRange(s) && s.count == 0 && CastsShadows(q.light) && q.visibleLightIndex in casterBounds
    ensures var t := ReserveAll(s, [q], cascadeCount, casterBounds).1;
            t.count == 1 && t.lights[0].visibleLightIndex == q.visibleLightIndex
  {
    assert [q][..0] == [];
  }

  /** In a spot light followed by a directional light, the selected
      position is 1. */
  lemma SpotThenDirectionalSelected(v: seq<VisibleLight>)
    requires |v| == 2 && v[0].lightType == LightType.Spot && v[1].lightType == LightType.Directional
    ensures SelectedPositions(v) == [1] && LightsAt(v, [1]) == [v[1]]
  {
    assert v[..2] == v;
    assert v[..1][..0] == [];
    assert DirectionalPositions(v[..1]) == [];
    assert [1][..0] == [];
  }

  /** A shadow-casting spot light listed before a directional light: the
      directional counter, 0, is the spot light's position, so the pass as
      written reserves the directional light's tiles under the spot light's
      index; with the light's own position, 1, the slot names the
      directional light. */
  lemma CounterIndexNamesWrongLight(l: Light, color: Vec4, m: Matrix, cascadeCount: int)
    requires CastsShadows(l)
    ensures var v := [VisibleLight(LightType.Spot, color, m, l), VisibleLight(LightType.Directional, color, m, l)];
            var p := SelectedPositions(v);
            var s := DirectionalSlots(0, false, seq(MaxShadowedDirectionalLightCount, _ => ShadowedDirectionalLight(0, 0.0, 0.0)));
            var asWritten := ReserveAll(s, Requests(LightsAt(v, p), Counter(|p|)), cascadeCount, {0, 1}).1;
            var intended := ReserveAll(s, Requests(LightsAt(v, p), p), cascadeCount, {0, 1}).1;
            asWritten.count == 1 && v[asWritten.lights[0].visibleLightIndex].lightType == LightType.Spot &&
            intended.count == 1 && v[intended.lights[0].visibleLightIndex].lightType == LightType.Directional
  {
    var v := [VisibleLight(LightType.Spot, color, m, l), VisibleLight(LightType.Directional, color, m, l)];
    var s := DirectionalSlots(0, false, seq(MaxShadowedDirectionalLightCount, _ => ShadowedDirectionalLight(0, 0.0, 0.0)));
    SpotThenDirectionalSelected(v);
    assert Counter(1) == [0];
    assert [1][..0] == [] && [0][..0] == [];
    assert Requests([v[1]], [0]) == [Request(l, 0)];
    assert Requests([v[1]], [1]) == [Request(l, 1)];
    ReserveFirstSlot(s, Request(l, 0), cascadeCount, {0, 1});
    ReserveFirstSlot(s, Request(l, 1), cascadeCount, {0, 1});
  }

  /** The arrays and the bookkeeping after the lights of `lights` were set
      up, in order, with the given visible-light indices. */
  ghost predicate SetUpAs(lights: seq<VisibleLight>, indices: seq<int>, s0: DirectionalSlots, cascadeCount: int,
                          casterBounds: set<int>, c0: seq<Vec4>, d0: seq<Vec4>, h0: seq<Vec4>,
                          colors: seq<Vec4>, directions: seq<Vec4>, shadowData: seq<Vec4>, slots: DirectionalSlots)
    requires SlotsInRange(s0) && |lights| == |indices| <= |c0| && |lights| <= |d0| && |lights| <= |h0|
  {
    var reserved := ReserveAll(s0, Requests(lights, indices), cascadeCount, casterBounds);
    colors == Colors(lights) + c0[|lights|..] && directions == Directions(lights) + d0[|lights|..] &&
    shadowData == reserved.0 + h0[|lights|..] && slots == reserved.1
  }

  /** Setting up one more light writes entry |lights| of each array and
      makes one more reservation. */
  lemma SetUpNext(lights: seq<VisibleLight>, indices: seq<int>, s0: DirectionalSlots, cascadeCount: int,
                  casterBounds: set<int>, c0: seq<Vec4>, d0: seq<Vec4>, h0: seq<Vec4>,
                  colors: seq<Vec4>, directions: seq<Vec4>, shadowData: seq<Vec4>, slots: DirectionalSlots,
                  l: VisibleLight, index: int)
    requires SlotsInRange(s0) && |lights| == |indices| < |c0| && |lights| < |d0| && |lights| < |h0|
    requires SetUpAs(lights, indices, s0, cascadeCount, casterBounds, c0, d0, h0, colors, directions, shadowData, slots)
    ensures SlotsInRange(slots)
    ensures var r := ReserveDirectional(slots, Request(l.light, index), cascadeCount, casterBounds);
            SetUpAs(lights + [l], indices + [index], s0, cascadeCount, casterBounds, c0, d0, h0,
                    colors[|lights| := l.finalColor], directions[|lights| := LightDirection(l)],
                    shadowData[|lights| := r.0], r.1)
  {
    var n := |lights|;
    var reqs := Requests(lights, indices);
    var r := ReserveDirectional(slots, Request(l.light, index), cascadeCount, casterBounds);
    WriteNext(Colors(lights), c0[n..], l.finalColor);
    WriteNext(Directions(lights), d0[n..], LightDirection(l));
    WriteNext(ReserveAll(s0, reqs, cascadeCount, casterBounds).0, h0[n..], r.0);
    assert c0[n..][1..] == c0[n + 1..];
    assert d0[n..][1..] == d0[n + 1..];
    assert h0[n..][1..] == h0[n + 1..];
    assert (lights + [l])[..n] == lights;
    assert (indices + [index])[..n] == indices;
    var reqs' := Requests(lights + [l], indices + [index]);
    assert reqs' == reqs + [Request(l.light, index)];
    assert reqs'[..n] == reqs;
  }

  /** Taking one more position appends the light there. */
  lemma LightsAtNext(v: seq<VisibleLight>, p: seq<int>, i: int)
    requires forall k :: 0 <= k < |p| ==> 0 <= p[k] < |v|
    requires 0 <= i < |v|
    ensures LightsAt(v, p + [i]) == LightsAt(v, p) + [v[i]]
  {
    assert (p + [i])[..|p|] == p;
  }

  /** After looking at the first i lights of v, the directional ones among
      them, at positions p, are set up at indices 0..|p|-1, with the
      visible-light indices `indices`. */
  ghost predicate Visited(v: seq<VisibleLight>, i: int, p: seq<int>, indices: seq<int>, s0: DirectionalSlots,
                          cascadeCount: int, casterBounds: set<int>, c0: seq<Vec4>, d0: seq<Vec4>, h0: seq<Vec4>,
                          colors: seq<Vec4>, directions: seq<Vec4>, shadowData: seq<Vec4>, slots: DirectionalSlots)
  {
    0 <= i <= |v| && p == DirectionalPositions(v[..i]) && |indices| == |p| <= MaxDirLightCount &&
    SlotsInRange(s0) && |c0| == |d0| == |h0| == MaxDirLightCount &&
    (forall k :: 0 <= k < |p| ==> 0 <= p[k] < i) &&
    SetUpAs(LightsAt(v, p), indices, s0, cascadeCount, casterBounds, c0, d0, h0, colors, directions, shadowData, slots)
  }

  /** Looking at light i: a directional light is written at index |p| and
      reserved with `visibleLightIndex`; any other light changes nothing. */
  lemma VisitedNext(v: seq<VisibleLight>, i: int, p: seq<int>, indices: seq<int>, s0: DirectionalSlots,
                    cascadeCount: int, casterBounds: set<int>, c0: seq<Vec4>, d0: seq<Vec4>, h0: seq<Vec4>,
                    colors: seq<Vec4>, directions: seq<Vec4>, shadowData: seq<Vec4>, slots: DirectionalSlots,
                    visibleLightIndex: int)
    requires Visited(v, i, p, indices, s0, cascadeCount, casterBounds, c0, d0, h0, colors, directions, shadowData, slots)
    requires i < |v| && |p| < MaxDirLightCount
    ensures SlotsInRange(slots)
    ensures v[i].lightType == LightType.Directional ==>
              var r := ReserveDirectional(slots, Request(v[i].light, visibleLightIndex), cascadeCount, casterBounds);
              Visited(v, i + 1, p + [i], indices + [visibleLightIndex], s0, cascadeCount, casterBounds, c0, d0, h0,
                      colors[|p| := v[i].finalColor], directions[|p| := LightDirection(v[i])], shadowData[|p| := r.0], r.1)
    ensures v[i].lightType != LightType.Directional ==>
              Visited(v, i + 1, p, indices, s0, cascadeCount, casterBounds, c0, d0, h0, colors, directions, shadowData, slots)
  {
    DirectionalPositionsNext(v, i);
    SetUpNext(LightsAt(v, p), indices, s0, cascadeCount, casterBounds, c0, d0, h0, colors, directions, shadowData, slots,
              v[i], visibleLightIndex);
    if v[i].lightType == LightType.Directional {
      LightsAtNext(v, p, i);
    }
  }

  /** When the loop stops, at the end of the list or with four lights set
      up, the positions visited are the selected ones. */
  lemma VisitedDone(v: seq<VisibleLight>, i: int, p: seq<int>, indices: seq<int>, s0: DirectionalSlots,
                    cascadeCount: int, casterBounds: set<int>, c0: seq<Vec4>, d0: seq<Vec4>, h0: seq<Vec4>,
                    colors: seq<Vec4>, directions: seq<Vec4>, shadowData: seq<Vec4>, slots: DirectionalSlots)
    requires Visited(v, i, p, indices, s0, cascadeCount, casterBounds, c0, d0, h0, colors, directions, shadowData, slots)
    requires i == |v| || |p| == MaxDirLightCount
    ensures SelectedPositions(v) == p
    ensures SetUpAs(LightsAt(v, p), indices, s0, cascadeCount, casterBounds, c0, d0, h0, colors, directions, shadowData, slots)
  {
    SelectedWhenDone(v, i);
  }

  /** Before the loop has looked at any light, nothing is set up. */
  lemma VisitedStart(v: seq<VisibleLight>, s0: DirectionalSlots, cascadeCount: int, casterBounds: set<int>,
                     c0: seq<Vec4>, d0: seq<Vec4>, h0: seq<Vec4>)
    requires SlotsInRange(s0) && |c0| == |d0| == |h0| == MaxDirLightCount
    ensures Visited(v, 0, [], [], s0, cascadeCount, casterBounds, c0, d0, h0, c0, d0, h0, s0)
  {
    assert v[..0] == [];
    assert c0[0..] == c0 && d0[0..] == d0 && h0[0..] == h0;
  }

  // ------------------------------------------------------------------ class

  datatype LightingCmd =
    | BeginSample
    | EndSample
    | SetDirLightCount(count: int)
    | SetDirLightColors(colors: seq<Vec4>)
    | SetDirLightDirections(directions: seq<Vec4>)
    | SetDirLightShadowData(shadowData: seq<Vec4>)

  /** The commands SetupLights records after its loop: the light count and the three arrays. */
  function PublishLog(count: int, colors: seq<Vec4>, directions: seq<Vec4>, shadowData: seq<Vec4>): seq<LightingCmd> {
    [SetDirLightCount(count), SetDirLightColors(colors), SetDirLightDirections(directions), SetDirLightShadowData(shadowData)]
  }

  /** Rewriting entry |done| of done + rest appends the new value to done. */
  lemma WriteNext(done: seq<Vec4>, rest: seq<Vec4>, x: Vec4)
    requires rest != []
    ensures (done + rest)[|done| := x] == (done + [x]) + rest[1..]
  {
  }

  class Lighting {
    const shadows: Shadows
    const dirLightColors: array<Vec4>
    const dirLightDirections: array<Vec4>
    const dirLightShadowData: array<Vec4>

    var buffer: seq<LightingCmd>
    /** The commands submitted to the render context, in order. */
    var submitted: seq<LightingCmd>
    var cullingResults: CullingResults

    /** The three arrays have four entries and share no storage with each
        other or with the shadow renderer's vector arrays. */
    ghost predicate Valid()
      reads shadows`shadowDirectionalLightCount, shadows`shadowOtherLightCount, shadows`otherStarts,
            shadows.shadowedOtherLights
    {
      shadows.Valid() &&
      dirLightColors.Length == MaxDirLightCount && dirLightDirections.Length == MaxDirLightCount &&
      dirLightShadowData.Length == MaxDirLightCount &&
      dirLightColors != dirLightDirections && dirLightColors != dirLightShadowData && dirLightDirections != dirLightShadowData &&
      dirLightColors != shadows.cascadeCullingSpheres && dirLightColors != shadows.cascadeDatas &&
      dirLightColors != shadows.otherShadowTiles &&
      dirLightDirections != shadows.cascadeCullingSpheres && dirLightDirections != shadows.cascadeDatas &&
      dirLightDirections != shadows.otherShadowTiles &&
      dirLightShadowData != shadows.cascadeCullingSpheres && dirLightShadowData != shadows.cascadeDatas &&
      dirLightShadowData != shadows.otherShadowTiles
    }

    /** The shadow renderer's directional bookkeeping. */
    function Slots(): DirectionalSlots
      reads shadows`shadowDirectionalLightCount, shadows`useShadowMask, shadows.shadowedDirectionalLights
    {
      DirectionalSlots(shadows.shadowDirectionalLightCount, shadows.useShadowMask, shadows.shadowedDirectionalLights[..])
    }

    /** The frame's lights are set up over the arrays c0, d0, h0 and the
        slots s0 before: the selected directional lights of the visible list
        fill entries 0..n-1 in list order, each reserved under its position
        in the list, and every entry from n on keeps its old value. */
    ghost predicate LightsSetUp(c0: seq<Vec4>, d0: seq<Vec4>, h0: seq<Vec4>, s0: DirectionalSlots)
      reads this`cullingResults, shadows`settings, shadows`cullingResults, shadows`shadowDirectionalLightCount,
            shadows`useShadowMask, shadows.shadowedDirectionalLights, dirLightColors, dirLightDirections, dirLightShadowData
    {
      var v := cullingResults.visibleLights;
      var p := SelectedPositions(v);
      SlotsInRange(s0) && |p| <= |c0| && |p| <= |d0| && |p| <= |h0| &&
      SetUpAs(LightsAt(v, p), p, s0, shadows.settings.directional.cascadeCount, shadows.cullingResults.casterBounds,
              c0, d0, h0, dirLightColors[..], dirLightDirections[..], dirLightShadowData[..], Slots())
    }

    constructor(reversedZ: bool)
      ensures Valid() && fresh(shadows) && shadows.Initial() && shadows.reversedZ == reversedZ
      ensures buffer == [] && submitted == [] && cullingResults == NoCulling
      ensures dirLightColors[..] == seq(MaxDirLightCount, _ => Zero4)
      ensures dirLightDirections[..] == seq(MaxDirLightCount, _ => Zero4)
      ensures dirLightShadowData[..] == seq(MaxDirLightCount, _ => Zero4)
    {
      shadows := new Shadows(reversedZ);
      dirLightColors := new Vec4[MaxDirLightCount](_ => Zero4);
      dirLightDirections := new Vec4[MaxDirLightCount](_ => Zero4);
      dirLightShadowData := new Vec4[MaxDirLightCount](_ => Zero4);
      buffer := [];
      submitted := [];
      cullingResults := NoCulling;
    }

    /** Sets up a frame: the shadow renderer starts the frame, the visible
        directional lights are set up (reserving their shadows), the shadows
        are rendered from those reservations, and the recorded commands,
        wrapped in a profiling sample, are submitted and cleared. */
    method SetUp(cullingResults: CullingResults, shadowSettings: ShadowSettings, shadowmaskMode: ShadowmaskMode)
      requires Valid() && ValidShadowSettings(shadowSettings)
      modifies this`cullingResults, this`buffer, this`submitted,
               shadows`cullingResults, shadows`settings, shadows`shadowDirectionalLightCount, shadows`shadowOtherLightCount,
               shadows`useShadowMask, shadows`otherStarts, shadows`hasSettings, shadows`buffer, shadows`shadowAtlasSize,
               shadows.shadowedDirectionalLights, shadows.dirShadowMatrices, shadows.cascadeCullingSpheres,
               shadows.cascadeDatas, shadows.otherShadowMatrices, shadows.otherShadowTiles,
               dirLightColors, dirLightDirections, dirLightShadowData
      ensures Valid() && this.cullingResults == cullingResults
      ensures shadows.cullingResults == cullingResults && shadows.settings == shadowSettings
      ensures shadows.shadowOtherLightCount == 0 && shadows.hasSettings
      ensures LightsSetUp(old(dirLightColors[..]), old(dirLightDirections[..]), old(dirLightShadowData[..]),
                          DirectionalSlots(0, false, old(shadows.shadowedDirectionalLights[..])))
      ensures var p := SelectedPositions(cullingResults.visibleLights);
              submitted == old(submitted) + old(buffer) + [BeginSample] +
                           PublishLog(|p|, dirLightColors[..], dirLightDirections[..], dirLightShadowData[..]) + [EndSample]
      ensures buffer == []
      ensures shadows.Rendered(old(shadows.buffer), shadowmaskMode, old(shadows.dirShadowMatrices[..]),
                               old(shadows.cascadeCullingSpheres[..]), old(shadows.cascadeDatas[..]),
                               old(shadows.otherShadowMatrices[..]), old(shadows.otherShadowTiles[..]))
    {
      ghost var m0, s0, d0 := shadows.dirShadowMatrices[..], shadows.cascadeCullingSpheres[..], shadows.cascadeDatas[..];
      ghost var om0, ot0 := shadows.otherShadowMatrices[..], shadows.otherShadowTiles[..];
      ghost var c0, dir0, h0 := dirLightColors[..], dirLightDirections[..], dirLightShadowData[..];
      ghost var slots0 := DirectionalSlots(0, false, shadows.shadowedDirectionalLights[..]);
      ghost var submitted0, buffer0 := submitted, buffer;
      BeginFrame(cullingResults, shadowSettings);
      assert m0 == shadows.dirShadowMatrices[..] && s0 == shadows.cascadeCullingSpheres[..] && d0 == shadows.cascadeDatas[..];
      assert om0 == shadows.otherShadowMatrices[..] && ot0 == shadows.otherShadowTiles[..];
      ghost var published := PublishLog(|SelectedPositions(cullingResults.visibleLights)|,
                                        dirLightColors[..], dirLightDirections[..], dirLightShadowData[..]);
      ghost var mid := buffer;
      assert mid == buffer0 + [BeginSample] + published;
      EndFrame(shadowmaskMode);
      assert LightsSetUp(c0, dir0, h0, slots0);
      assert submitted == submitted0 + mid + [EndSample];
      assert submitted == submitted0 + buffer0 + [BeginSample] + published + [EndSample] by {
        AppendAssoc(submitted0, buffer0 + [BeginSample], published);
        AppendAssoc(submitted0, buffer0, [BeginSample]);
      }
    }

    /** The first half of SetUp: the frame's culling results are stored, the
        profiling sample begins, the shadow renderer starts the frame and the
        directional lights are set up and published. */
    method BeginFrame(cullingResults: CullingResults, shadowSettings: ShadowSettings)
      requires Valid()
      modifies this`cullingResults, this`buffer,
               shadows`cullingResults, shadows`settings, shadows`shadowDirectionalLightCount, shadows`shadowOtherLightCount,
               shadows`useShadowMask, shadows`otherStarts, shadows`hasSettings, shadows.shadowedDirectionalLights,
               dirLightColors, dirLightDirections, dirLightShadowData
      ensures Valid() && this.cullingResults == cullingResults
      ensures shadows.cullingResults == cullingResults && shadows.settings == shadowSettings
      ensures shadows.shadowOtherLightCount == 0 && shadows.hasSettings
      ensures LightsSetUp(old(dirLightColors[..]), old(dirLightDirections[..]), old(dirLightShadowData[..]),
                          DirectionalSlots(0, false, old(shadows.shadowedDirectionalLights[..])))
      ensures var p := SelectedPositions(cullingResults.visibleLights);
              buffer == old(buffer) + [BeginSample] +
                        PublishLog(|p|, dirLightColors[..], dirLightDirections[..], dirLightShadowData[..])
    {
      this.cullingResults := cullingResults;
      buffer := buffer + [BeginSample];
      shadows.SetUp(cullingResults, shadowSettings);
      SetupLights();
    }

    /** The second half of SetUp: the shadows are rendered, the profiling
        sample ends, and the buffer is submitted and cleared. */
    method EndFrame(shadowmaskMode: ShadowmaskMode)
      requires Valid() && shadows.hasSettings && ValidShadowSettings(shadows.settings)
      modifies this`buffer, this`submitted, shadows`buffer, shadows`shadowAtlasSize,
               shadows.dirShadowMatrices, shadows.cascadeCullingSpheres,
               shadows.cascadeDatas, shadows.otherShadowMatrices, shadows.otherShadowTiles
      ensures Valid()
      ensures submitted == old(submitted) + old(buffer) + [EndSample] && buffer == []
      ensures unchanged(dirLightColors, dirLightDirections, dirLightShadowData, shadows.shadowedDirectionalLights)
      ensures cullingResults == old(cullingResults) && shadows.settings == old(shadows.settings) &&
              shadows.cullingResults == old(shadows.cullingResults) &&
              shadows.shadowDirectionalLightCount == old(shadows.shadowDirectionalLightCount) &&
              shadows.useShadowMask == old(shadows.useShadowMask)
      ensures shadows.Rendered(old(shadows.buffer), shadowmaskMode, old(shadows.dirShadowMatrices[..]),
                               old(shadows.cascadeCullingSpheres[..]), old(shadows.cascadeDatas[..]),
                               old(shadows.otherShadowMatrices[..]), old(shadows.otherShadowTiles[..]))
    {
      shadows.Render(shadowmaskMode);
      buffer := buffer + [EndSample];
      submitted := submitted + buffer;
      buffer := [];
    }

    method CleanUp()
      modifies shadows`buffer
      ensures shadows.buffer == old(shadows.buffer) + CleanUpLog(shadows.shadowOtherLightCount)
    {
      shadows.CleanUp();
    }

    /** Writes the colour and direction of a directional light at `index` and
        stores the shadow data the shadow renderer returns for it, passing
        `visibleLightIndex` as the light's index in the visible list. */
    method SetUpDirectionalLight(index: int, visibleLightIndex: int, visibleLight: VisibleLight)
      requires Valid() && shadows.hasSettings && 0 <= index < MaxDirLightCount
      modifies dirLightColors, dirLightDirections, dirLightShadowData,
               shadows`shadowDirectionalLightCount, shadows`useShadowMask, shadows.shadowedDirectionalLights
      ensures Valid()
      ensures dirLightColors[..] == old(dirLightColors[..])[index := visibleLight.finalColor]
      ensures dirLightDirections[..] == old(dirLightDirections[..])[index := LightDirection(visibleLight)]
      ensures var r := ReserveDirectional(old(Slots()), Request(visibleLight.light, visibleLightIndex),
                                          shadows.settings.directional.cascadeCount, shadows.cullingResults.casterBounds);
              dirLightShadowData[..] == old(dirLightShadowData[..])[index := r.0] && Slots() == r.1
    {
      dirLightColors[index] := visibleLight.finalColor;
      dirLightDirections[index] := Negate(Column(visibleLight.localToWorldMatrix, 2));
      var data := shadows.ReserveDirectionalShadows(visibleLight.light, visibleLightIndex);
      dirLightShadowData[index] := data;
    }

    /** After looking at the first i visible lights, the directional ones
        among them, at positions p, are set up at indices 0..|p|-1 with the
        visible-light indices `indices`. */
    ghost predicate SetUpUpTo(i: int, p: seq<int>, indices: seq<int>, s0: DirectionalSlots,
                              c0: seq<Vec4>, d0: seq<Vec4>, h0: seq<Vec4>)
      reads this, dirLightColors, dirLightDirections, dirLightShadowData, shadows, shadows.shadowedDirectionalLights
    {
      Visited(cullingResults.visibleLights, i, p, indices, s0, shadows.settings.directional.cascadeCount,
              shadows.cullingResults.casterBounds, c0, d0, h0,
              dirLightColors[..], dirLightDirections[..], dirLightShadowData[..], Slots())
    }

    /** One turn of the light loop: a directional light at position i is set
        up at index dirLightCount, which then grows by one, with
        `visibleLightIndex` passed as its visible-light index; any other
        light is skipped. */
    method VisitLight(i: int, dirLightCount: int, visibleLightIndex: int, ghost p: seq<int>, ghost indices: seq<int>,
                      ghost s0: DirectionalSlots, ghost c0: seq<Vec4>, ghost d0: seq<Vec4>, ghost h0: seq<Vec4>)
      returns (count: int, ghost q: seq<int>, ghost next: seq<int>)
      requires Valid() && shadows.hasSettings && i < |cullingResults.visibleLights| && dirLightCount == |p| < MaxDirLightCount
      requires SetUpUpTo(i, p, indices, s0, c0, d0, h0)
      modifies dirLightColors, dirLightDirections, dirLightShadowData,
               shadows`shadowDirectionalLightCount, shadows`useShadowMask, shadows.shadowedDirectionalLights
      ensures Valid() && count == |q| && SetUpUpTo(i + 1, q, next, s0, c0, d0, h0)
      ensures cullingResults.visibleLights[i].lightType == LightType.Directional ==>
                q == p + [i] && next == indices + [visibleLightIndex]
      ensures cullingResults.visibleLights[i].lightType != LightType.Directional ==> q == p && next == indices
    {
      var visibleLights := cullingResults.visibleLights;
      var visibleLight := visibleLights[i];
      VisitedNext(visibleLights, i, p, indices, s0, shadows.settings.directional.cascadeCount,
                  shadows.cullingResults.casterBounds, c0, d0, h0,
                  dirLightColors[..], dirLightDirections[..], dirLightShadowData[..], Slots(), visibleLightIndex);
      count, q, next := dirLightCount, p, indices;
      if visibleLight.lightType == LightType.Directional {
        SetUpDirectionalLight(dirLightCount, visibleLightIndex, visibleLight);
        q, next := p + [i], indices + [visibleLightIndex];
        count := dirLightCount + 1;
      }
    }

    /** The light loop: sets up the first four directional lights of the
        visible list at indices 0..n-1, passing each light's position in the
        list as its visible-light index, and returns n. */
    method SetUpVisibleLights() returns (dirLightCount: int)
      requires Valid() && shadows.hasSettings
      modifies dirLightColors, dirLightDirections, dirLightShadowData,
               shadows`shadowDirectionalLightCount, shadows`useShadowMask, shadows.shadowedDirectionalLights
      ensures Valid()
      ensures var v := cullingResults.visibleLights;
              var p := SelectedPositions(v);
              dirLightCount == |p| &&
              SetUpAs(LightsAt(v, p), p, old(Slots()), shadows.settings.directional.cascadeCount,
                      shadows.cullingResults.casterBounds,
                      old(dirLightColors[..]), old(dirLightDirections[..]), old(dirLightShadowData[..]),
                      dirLightColors[..], dirLightDirections[..], dirLightShadowData[..], Slots())
    {
      dirLightCount := 0;
      var visibleLights := cullingResults.visibleLights;
      ghost var s0, c0, d0, h0 := Slots(), dirLightColors[..], dirLightDirections[..], dirLightShadowData[..];
      VisitedStart(visibleLights, s0, shadows.settings.directional.cascadeCount, shadows.cullingResults.casterBounds,
                   c0, d0, h0);
      ghost var p: seq<int> := [];
      ghost var indices: seq<int> := [];
      ghost var seen := 0;
      var i := 0;
      while i < |visibleLights|
        invariant Valid() && i == seen && dirLightCount == |p| < MaxDirLightCount && indices == p
        invariant SetUpUpTo(seen, p, indices, s0, c0, d0, h0)
      {
        dirLightCount, p, indices := VisitLight(i, dirLightCount, i, p, indices, s0, c0, d0, h0);
        seen := i + 1;
        if dirLightCount >= MaxDirLightCount {
          break;
        }
        i := i + 1;
      }
      assert seen == |visibleLights| || |p| == MaxDirLightCount;
      assert SetUpUpTo(seen, p, indices, s0, c0, d0, h0);
      VisitedDone(visibleLights, seen, p, indices, s0, shadows.settings.directional.cascadeCount,
                  shadows.cullingResults.casterBounds, c0, d0, h0,
                  dirLightColors[..], dirLightDirections[..], dirLightShadowData[..], Slots());
    }

    /** The light loop as written: the directional counter, not the light's
        position in the visible list, is passed as the visible-light index. */
    method SetUpVisibleLightsAsWritten() returns (dirLightCount: int)
      requires Valid() && shadows.hasSettings
      modifies dirLightColors, dirLightDirections, dirLightShadowData,
               shadows`shadowDirectionalLightCount, shadows`useShadowMask, shadows.shadowedDirectionalLights
      ensures Valid()
      ensures var v := cullingResults.visibleLights;
              var p := SelectedPositions(v);
              dirLightCount == |p| &&
              SetUpAs(LightsAt(v, p), Counter(|p|), old(Slots()), shadows.settings.directional.cascadeCount,
                      shadows.cullingResults.casterBounds,
                      old(dirLightColors[..]), old(dirLightDirections[..]), old(dirLightShadowData[..]),
                      dirLightColors[..], dirLightDirections[..], dirLightShadowData[..], Slots())
    {
      dirLightCount := 0;
      var visibleLights := cullingResults.visibleLights;
      ghost var s0, c0, d0, h0 := Slots(), dirLightColors[..], dirLightDirections[..], dirLightShadowData[..];
      VisitedStart(visibleLights, s0, shadows.settings.directional.cascadeCount, shadows.cullingResults.casterBounds,
                   c0, d0, h0);
      ghost var p: seq<int> := [];
      ghost var indices: seq<int> := [];
      ghost var seen := 0;
      var i := 0;
      while i < |visibleLights|
        invariant Valid() && i == seen && dirLightCount == |p| < MaxDirLightCount && indices == Counter(|p|)
        invariant SetUpUpTo(seen, p, indices, s0, c0, d0, h0)
      {
        ghost var n0 := |p|;
        dirLightCount, p, indices := VisitLight(i, dirLightCount, dirLightCount, p, indices, s0, c0, d0, h0);
        assert Counter(n0 + 1) == Counter(n0) + [n0];
        seen := i + 1;
        if dirLightCount >= MaxDirLightCount {
          break;
        }
        i := i + 1;
      }
      assert seen == |visibleLights| || |p| == MaxDirLightCount;
      assert SetUpUpTo(seen, p, indices, s0, c0, d0, h0);
      VisitedDone(visibleLights, seen, p, indices, s0, shadows.settings.directional.cascadeCount,
                  shadows.cullingResults.casterBounds, c0, d0, h0,
                  dirLightColors[..], dirLightDirections[..], dirLightShadowData[..], Slots());
    }

    /** Sets up the selected directional lights (SetUpVisibleLights) and
        records their count and the three arrays in the command buffer. */
    method SetupLights()
      requires Valid() && shadows.hasSettings
      modifies this`buffer, dirLightColors, dirLightDirections, dirLightShadowData,
               shadows`shadowDirectionalLightCount, shadows`useShadowMask, shadows.shadowedDirectionalLights
      ensures Valid()
      ensures var v := cullingResults.visibleLights;
              var p := SelectedPositions(v);
              SetUpAs(LightsAt(v, p), p, old(Slots()), shadows.settings.directional.cascadeCount,
                      shadows.cullingResults.casterBounds,
                      old(dirLightColors[..]), old(dirLightDirections[..]), old(dirLightShadowData[..]),
                      dirLightColors[..], dirLightDirections[..], dirLightShadowData[..], Slots()) &&
              buffer == old(buffer) + PublishLog(|p|, dirLightColors[..], dirLightDirections[..], dirLightShadowData[..])
    {
      var dirLightCount := SetUpVisibleLights();
      buffer := buffer + PublishLog(dirLightCount, dirLightColors[..], dirLightDirections[..], dirLightShadowData[..]);
    }

    /** SetupLights as written, over SetUpVisibleLightsAsWritten: the
        reservations name the counter 0..n-1 as visible-light indices. */
    method SetupLightsAsWritten()
      requires Valid() && shadows.hasSettings
      modifies this`buffer, dirLightColors, dirLightDirections, dirLightShadowData,
               shadows`shadowDirectionalLightCount, shadows`useShadowMask, shadows.shadowedDirectionalLights
      ensures Valid()
      ensures var v := cullingResults.visibleLights;
              var p := SelectedPositions(v);
              SetUpAs(LightsAt(v, p), Counter(|p|), old(Slots()), shadows.settings.directional.cascadeCount,
                      shadows.cullingResults.casterBounds,
                      old(dirLightColors[..]), old(dirLightDirections[..]), old(dirLightShadowData[..]),
                      dirLightColors[..], dirLightDirections[..], dirLightShadowData[..], Slots()) &&
              buffer == old(buffer) + PublishLog(|p|, dirLightColors[..], dirLightDirections[..], dirLightShadowData[..])
    {
      var dirLightCount := SetUpVisibleLightsAsWritten();
      buffer := buffer + PublishLog(dirLightCount, dirLightColors[..], dirLightDirections[..], dirLightShadowData[..]);
    }
  }
}
