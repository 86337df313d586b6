# Custom render pipeline: shadows, lighting and bloom, modelled in Dafny

This project models the CPU side of three parts of a Unity custom render pipeline.

- **Shadows** (class `Shadows`). Each frame the renderer:
  - admits shadow-casting lights into fixed slot tables (4 directional lights; 16 slots for other lights, where a point light takes a block of 6 and a spot light 1);
  - returns each light's shadow-data vector to the lighting pass;
  - chooses an atlas grid of 1, 2 or 4 tiles per row;
  - renders every cascade, spot tile and cube face into its own tile, storing the tile's atlas matrix and its cascade or tile data;
  - publishes the arrays and selects one keyword per keyword group;
  - releases the atlases at clean-up.
- **Lighting** (class `Lighting`). It packs the first four directional lights of the visible list into the colour, direction and shadow-data arrays the shaders read. It reserves their shadows, lets the shadow renderer render, and publishes the arrays.
- **Post-processing** (class `PostFXStack`). It is active only for game and scene-view cameras that have settings. Bloom prefilters the frame into a half-size target, downsamples it into a pyramid of temporary targets, and combines the levels back up into the camera target. A frame with no levels is copied instead.

The two settings records (`ShadowSettings`, `PostFXSettings`) supply the enums, value ranges and defaults.

How the model is built:
- A `Shadows` object has no settings until its first `SetUp`, as the C# field is null until then. A ghost flag `hasSettings` records this. Only the operations that read the settings need it. `Lighting`'s light loop and `EndFrame` run only after `Lighting.SetUp` has called `Shadows.SetUp`, so they require it too.
- Command buffers are sequences of commands that methods append to.
- Arrays the source fills in place are Dafny `array`s.
- Every rendering method is proved to append exactly the log a specification function gives, and to leave each array equal to a function of the jobs it rendered.
- Properties of those functions are proved as lemmas: viewports inside the atlas and pairwise disjoint, one draw per job, the slot walk visiting exactly the reserved blocks, every acquired render target released exactly once, and others.
- Matrices and vectors are over `real`.

| file | module | contents |
|---|---|---|
| `geometry.dfy` | `Geometry` | vectors and 4x4 matrices |
| `scene.dfy` | `Scene` | lights, visible lights, culling results, camera |
| `shadow_settings.dfy` | `ShadowConfig` | `ShadowSettings.cs` |
| `shadow_atlas.dfy` | `ShadowAtlas` | pure arithmetic of `Shadows.cs`: split, tile offsets, atlas matrix, cascade and tile data, keywords |
| `shadow_passes.dfy` | `ShadowPasses` | the tile jobs and command logs of the two shadow passes |
| `shadows.dfy` | `ShadowRendering` | class `Shadows` |
| `lighting.dfy` | `LightingPass` | class `Lighting` |
| `postfx_settings.dfy` | `PostFXConfig` | `PostFXSettings.cs` |
| `postfx_stack.dfy` | `PostFXRendering` | class `PostFXStack` and the bloom log |

Two places where the source disagrees with itself; the model follows the code:
- `Shadows.cs` reads `settings.other.atlasSize` and `settings.other.filter`, but `ShadowSettings.cs` declares no `other` member. The model adds a record `Other(atlasSize, filter)`. Its default is assumed to be 1024 texels and PCF 2x2, like the directional defaults.
- `Lighting.cs` passes the directional counter where `Shadows.cs` expects a visible-light index. See "## Findings".

## Model

| member | source | states |
|---|---|---|
| ShadowConfig.TextureSize.Pixels | Assets/CustomRP/Runtime/ShadowSettings.cs:13-21 | each atlas size is between 256 and 8192 texels and a multiple of 256 |
| ShadowConfig.PixelsIsPowerOfTwo | Assets/CustomRP/Runtime/ShadowSettings.cs:13-21 | each atlas size is 2^k with 8 <= k <= 13 |
| ShadowConfig.PixelsInjective | Assets/CustomRP/Runtime/ShadowSettings.cs:13-21 | two sizes have the same value exactly when they are the same size |
| ShadowConfig.FilterMode.Ordinal | Assets/CustomRP/Runtime/ShadowSettings.cs:23-29 | the ordinal is in [0, 3], so the keyword index ordinal-1 is in [-1, 2] and the kernel factor ordinal+1 is in [1, 4]; it is 0 exactly for PCF2x2 |
| ShadowConfig.CascadeBlendMode.Ordinal | Assets/CustomRP/Runtime/ShadowSettings.cs:31-36 | the ordinal is in [0, 2], so the keyword index is in [-1, 1]; it is 0 exactly for Hard |
| ShadowConfig.Directional.CascadeRatio | Assets/CustomRP/Runtime/ShadowSettings.cs:46-48 | the ratio vector holds ratio 1, 2 and 3 in that order |
| ShadowConfig.ShadowDistanceFade | Assets/CustomRP/Runtime/Shadows.cs:128-129 | under the declared ranges the three reciprocals are defined: x * maxDistance = 1, y * shadowDistance = 1, z >= 1 |
| ShadowConfig.DefaultShadowSettings | Assets/CustomRP/Runtime/ShadowSettings.cs:57-67 | the defaults lie in the declared ranges: a 1024 atlas, 4 cascades, PCF2x2 and Hard blending |
| ShadowAtlas.Split | Assets/CustomRP/Runtime/Shadows.cs:249 | the split is 1, 2 or 4; for n <= 16 tiles, split * split >= n; a smaller split would not fit n |
| ShadowAtlas.SplitMonotonic | Assets/CustomRP/Runtime/Shadows.cs:314 | more tiles never give fewer tiles per row |
| ShadowAtlas.TileSizeExact | Assets/CustomRP/Runtime/Shadows.cs:250 | every split divides every atlas size exactly, and a tile is at least 64 texels |
| ShadowAtlas.TileOffset | Assets/CustomRP/Runtime/Shadows.cs:289 | the offset (t % split, t / split) has its column in [0, split) and gives back t as row * split + column; for t < split², the row is in [0, split) |
| ShadowAtlas.ViewportInsideAtlas | Assets/CustomRP/Runtime/Shadows.cs:292 | for n <= 16 tiles every tile's viewport lies inside the atlas |
| ShadowAtlas.ViewportsDisjoint | Assets/CustomRP/Runtime/Shadows.cs:357 | viewports of two different tiles do not overlap |
| ShadowAtlas.ConverToAtlasMatrix | Assets/CustomRP/Runtime/Shadows.cs:443-480 | row 3 of the matrix is returned unchanged |
| ShadowAtlas.ReversedZOnlyRow2 | Assets/CustomRP/Runtime/Shadows.cs:446-452 | the reversed-Z flag changes only row 2; that row is (m2 + m3)/2, or (m3 - m2)/2 when reversed |
| ShadowAtlas.AtlasRows | Assets/CustomRP/Runtime/Shadows.cs:455-477 | rows 0 and 1 are (1/split) * (0.5 * (r_k + r_3) + offset_k * r_3) |
| ShadowAtlas.TileScale | Assets/CustomRP/Runtime/Shadows.cs:469 | the scale is positive and scale * split = 1 |
| ShadowAtlas.AtlasMatrixMapsIntoTile | Assets/CustomRP/Runtime/Shadows.cs:455-477 | a point inside the clip volume is mapped to texture coordinates inside its own tile, whatever the depth convention |
| ShadowAtlas.AtlasDepthInRange | Assets/CustomRP/Runtime/Shadows.cs:446-466 | clip depth in [-w, w] is mapped to depth/w in [0, 1], in both depth conventions |
| ShadowAtlas.AdjustedRadius | Assets/CustomRP/Runtime/Shadows.cs:423-425 | shrinking the sphere by one filter kernel leaves a radius in (0, r) |
| ShadowAtlas.CascadeData | Assets/CustomRP/Runtime/Shadows.cs:421-432 | the sphere keeps its centre and stores the squared shrunk radius, below r²; the datum's x is its reciprocal, and its y is 1.4142136 times the filter size 2r(filter+1)/tileSize, which is exactly the amount the radius shrank |
| ShadowAtlas.CascadeShrinkMonotonic | Assets/CustomRP/Runtime/Shadows.cs:423-431 | a wider filter shrinks the sphere more and raises the stored reciprocal |
| ShadowAtlas.OtherTileData | Assets/CustomRP/Runtime/Shadows.cs:434-441 | the tile rectangle, pulled in by half a texel, lies inside the tile's [offset * scale, (offset + 1) * scale] bounds; w is the bias |
| ShadowAtlas.KeywordSelection | Assets/CustomRP/Runtime/Shadows.cs:405-419 | of distinct keywords, exactly the one at the index is enabled and every other is disabled; an index outside the group, such as -1, disables all |
| ShadowAtlas.ShadowKeywordGroupsDistinct | Assets/CustomRP/Runtime/Shadows.cs:21-45 | each keyword group has distinct keywords |
| ShadowAtlas.ShadowMaskKeywordIndex | Assets/CustomRP/Runtime/Shadows.cs:131-133 | the index is -1 exactly without the shadow mask; otherwise it is 0 for Shadowmask mode and 1 for distance shadowmask |
| ShadowPasses.ChainAppend | Assets/CustomRP/Runtime/Shadows.cs:222-231 | reserving at the first free slot extends the slot chain by one block |
| ShadowPasses.ChainIncreasing | Assets/CustomRP/Runtime/Shadows.cs:222-231 | the slots handed out are strictly increasing in call order; each block ends before the next begins |
| ShadowPasses.ChainNext | Assets/CustomRP/Runtime/Shadows.cs:317-329 | each block fits below the slot count, and the next block starts where it ends |
| ShadowPasses.ChainPrefix | Assets/CustomRP/Runtime/Shadows.cs:317-329 | the blocks before block k form a chain ending where block k starts |
| ShadowPasses.CullingFactor | Assets/CustomRP/Runtime/Shadows.cs:279 | the factor is max(0, 0.8 - cascadeDistance) |
| ShadowPasses.CascadeJobs | Assets/CustomRP/Runtime/Shadows.cs:272-277 | a light has one job per cascade |
| ShadowPasses.CascadeJobAt | Assets/CustomRP/Runtime/Shadows.cs:272-290 | job i of a light is its cascade i |
| ShadowPasses.DirectionalJobs | Assets/CustomRP/Runtime/Shadows.cs:252-255 | n lights give n * cascadeCount jobs |
| ShadowPasses.DirectionalJobAt | Assets/CustomRP/Runtime/Shadows.cs:288 | job q * cascadeCount + r is cascade r of light q |
| ShadowPasses.DirectionalJobOf | Assets/CustomRP/Runtime/Shadows.cs:288-289 | job j is cascade j % cascadeCount of light j / cascadeCount, rendered into tile j |
| ShadowPasses.FlipY | Assets/CustomRP/Runtime/Shadows.cs:385-388 | only row 1 of the view matrix changes, and it is negated |
| ShadowPasses.PointJobs | Assets/CustomRP/Runtime/Shadows.cs:374-392 | a point light has one job per face |
| ShadowPasses.PointJobAt | Assets/CustomRP/Runtime/Shadows.cs:390-392 | job f of a point light is its face f |
| ShadowPasses.BlockJobs | Assets/CustomRP/Runtime/Shadows.cs:319-328 | a light's block has six jobs for a point light and one for a spot light |
| ShadowPasses.BlockJobAt | Assets/CustomRP/Runtime/Shadows.cs:319-328 | job f of a block renders tile index + f for that block's light |
| ShadowPasses.OtherJobsLength | Assets/CustomRP/Runtime/Shadows.cs:317-329 | over a chained slot table the other pass has one job per reserved slot |
| ShadowPasses.OtherJobsSplit | Assets/CustomRP/Runtime/Shadows.cs:317-329 | the jobs before the last block are those of the shorter table; the rest belong to the last block |
| ShadowPasses.OtherJobOwner | Assets/CustomRP/Runtime/Shadows.cs:317-329 | job j renders tile j, for the light whose block holds slot j |
| ShadowPasses.OtherJobsLayout | Assets/CustomRP/Runtime/Shadows.cs:317-329 | the other pass renders exactly one job per reserved slot; job j renders tile j, for the light owning that slot |
| ShadowPasses.StoreMatrices | Assets/CustomRP/Runtime/Shadows.cs:290 | storing jobs keeps the array length |
| ShadowPasses.StoredMatrices | Assets/CustomRP/Runtime/Shadows.cs:288-290 | jobs in consecutive tiles leave each tile holding its job's atlas matrix and every other entry unchanged |
| ShadowPasses.StoreVectors | Assets/CustomRP/Runtime/Shadows.cs:427-428 | storing jobs keeps the array length |
| ShadowPasses.StoredVectors | Assets/CustomRP/Runtime/Shadows.cs:440 | jobs in consecutive tiles leave each tile holding its job's vector and every other entry unchanged |
| ShadowPasses.TileCommandsDraws | Assets/CustomRP/Runtime/Shadows.cs:292-297 | a job's commands hold exactly one draw, with that job's light and split data |
| ShadowPasses.TilesLogDraws | Assets/CustomRP/Runtime/Shadows.cs:252-255 | a pass draws each job exactly once, in job order |
| ShadowPasses.TilesLogViewports | Assets/CustomRP/Runtime/Shadows.cs:292 | every viewport a pass of at most 16 tiles sets lies inside the atlas |
| ShadowPasses.TilesLogKeepsAtlases | Assets/CustomRP/Runtime/Shadows.cs:292-297 | the tile commands acquire and release no atlas |
| ShadowPasses.KeywordsKeepAtlases | Assets/CustomRP/Runtime/Shadows.cs:405-419 | keyword commands acquire and release no atlas |
| ShadowPasses.AtlasSizeTexels | Assets/CustomRP/Runtime/Shadows.cs:238-240 | a rendered atlas publishes its size and a texel size with size * texel = 1; an atlas not rendered keeps the previous pair |
| ShadowPasses.DirectionalPassAtlases | Assets/CustomRP/Runtime/Shadows.cs:242-263 | the directional pass acquires only the directional atlas and releases nothing |
| ShadowPasses.OtherPassAtlases | Assets/CustomRP/Runtime/Shadows.cs:307-335 | the other pass acquires only the other atlas and releases nothing |
| ShadowPasses.DirectionalPartAtlases | Assets/CustomRP/Runtime/Shadows.cs:109-116 | the directional part acquires the directional atlas, either full size or 1x1 |
| ShadowPasses.OtherPartAtlases | Assets/CustomRP/Runtime/Shadows.cs:118-125 | the other part acquires the other atlas only when other lights hold tiles |
| ShadowPasses.CleanUpReleases | Assets/CustomRP/Runtime/Shadows.cs:144-152 | clean-up releases the directional atlas, and the other atlas exactly when other lights held tiles |
| ShadowPasses.GlobalsKeepAtlases | Assets/CustomRP/Runtime/Shadows.cs:127-133 | the per-frame globals acquire and release nothing |
| ShadowPasses.AtlasesBalanced | Assets/CustomRP/Runtime/Shadows.cs:106-152 | clean-up releases exactly the atlases Render acquired, and Render releases none |
| ShadowRendering.MulBound | Assets/CustomRP/Runtime/Shadows.cs:83 | 4 lights of at most 4 cascades fit the 16 directional matrices |
| ShadowRendering.Shadows.constructor | Assets/CustomRP/Runtime/Shadows.cs:47-92 | the initial state (Initial): arrays of the declared capacities whose entries all start at the zero struct, zero matrix or zero vector, as the C# array allocations do; no reserved light, shadow mask off, empty buffer, shadowAtlasSize zero, and no settings yet (`hasSettings` false: the C# `settings` field is null until SetUp) |
| ShadowRendering.Shadows.SetUp | Assets/CustomRP/Runtime/Shadows.cs:94-104 | both counts reset to 0 and the shadow mask off; the settings and culling are stored, so `hasSettings` holds from then on; the slot arrays, buffer and atlas sizes are untouched |
| ShadowRendering.Shadows.ReserveDirectionalShadows | Assets/CustomRP/Runtime/Shadows.cs:154-190 | zero and no change when full or not casting; without casters in view, (-strength, 0, 0, mask) and no slot taken; otherwise slot count is written, the count rises by 1, and the result is (strength, count * cascadeCount, normalBias, mask); the shadow mask turns on only after the capacity and strength test; the reserving branch, the only one that reads `settings`, needs `hasSettings` |
| ShadowRendering.Shadows.ReserveOtherShadows | Assets/CustomRP/Runtime/Shadows.cs:192-234 | (0, 0, isPoint, -1) when not casting; the shadow mask is checked before capacity; all or nothing: either 6 (point) or 1 (spot) slots from the old count with result (strength, oldCount, isPoint, mask), or no change with (-strength, 0, isPoint, mask); the chain invariant and count <= 16 are kept |
| ShadowRendering.Shadows.AddOtherLight | Assets/CustomRP/Runtime/Shadows.cs:222-231 | only slot oldCount is written; the count grows by the block size and the chain gains that block |
| ShadowRendering.Shadows.SetKeywords | Assets/CustomRP/Runtime/Shadows.cs:405-419 | appends one enable or disable per keyword, in order |
| ShadowRendering.Shadows.SetCascadeData | Assets/CustomRP/Runtime/Shadows.cs:421-432 | only entry index of the sphere and data arrays changes, to the cascade entry |
| ShadowRendering.Shadows.SetOtherTileData | Assets/CustomRP/Runtime/Shadows.cs:434-441 | only entry index changes, to the tile data |
| ShadowRendering.Shadows.DirectionalTileSize | Assets/CustomRP/Runtime/Shadows.cs:249-250 | a directional tile is at least 64 texels |
| ShadowRendering.Shadows.OtherTileSize | Assets/CustomRP/Runtime/Shadows.cs:314-315 | an other tile is at least 64 texels |
| ShadowRendering.Shadows.Render | Assets/CustomRP/Runtime/Shadows.cs:106-136 | needs `hasSettings`, since it always reads `settings`; appends the render log over the frame's plans (Rendered); the arrays that log publishes hold exactly what the two passes store: each tile of a plan holds its job's atlas matrix or tile data, the cascade arrays hold light 0's cascades, and every other entry, all of them for an atlas not rendered, is unchanged |
| ShadowRendering.Shadows.SetGlobals | Assets/CustomRP/Runtime/Shadows.cs:127-133 | the cascade count (0 without directional shadows), the distance fade and the atlas sizes, then the shadow-mask keywords with exactly the mode's keyword enabled, none without the shadow mask |
| ShadowRendering.Shadows.RenderAtlases | Assets/CustomRP/Runtime/Shadows.cs:109-125 | the directional part, then the other part; the five arrays hold what the two plans store (DirectionalArraysStored, OtherArraysStored) |
| ShadowRendering.Shadows.RenderDirectionalAtlas | Assets/CustomRP/Runtime/Shadows.cs:109-116 | either the directional pass or a 1x1 placeholder atlas; the matrices and cascade arrays hold what the directional plan stores, unchanged without directional tiles |
| ShadowRendering.Shadows.RenderOtherAtlas | Assets/CustomRP/Runtime/Shadows.cs:118-125 | either the other pass or the other atlas bound to the directional one; the matrices and tile data hold what the other plan stores, unchanged without other tiles |
| ShadowRendering.Shadows.RenderDirectionalShadows | Assets/CustomRP/Runtime/Shadows.cs:236-264 | appends the directional pass log; the matrices hold what the plan stores; the cascade arrays hold what light 0's cascades store |
| ShadowRendering.Shadows.RenderDirectionalLights | Assets/CustomRP/Runtime/Shadows.cs:252-255 | the lights' cascades are rendered in reservation order |
| ShadowRendering.Shadows.RenderDirectionalLightShadows | Assets/CustomRP/Runtime/Shadows.cs:266-299 | one light's cascades are rendered; cascade data is stored only when the index is 0 |
| ShadowRendering.Shadows.RenderCascade | Assets/CustomRP/Runtime/Shadows.cs:274-297 | one cascade renders into tile index * cascadeCount + i and stores its matrix |
| ShadowRendering.Shadows.RenderOtherShadows | Assets/CustomRP/Runtime/Shadows.cs:301-336 | appends the other pass log; the matrices and tiles hold what the plan stores |
| ShadowRendering.Shadows.RenderOtherLights | Assets/CustomRP/Runtime/Shadows.cs:317-329 | the slot walk steps 6 over a point block and 1 over a spot slot, and visits exactly the reserved blocks in order |
| ShadowRendering.Shadows.RenderSpotShadows | Assets/CustomRP/Runtime/Shadows.cs:338-363 | one tile for the spot light at slot index |
| ShadowRendering.Shadows.RenderPointShadows | Assets/CustomRP/Runtime/Shadows.cs:365-403 | six faces in tiles index .. index + 5 |
| ShadowRendering.Shadows.RenderPointFace | Assets/CustomRP/Runtime/Shadows.cs:376-401 | one face with its view flipped, as job `face` of the light's faces |
| ShadowRendering.Shadows.CleanUp | Assets/CustomRP/Runtime/Shadows.cs:144-152 | appends the clean-up log |
| LightingPass.DirectionalPositions | Assets/CustomRP/Runtime/Lighting.cs:61-64 | there are no more positions than lights |
| LightingPass.DirectionalPositionsValid | Assets/CustomRP/Runtime/Lighting.cs:64 | every position holds a directional light |
| LightingPass.DirectionalPositionsExact | Assets/CustomRP/Runtime/Lighting.cs:61-64 | positions are increasing and include every directional light, so other lights are skipped without taking an index |
| LightingPass.SelectedPositions | Assets/CustomRP/Runtime/Lighting.cs:61-71 | at most 4 positions, each holding a directional light |
| LightingPass.SelectedWhenDone | Assets/CustomRP/Runtime/Lighting.cs:67-70 | the loop has selected its lights at the end of the list or once it has 4 |
| LightingPass.LightsAt | Assets/CustomRP/Runtime/Lighting.cs:63 | one light per position |
| LightingPass.Colors | Assets/CustomRP/Runtime/Lighting.cs:51 | one colour per light |
| LightingPass.Directions | Assets/CustomRP/Runtime/Lighting.cs:52 | one direction per light |
| LightingPass.ColorsAndDirectionsIndex | Assets/CustomRP/Runtime/Lighting.cs:51-52 | entry k is light k's final colour and its negated z axis |
| LightingPass.Requests | Assets/CustomRP/Runtime/Lighting.cs:54 | one reservation request per light |
| LightingPass.Counter | Assets/CustomRP/Runtime/Lighting.cs:66 | the counter values 0 .. n-1 |
| LightingPass.ReserveDirectional | Assets/CustomRP/Runtime/Shadows.cs:154-190 | the reservation contract as a function; it keeps the slot bookkeeping in range |
| LightingPass.ReserveAll | Assets/CustomRP/Runtime/Lighting.cs:61-72 | one shadow vector per request |
| LightingPass.ReserveAllSlots | Assets/CustomRP/Runtime/Shadows.cs:176-184 | the count never falls, earlier slots are kept, and every new slot names a requested index |
| LightingPass.ReserveDirectionalTile | Assets/CustomRP/Runtime/Shadows.cs:176-186 | a slot is taken exactly when there is room, the light casts shadows and it has casters; the result's y is then count * cascadeCount |
| LightingPass.ReservedLightsAreDirectional | Assets/CustomRP/Runtime/Lighting.cs:54 | with each light's own position as its index, every reserved slot names a directional light |
| LightingPass.ReserveFirstSlot | Assets/CustomRP/Runtime/Shadows.cs:176-184 | the first successful request takes slot 0 under its index |
| LightingPass.SpotThenDirectionalSelected | Assets/CustomRP/Runtime/Lighting.cs:61-70 | for a spot light followed by a directional light, position 1 is selected |
| LightingPass.CounterIndexNamesWrongLight | Assets/CustomRP/Runtime/Lighting.cs:54 | as written, slot 0 names the spot light; with the position, it names the directional light |
| LightingPass.SetUpNext | Assets/CustomRP/Runtime/Lighting.cs:49-55 | setting up one more light writes entry n of each array and makes one reservation |
| LightingPass.VisitedStart | Assets/CustomRP/Runtime/Lighting.cs:59-61 | before the first light nothing is set up: no positions, the arrays and reservations as they were |
| LightingPass.VisitedNext | Assets/CustomRP/Runtime/Lighting.cs:63-66 | a directional light is written at the counter; any other light changes nothing |
| LightingPass.VisitedDone | Assets/CustomRP/Runtime/Lighting.cs:61-72 | when the loop stops, the visited positions are the selected ones |
| LightingPass.Lighting.constructor | Assets/CustomRP/Runtime/Lighting.cs:18-29 | a fresh shadow renderer in its initial state (Shadows.Initial, with no settings until SetUp), empty buffers, and the three light arrays of four zero vectors each |
| LightingPass.Lighting.SetUp | Assets/CustomRP/Runtime/Lighting.cs:31-42 | the order is shadows.SetUp, then every reservation, then shadows.Render; the arrays hold the selected lights, reserved under their visible-list positions (the corrected loop, LightsSetUp); the sample-wrapped log is submitted and the buffer cleared; the shadow log and arrays are those of Render (Rendered) |
| LightingPass.Lighting.BeginFrame | Assets/CustomRP/Runtime/Lighting.cs:33-37 | the shadow set-up and the lights, through the corrected loop SetupLights (LightsSetUp) |
| LightingPass.Lighting.EndFrame | Assets/CustomRP/Runtime/Lighting.cs:38-41 | the render, whose log and published arrays are those of Render (Rendered), then the submission; the light arrays, the culling results, the settings and the directional reservations are left unchanged |
| LightingPass.Lighting.CleanUp | Assets/CustomRP/Runtime/Lighting.cs:44-47 | the shadow clean-up |
| LightingPass.Lighting.SetUpDirectionalLight | Assets/CustomRP/Runtime/Lighting.cs:49-55 | entry index of the three arrays is written, with one reservation |
| LightingPass.Lighting.VisitLight | Assets/CustomRP/Runtime/Lighting.cs:63-71 | one loop turn |
| LightingPass.Lighting.SetUpVisibleLights | Assets/CustomRP/Runtime/Lighting.cs:59-72 | the first 4 directional lights are set up at 0..n-1 with their positions; entries from n on are untouched |
| LightingPass.Lighting.SetUpVisibleLightsAsWritten | Assets/CustomRP/Runtime/Lighting.cs:59-72 | the same, with the counter as the index |
| LightingPass.Lighting.SetupLights | Assets/CustomRP/Runtime/Lighting.cs:57-78 | the lights are set up, then the count n and the three arrays are published |
| LightingPass.Lighting.SetupLightsAsWritten | Assets/CustomRP/Runtime/Lighting.cs:57-78 | the same, as written |
| PostFXConfig.DefaultBloom | Assets/CustomRP/Runtime/PostFXSettings.cs:42-48 | the defaults are in the declared ranges: 16 iterations, limit 2, no bicubic sampling, intensity 0 |
| PostFXConfig.Material.constructor | Assets/CustomRP/Runtime/PostFXSettings.cs:18 | a material of the shader |
| PostFXConfig.PostFXSettings.constructor | Assets/CustomRP/Runtime/PostFXSettings.cs:8-10 | no cached material |
| PostFXConfig.PostFXSettings.GetMaterial | Assets/CustomRP/Runtime/PostFXSettings.cs:12-24 | creates a material only when none is cached and a shader is set; otherwise returns the cached value, which is null without a shader; later gets return the same instance |
| PostFXRendering.Digits | Assets/CustomRP/Runtime/PostFXStack.cs:48 | the decimal form of n is non-empty, one digit exactly when n < 10 |
| PostFXRendering.DigitsInjective | Assets/CustomRP/Runtime/PostFXStack.cs:48 | different numbers print differently |
| PostFXRendering.PyramidNameInjective | Assets/CustomRP/Runtime/PostFXStack.cs:45-49 | the pyramid names are pairwise distinct |
| PostFXRendering.PyramidNamesAreOwn | Assets/CustomRP/Runtime/PostFXStack.cs:17-22 | no pyramid name is a static property name |
| PostFXRendering.PropertyIds.PropertyToID | Assets/CustomRP/Runtime/PostFXStack.cs:17-22 | a known name keeps its id; a new name gets the next id |
| PostFXRendering.LevelsMeaning | Assets/CustomRP/Runtime/PostFXStack.cs:97-114 | the loop stops at maxIterations or at the first level whose side is below the limit |
| PostFXRendering.BloomLevelsMeaning | Assets/CustomRP/Runtime/PostFXStack.cs:95-119 | 0 levels without positive intensity; at most maxIterations; every level is at least the limit; the loop stops at the first too-small level; at most 16 under the ranges |
| PostFXRendering.DrawLogContents | Assets/CustomRP/Runtime/PostFXStack.cs:67-72 | a draw acquires and releases nothing and draws its pass |
| PostFXRendering.DownStepContents | Assets/CustomRP/Runtime/PostFXStack.cs:104-108 | level k acquires pyramid+2k then pyramid+2k+1, and draws horizontal then vertical |
| PostFXRendering.DownLogContents | Assets/CustomRP/Runtime/PostFXStack.cs:97-114 | n levels acquire pyramid .. pyramid+2n-1 in order and release nothing |
| PostFXRendering.UpStepContents | Assets/CustomRP/Runtime/PostFXStack.cs:130-135 | a combine draws once and releases `from` and then toId + 1 |
| PostFXRendering.UpLogDraws | Assets/CustomRP/Runtime/PostFXStack.cs:128-136 | c combines, acquiring nothing |
| PostFXRendering.UpLogReleases | Assets/CustomRP/Runtime/PostFXStack.cs:128-136 | the releases are `from`, then pyramid+2c-1 down to pyramid+1 |
| PostFXRendering.CombineLogDraws | Assets/CustomRP/Runtime/PostFXStack.cs:121-141 | n levels give n combine draws (n-1 intermediate and a final one) |
| PostFXRendering.CombineLogReleases | Assets/CustomRP/Runtime/PostFXStack.cs:121-141 | the deepest horizontal target, then the upward releases, then the last result |
| PostFXRendering.CombineReleaseOrderIsSpan | Assets/CustomRP/Runtime/PostFXStack.cs:125-141 | the release order is a permutation of the 2n pyramid ids |
| PostFXRendering.CombineReleasesAll | Assets/CustomRP/Runtime/PostFXStack.cs:121-141 | every pyramid id is released exactly once |
| PostFXRendering.CombineOneReleases | Assets/CustomRP/Runtime/PostFXStack.cs:121-141 | for one level, the releases are pyramid, then pyramid+1 |
| PostFXRendering.CombineReleasesInOrder | Assets/CustomRP/Runtime/PostFXStack.cs:125-141 | for n > 1 levels, the releases come in the combine order |
| PostFXRendering.BloomHeadContents | Assets/CustomRP/Runtime/PostFXStack.cs:76-87 | the head acquires the prefilter target only |
| PostFXRendering.BloomTailContents | Assets/CustomRP/Runtime/PostFXStack.cs:148-149 | the tail releases the prefilter target only |
| PostFXRendering.BloomTargets | Assets/CustomRP/Runtime/PostFXStack.cs:74-150 | bloom acquires the prefilter and then pyramid .. pyramid+2n-1; it releases the middle's releases and then the prefilter |
| PostFXRendering.BloomReleasesAll | Assets/CustomRP/Runtime/PostFXStack.cs:74-150 | every target acquired is released exactly once (multiset equality) |
| PostFXRendering.BloomPasses | Assets/CustomRP/Runtime/PostFXStack.cs:88-146 | the draws are prefilter, n horizontal/vertical pairs, then n combines or a single copy |
| PostFXRendering.BloomIdsInRange | Assets/CustomRP/Runtime/PostFXStack.cs:90-113 | under the ranges, only the prefilter and the 32 registered pyramid ids are used |
| PostFXRendering.PostFXStack.constructor | Assets/CustomRP/Runtime/PostFXStack.cs:43-50 | registers the 6 static and 32 pyramid names; if the pyramid names are new, their ids are consecutive from bloomPyramidId |
| PostFXRendering.PostFXStack.SetUp | Assets/CustomRP/Runtime/PostFXStack.cs:52-58 | active exactly with settings and a game or scene-view camera |
| PostFXRendering.PostFXStack.Draw | Assets/CustomRP/Runtime/PostFXStack.cs:67-72 | appends the draw log; the material is fetched lazily |
| PostFXRendering.PostFXStack.Downsample | Assets/CustomRP/Runtime/PostFXStack.cs:90-119 | the level count is BloomLevels; appends the down log; the final ids are returned |
| PostFXRendering.PostFXStack.Combine | Assets/CustomRP/Runtime/PostFXStack.cs:121-141 | appends the combine log |
| PostFXRendering.PostFXStack.CombineUp | Assets/CustomRP/Runtime/PostFXStack.cs:126-136 | appends the upward combines; fromId ends at the last result |
| PostFXRendering.PostFXStack.CombineStep | Assets/CustomRP/Runtime/PostFXStack.cs:130-135 | one combine |
| PostFXRendering.PostFXStack.CombineFinal | Assets/CustomRP/Runtime/PostFXStack.cs:138-141 | the final combine into the camera target |
| PostFXRendering.PostFXStack.DoBloom | Assets/CustomRP/Runtime/PostFXStack.cs:74-150 | appends the bloom log |
| PostFXRendering.PostFXStack.CombineOrCopy | Assets/CustomRP/Runtime/PostFXStack.cs:121-146 | combine when there are levels, copy otherwise |
| PostFXRendering.PostFXStack.Render | Assets/CustomRP/Runtime/PostFXStack.cs:60-65 | bloom is submitted and the buffer cleared |
| PostFXRendering.RegisteredAll | Assets/CustomRP/Runtime/PostFXStack.cs:43-50 | the static names, then the pyramid names, give the constructor's result |
| PostFXRendering.Register | Assets/CustomRP/Runtime/PostFXStack.cs:17-22 | the name has an id and no other name is added |
| PostFXRendering.RegisterLevel | Assets/CustomRP/Runtime/PostFXStack.cs:48 | the same for level i; a new name gets the next id |
| PostFXRendering.RegisterNames | Assets/CustomRP/Runtime/PostFXStack.cs:43-50 | the constructor's registrations |
| PostFXRendering.RegisterStaticNames | Assets/CustomRP/Runtime/PostFXStack.cs:17-22 | the six static names get ids and no pyramid name is added |
| PostFXRendering.RegisterPyramidNames | Assets/CustomRP/Runtime/PostFXStack.cs:45-49 | all 32 pyramid names are registered; fresh ones get consecutive ids |

## Left out

- Inputs, not computations:
  - The engine's culling computations are inputs: caster bounds, the `Compute*ShadowMatricesAndCullingPrimitives` outputs, and the visible-light list. The culling input is assumed well formed: culling spheres have a positive radius and spot projections have a positive `m00`, so the reciprocals taken of them are defined.
  - `SystemInfo.usesReversedZBuffer` is a constructor parameter of `Shadows`.
  - `QualitySettings.shadowmaskMode` is a parameter of `Render`.
  - `Shader.PropertyToID` is a registry that hands out the next integer to each new name.
- Floating point:
  - Vectors and matrices are over exact reals; single-precision rounding is not modelled.
  - The point-light `fovBias` (an arctangent) is not computed; the face's slice comes from the culling input.
  - The bloom threshold vector is one abstract command carrying the settings.
- Command-buffer details not modelled:
  - profiling samples and `ExecuteBuffer` points inside `Shadows`; the shadow buffer is the sequence of everything it submits;
  - render-target formats, depth bits, filter modes and load/store actions;
  - the order in which commands of the lighting buffer and the shadow buffer interleave on the render context (each is a separate log).
- `ApplySceneViewState` (called by the post-processing `SetUp`) lives in an editor-only partial class; it is not part of this model.
- The cross-file calls are not modelled: `CameraRenderer`, `CustomRenderPipeline` and `CustomRenderPipelineAsset` call `Lighting.SetUp`, `Render` and a constructor with argument counts that do not match the declared signatures. Each class is modelled with its own signature; `Lighting.SetUp` takes the shadow-mask mode as an extra parameter.
- ShadowRendering.Shadows.Render: requires the settings to lie in their declared ranges (`ValidShadowSettings`). Outside them the distance-fade reciprocals are undefined over the reals.
- ShadowConfig.DefaultShadowSettings: the `other` record has no initialiser in the source. The model assumes 1024 texels and PCF2x2.
- PostFXRendering.PostFXStack.DoBloom: does not read the camera before `SetUp` has stored one.
- Several source methods are split into helper methods (RenderAtlases, SetGlobals, RenderDirectionalAtlas, RenderOtherAtlas, RenderDirectionalLights, RenderCascade, RenderOtherLights, RenderPointFace, AddOtherLight, BeginFrame, EndFrame, VisitLight, Downsample, Combine, CombineUp, CombineStep, CombineFinal, CombineOrCopy, RegisterNames, RegisterStaticNames, RegisterPyramidNames, Register, RegisterLevel). The composition of the helpers is the source method.
- `Lighting` never calls `ReserveOtherShadows` in the source, so the lighting model reserves directional shadows only.
- LightingPass.Lighting.SetUp: composes BeginFrame, which runs the corrected light loop SetupLights. Its reservations are made under each light's visible-list position, not under the directional counter as `Lighting.cs:54` does; on the input of "## Findings" its contract describes the corrected program. The loop as written is modelled only as SetupLightsAsWritten, not inside a SetUp.
- LightingPass.Lighting.BeginFrame: the same, for the first half of SetUp.
- Lemmas that only unfold a definition by one step, and the arithmetic and log-regrouping lemmas the proofs use, have no row: DirectionalJobsNext, OtherJobsNext, StoreMatricesNext, StoreVectorsNext, TilesLogNext, DirectionalPassLogAppend, OtherPassLogAppend, RenderLogAppend, DirectionalPositionsNext and the helpers beside them. The log order they establish is stated by TilesLogDraws, TilesLogViewports, DirectionalPassAtlases, OtherPassAtlases, OtherJobsLayout and AtlasesBalanced.

## Findings

| source | as written | input that shows it | evidently intended | confidence | as-written member | corrected member |
|---|---|---|---|---|---|---|
| Assets/CustomRP/Runtime/Lighting.cs:54 | `SetUpDirectionalLight` passes its array index, the directional counter, to `ReserveDirectionalShadows` as the visible-light index | a visible list of a shadow-casting spot light followed by a shadow-casting directional light, both with casters in view: slot 0 is reserved under index 0, so the directional cascades are culled and drawn for the spot light | pass the light's position `i` in the visible list | not executed | LightingPass.Lighting.SetupLightsAsWritten, LightingPass.CounterIndexNamesWrongLight | LightingPass.Lighting.SetupLights, LightingPass.ReservedLightsAreDirectional |
