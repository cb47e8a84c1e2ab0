# inside-out, modelled in Dafny

inside-out turns a list of short posts into a 3D "memory universe". Each line
is analysed (by a language model behind a small relay, or by local rules when
that fails) into a sentiment score, an intensity and a category. The posts are
kept in browser storage. Each post becomes a coloured sphere, placed on a
timeline, inside a humanoid figure and in one of five castle towers. The app
derives persona dimensions from the posts. Side panels compare them with a
target persona, list language insights, simulate a new post and draw belief
strands from the core memories at the bottom of the castle.

The model has one module per source file of that core:

- `App` — the state of the main component (`app/App.tsx`). It is a class whose
  handlers keep every sphere matched to its post.
- `MemoryStorage` — the storage helpers, as a class over a key/value store.
- `Layout3d` and `Placement` — the main app's sphere layout. The tower pass is
  a loop proved against a specification function.
- `RepoLayout3d` — the gallery variant's layout.
- `ColorMap`, `RepoColorMap` and `ColorMapping` — the colour rules, the emotion
  classifiers and the hex parser.
- `LlmService` — the client of the model relay.
- `PostAnalysis` — the gallery's analysis hook.
- `WhatIf`, `PersonaDiff`, `Insights` and `BeliefStrands` — the panels' logic.
- `LlmProxy` — the development relay: `.env` loading, origins and CORS, the
  body limit, and the answer order of its request handler.
- `Text`, `Types` and `Wrappers` — the JavaScript string operations, the
  shared records and an Option/Result pair.

Numbers are `real`. Every `Math.random()` draw is an explicit parameter,
grouped per post in the order the source draws them. `Math.sin`, `cos`, `acos`
and `cbrt` are function fields of a `Trig` record, with their ranges as a
predicate.

## Model

| member | source | states |
|---|---|---|
| Text.Trim | app/server/llm-proxy.js:16 | the result is empty exactly when the string is all whitespace; otherwise it neither starts nor ends with whitespace |
| Text.TrimStripsEdges | app/server/llm-proxy.js:16 | the trim is a middle slice of the string with only whitespace before and after it |
| Text.TrimOfTrimmed | app/server/llm-proxy.js:16 | a string with no whitespace at either end is its own trim |
| Text.TrimIdempotent | app/server/llm-proxy.js:16 | trimming twice equals trimming once |
| Text.ContainsShorter | app/utils/layout3d.ts:87-90 | `includes` never finds a longer string |
| Text.ContainsSameLength | app/utils/layout3d.ts:87-90 | between equal-length strings, `includes` is equality |
| Text.IndexOf | app/server/llm-proxy.js:18-19 | -1 exactly when the character is absent; otherwise the first position holding it |
| Text.Split | app/server/llm-proxy.js:37-40 | at least one piece, and no piece contains the separator |
| Text.SplitJoin | app/server/llm-proxy.js:37-40 | joining the pieces of a split with the separator gives back the string |
| Text.SplitAfterPiece | app/server/llm-proxy.js:38 | a separator-free piece followed by the separator splits off as exactly that piece |
| Text.JoinSplit | app/server/llm-proxy.js:37-40 | splitting joined separator-free pieces gives back the pieces |
| Text.TrimmedPiecesRoundTrip | app/server/llm-proxy.js:37-40 | trimmed, non-empty, separator-free pieces survive join, split, trim and filter |
| Text.SplitLines | app/server/llm-proxy.js:15 | one line per line-feed piece of the string; every piece but the last loses one carriage return before its line feed, the last is kept whole |
| Text.SplitLinesWithoutCarriageReturn | app/server/llm-proxy.js:15 | no line contains a line feed; without carriage returns the lines are the line-feed split and join back to the string |
| Text.Take | app/utils/llmService.ts:41 | `slice(0, n)` is a prefix: of length n when the list is that long, and the whole list when it is not longer than n |
| Text.NonEmptyTrimmed | app/github-repo/hooks/usePostAnalysis.ts:15-17 | every kept line is trimmed and non-empty, and no more lines are kept than given |
| Text.NonEmptyTrimmedSingle | app/github-repo/hooks/usePostAnalysis.ts:15-17 | one line is kept as its trim exactly when that trim is non-empty, and dropped otherwise |
| Text.NonEmptyTrimmedAppend | app/github-repo/hooks/usePostAnalysis.ts:15-17 | trim-and-filter distributes over concatenation, so the order is kept |
| Text.NonEmptyTrimmedFixpoint | app/github-repo/hooks/usePostAnalysis.ts:15-17 | lines that are already trimmed and non-empty pass through unchanged |
| Text.BlankLinesDropped | app/github-repo/hooks/usePostAnalysis.ts:15-17 | all-whitespace lines are all dropped |
| Text.Decimal | app/github-repo/hooks/usePostAnalysis.ts:38 | `String(n)` is a non-empty string of decimal digits that denotes n, with no leading zero unless n is 0 |
| Types.DimensionKeysComplete | app/github-repo/types.ts:30-36 | the key list `Object.keys` yields names each of the five dimensions exactly once |
| ColorMap.EmotionColor | app/utils/colorMap.ts:8-17 | each emotion's colour is seven characters starting with '#'; EmotionColorIsHex states the other six are hex digits |
| ColorMap.EmotionColorInjective | app/utils/colorMap.ts:8-17 | no two emotions share a colour |
| ColorMap.GetSphereColor | app/utils/colorMap.ts:19-50 | the sphere colour is one of the six colours the rules name, never anger's or fear's |
| ColorMap.CategoryRuleWins | app/utils/colorMap.ts:21-29 | rant, achievement and reflection get a fixed colour whatever the sentiment |
| ColorMap.DailyBands | app/utils/colorMap.ts:31-34 | a daily post is joy exactly when sentiment > 0, otherwise embarrassment |
| ColorMap.RelationshipBands | app/utils/colorMap.ts:36-41 | a relationship post: joy iff > 0.3, sadness iff < -0.3, embarrassment otherwise |
| ColorMap.UncategorisedBands | app/utils/colorMap.ts:43-49 | an "other" post gets the five sentiment bands in both directions, boundaries included |
| ColorMap.NeutralOnlyWithoutRule | app/utils/colorMap.ts:19-50 | the neutral colour appears only for posts without a category rule |
| ColorMap.GetAvatarBaseColor | app/utils/colorMap.ts:52-55 | the avatar colour is one of the sphere colours |
| ColorMap.AvatarBaseColorConstant | app/utils/colorMap.ts:52-55 | the avatar colour is neutral whatever the sentiment |
| RepoColorMap.GetSphereColor | app/github-repo/utils/colorMap.ts:3-25 | the colour is one of the five gallery palette colours |
| RepoColorMap.NamedCategoriesFixed | app/github-repo/utils/colorMap.ts:4-17 | every named category has one colour independent of sentiment, as listed |
| RepoColorMap.FallbackBands | app/github-repo/utils/colorMap.ts:19-24 | an "other" post gets the four sentiment bands in both directions, and never yellow |
| RepoColorMap.GetAvatarBaseColor | app/github-repo/utils/colorMap.ts:27-30 | the avatar colour is in the palette |
| RepoColorMap.AvatarBaseColorConstant | app/github-repo/utils/colorMap.ts:27-30 | the avatar colour is cool grey whatever the sentiment |
| ColorMapping.DimensionRulesInOrder | app/utils/colorMapping.ts:16-52 | each emotion is chosen exactly when one of its rules holds and no earlier rule does; joy is the default |
| ColorMapping.EmotionalityWins | app/utils/colorMapping.ts:23-25 | emotionality above 0.6 decides anxiety |
| ColorMapping.DimensionEmotionRange | app/utils/colorMapping.ts:16-52 | the persona emotion is one of six, never anger or neutral |
| ColorMapping.FearBand | app/utils/colorMapping.ts:43-45 | fear implies confidence < 0.3 and emotionality in (0.5, 0.6] |
| ColorMapping.GetEmotionFromDimensions | app/utils/colorMapping.ts:16-52 | the persona classifier; its rule order is stated by DimensionRulesInOrder, EmotionalityWins, DimensionEmotionRange and FearBand |
| ColorMapping.PostBands | app/utils/colorMapping.ts:57-75 | each of the five emotions exactly when its band holds and no earlier band does; joy for the first band or when no band matches |
| ColorMapping.PostDefaultJoy | app/utils/colorMapping.ts:71-74 | neutral sentiment with middling intensity falls back to joy |
| ColorMapping.NoBandIsJoy | app/utils/colorMapping.ts:71-74 | any post that matches no band is joy |
| ColorMapping.GetEmotionFromPost | app/utils/colorMapping.ts:57-75 | the post classifier; PostBands states every band both ways and NoBandIsJoy the fallback |
| ColorMapping.DominantIndex | app/utils/colorMapping.ts:83-85 | the reduce ends on an entry of maximum weight with every earlier entry strictly lighter |
| ColorMapping.BlendKeepsFirstOnTies | app/utils/colorMapping.ts:80-88 | on equal weights the earlier emotion wins; a strictly heavier later one replaces it |
| ColorMapping.BlendEmotionColors | app/utils/colorMapping.ts:80-88 | the emotion of the reduce's winner; DominantIndex and BlendKeepsFirstOnTies state which entry wins |
| ColorMapping.HexDigit | app/utils/colorMapping.ts:101 | a digit value lies in 0..15, or -1 for a non-digit |
| ColorMapping.HexBody | app/utils/colorMapping.ts:101 | the pattern matches exactly six hex digits after an optional '#', and captures those six digits |
| ColorMapping.HexToRgb | app/utils/colorMapping.ts:100-107 | the parser; HexToRgbInUnitCube, NonMatchingIsWhite, SixDigitsAccepted and HexRoundTrip state its range, its white fallback, its reading of six digits and its round trip |
| ColorMapping.HexToRgbInUnitCube | app/utils/colorMapping.ts:100-107 | every component of the result lies in [0, 1] |
| ColorMapping.NonMatchingIsWhite | app/utils/colorMapping.ts:101-106 | every string the pattern does not match gives white: a wrong length, 7 characters without '#', or a non-hex character |
| ColorMapping.SixDigitsAccepted | app/utils/colorMapping.ts:101-106 | any six hex digits, either case, with or without '#', give each pair's byte over 255 |
| ColorMapping.EmotionColorIsHex | app/utils/colorMap.ts:8-17 | every EMOTION_COLORS entry is '#' and six hex digits, so hexToRgb reads it instead of giving white |
| ColorMapping.DigitRoundTrip | app/utils/colorMapping.ts:103-105 | a printed hex digit parses back to its value |
| ColorMapping.FormatHex | app/utils/colorMapping.ts:101 | a formatted colour has 7 characters |
| ColorMapping.HexRoundTrip | app/utils/colorMapping.ts:100-107 | parsing `#rrggbb` gives each byte over 255 |
| ColorMapping.HashOptional | app/utils/colorMapping.ts:101 | six digits parse the same with or without '#' |
| ColorMapping.CaseInsensitiveDigit | app/utils/colorMapping.ts:101 | upper-case digits read like lower-case ones |
| Placement.TimelineProperties | app/utils/layout3d.ts:96-98 | consecutive x are 0.6 apart, y is 3 × sentiment, z lies in [-4, 0] |
| Placement.TimelinePosition | app/utils/layout3d.ts:96-98 | the timeline point of post i among count; its spacing and ranges are TimelineProperties |
| Placement.Radius | app/utils/layout3d.ts:103 | the radius formula; RadiusMonotone states its order and range |
| Placement.RadiusMonotone | app/utils/layout3d.ts:103 | the radius grows with intensity and lies in [0.2, 0.4] for intensities 1..5 |
| Placement.ValidPostRadius | app/utils/layout3d.ts:103 | a post within its documented ranges gets a radius in [0.2, 0.4] |
| Placement.RegionDeterministic | app/utils/layout3d.ts:40-76 | named categories pick their body region regardless of the draw; "other" splits 0.2/0.4/0.4 |
| Placement.Region | app/utils/layout3d.ts:40-76 | the branch of getHumanoidPosition a post takes; RegionDeterministic and LimbsRoundRobin state it |
| Placement.HumanoidPosition | app/utils/layout3d.ts:40-76 | the point of the region's sampler; TorsoWithinBox and HeadWithinCube bound it |
| Placement.HeadPoint | app/utils/layout3d.ts:45-47 | the head sampler call, a sphere of radius 0.25 at (0, 1.6, 0); HeadWithinCube bounds it |
| Placement.TorsoPoint | app/utils/layout3d.ts:51-53 | the torso sampler call, a 0.45 × 0.6 × 0.3 box at (0, 1.15, 0); TorsoWithinBox bounds it |
| Placement.LimbPoint | app/utils/layout3d.ts:57-67 | a limb sampler call with jitter 0.15; LimbsRoundRobin states which limb |
| Placement.LimbsRoundRobin | app/utils/layout3d.ts:57-68 | achievements cycle through the four limbs with period 4 |
| Placement.TorsoWithinBox | app/utils/layout3d.ts:19-25 | relationship and rant posts land inside the torso box |
| Placement.HeadWithinCube | app/utils/layout3d.ts:5-17 | reflection and daily posts land within the head sphere's bounding cube |
| Placement.ScaledUnitProduct | app/utils/layout3d.ts:10-15 | a radius times two unit factors stays within the radius |
| Placement.PointInSphere | app/utils/layout3d.ts:5-17 | `randomPointInSphere` on its three draws; HeadWithinCube bounds it |
| Placement.PointInBox | app/utils/layout3d.ts:19-25 | `randomPointInBox` on its three draws; TorsoWithinBox bounds it |
| Placement.PointOnLine | app/utils/layout3d.ts:27-38 | `randomPointOnLine`: the point at t along the segment plus the jitter of three draws |
| Layout3d.ColorCategoryOfHex | app/utils/layout3d.ts:86-92 | for a 7-character colour, the substring tests are equality tests |
| Layout3d.ClusterOfSphereColors | app/utils/layout3d.ts:86-92 | each sphere colour goes to its emotion's tower; neutral goes to embarrassment |
| Layout3d.GetColorCategory | app/utils/layout3d.ts:86-92 | the substring tests in order with the default; ColorCategoryOfHex and ClusterOfSphereColors state their outcome |
| Layout3d.IndexInEmotions | app/utils/layout3d.ts:110 | every category is found in the emotion list at its own index |
| Layout3d.TowerIndexRange | app/utils/layout3d.ts:110-111 | the tower index is in 0..4, names its category, and distinct categories get distinct towers |
| Layout3d.TowerIndex | app/utils/layout3d.ts:110-111 | `indexOf` with the fallback 4; TowerIndexRange states its range and injectivity |
| Layout3d.CastleHeight | app/utils/layout3d.ts:118-123 | castle y lies in [level × 0.8 - 8, level × 0.8 - 7.5) |
| Layout3d.CastlePosition | app/utils/layout3d.ts:114-125 | the castle point of a level in a tower; CastleHeight and AngleStartSpacing bound it |
| Layout3d.AngleStartSpacing | app/utils/layout3d.ts:114 | the towers start at multiples of 2π/5 within [0, 2π) |
| Layout3d.TowerUpdate | app/utils/layout3d.ts:108-119 | bumping a tower's counter turns counts before post i into counts before post i + 1 |
| Layout3d.PlacePost | app/utils/layout3d.ts:94-135 | one pass step places post i at its tower's count so far and advances the counters |
| Layout3d.LayoutMemorySpheres | app/utils/layout3d.ts:78-137 | the loop's result equals the specification layout, counters starting empty on each call |
| Layout3d.TabulateAt | app/utils/layout3d.ts:94 | a tabulated entry is the function at its index |
| Layout3d.PrefixIsTabulate | app/utils/layout3d.ts:94 | the layout prefix is the per-index map |
| Layout3d.LayoutSpheres | app/utils/layout3d.ts:94-136 | one sphere per post; sphere i depends on post i, its level and draw i |
| Layout3d.Layout | app/utils/layout3d.ts:78-137 | the specification layout; LayoutSpheres, SphereKeepsPost and LayoutMemorySpheres relate it to the posts and the loop |
| Layout3d.PlaceSphere | app/utils/layout3d.ts:94-135 | the sphere record of post i at a given counter value; SphereKeepsPost states its fields and CastleHeight its height |
| Layout3d.SphereAt | app/utils/layout3d.ts:94-135 | the sphere of post i at its level; LayoutSpheres and PlacePost tie it to the loop |
| Layout3d.SphereKeepsPost | app/utils/layout3d.ts:127-134 | sphere i carries the id, post, colour and radius of post i |
| Layout3d.CountBeforeMonotone | app/utils/layout3d.ts:118-119 | tower counters never decrease along the pass |
| Layout3d.LaterPostsStackHigher | app/utils/layout3d.ts:118-119 | two posts of one tower never share a level: the later is strictly higher |
| Layout3d.CountsSumToLength | app/utils/layout3d.ts:108-119 | each post lands in exactly one tower: the counters sum to the number of posts |
| Layout3d.FirstOfTowerAtGround | app/utils/layout3d.ts:108 | the first post of a tower is on level 0 |
| Layout3d.CastleFloor | app/utils/layout3d.ts:118-123 | every castle y is at least -8, fixed by the sphere's level and its draw |
| RepoLayout3d.LayoutMemorySpheres | app/github-repo/utils/layout3d.ts:78-101 | one sphere per post |
| RepoLayout3d.SpheresFollowPosts | app/github-repo/utils/layout3d.ts:81-99 | sphere i has post i's id, post, gallery colour, radius and timeline height |
| RepoLayout3d.SphereFor | app/github-repo/utils/layout3d.ts:81-99 | the sphere one post maps to; SpheresFollowPosts and SphereIsLocal state its fields |
| RepoLayout3d.EmptyLayout | app/github-repo/utils/layout3d.ts:78-81 | no posts give no spheres |
| RepoLayout3d.TimelineSpacing | app/github-repo/utils/layout3d.ts:83 | consecutive spheres are 0.6 apart on the timeline |
| RepoLayout3d.SphereIsLocal | app/github-repo/utils/layout3d.ts:81-100 | no state crosses posts: sphere i depends only on post i, its draws and the count |
| LlmService.ValidPosts | app/utils/llmService.ts:41 | at most 50 posts, each trimmed and non-empty |
| LlmService.ValidPostsOrder | app/utils/llmService.ts:41 | under the cap, normalisation distributes over concatenation |
| LlmService.ValidPostsIgnoresTail | app/utils/llmService.ts:41 | lines past the 50th are never looked at |
| LlmService.DropClosingFence | app/utils/llmService.ts:113-115 | exactly one closing fence at the very end is removed, otherwise nothing |
| LlmService.StripCodeFence | app/utils/llmService.ts:112-116 | the reassigning cleanup equals the fence specification |
| LlmService.UnfencedJsonFence | app/utils/llmService.ts:112-113 | a `json`-fenced body comes out bare |
| LlmService.UnfencedBareFence | app/utils/llmService.ts:114-115 | a bare-fenced body comes out bare |
| LlmService.UnfencedPlain | app/utils/llmService.ts:111-116 | unfenced content is untouched |
| LlmService.Unfenced | app/utils/llmService.ts:111-116 | the fence cleanup as a function; UnfencedJsonFence, UnfencedBareFence and UnfencedPlain state its cases |
| LlmService.CleanContent | app/utils/llmService.ts:76 | the trimmed reply with its fence removed; StripCodeFence proves the fence cleanup equal to Unfenced |
| LlmService.Align | app/utils/llmService.ts:129-144 | one record per valid post |
| LlmService.AlignByIndex | app/utils/llmService.ts:129-144 | record i has post i's text and index i, and the model's metrics i or the default (0, 1, other) |
| LlmService.AlignIgnoresExtra | app/utils/llmService.ts:129-134 | extra parsed entries are ignored |
| LlmService.EntryAt | app/utils/llmService.ts:130-134 | entry i when present, else the default; AlignByIndex states it per record |
| LlmService.AlignedPost | app/utils/llmService.ts:129-144 | record i of the success result; AlignByIndex states its fields |
| LlmService.LlmPostId | app/utils/llmService.ts:137 | the id `post-llm-i-now`, with `now` the clock reading for that entry |
| LlmService.AnalyzePostsWithLlm | app/utils/llmService.ts:38-150 | a request goes out exactly when a valid post exists; each failure gives its error; success aligns the parsed entries |
| LlmService.SuccessShape | app/utils/llmService.ts:129-144 | at most 50 records, each non-empty with its own index |
| PostAnalysis.ValidLines | app/github-repo/hooks/usePostAnalysis.ts:15-18 | the first (at most) 50 non-blank trimmed lines; exactly 50 when there are that many |
| PostAnalysis.ValidLinesOrder | app/github-repo/hooks/usePostAnalysis.ts:15-18 | under the cap, normalisation distributes over concatenation |
| PostAnalysis.FilterBeforeCap | app/github-repo/hooks/usePostAnalysis.ts:15-18 | filtering before the cap keeps a line after 50 blanks, which the main application's analyzer normalisation (cap, then filter) drops |
| PostAnalysis.ValidLinesStable | app/github-repo/hooks/usePostAnalysis.ts:15-18 | the main application's analyzer normalisation leaves the hook's lines as they are |
| PostAnalysis.FallbackPosts | app/github-repo/hooks/usePostAnalysis.ts:34-45 | one fallback record per valid line |
| PostAnalysis.FallbackByIndex | app/github-repo/hooks/usePostAnalysis.ts:34-45 | fallback record i has line i, index i and the rules' metrics for (line i, i) |
| PostAnalysis.FallbackId | app/github-repo/hooks/usePostAnalysis.ts:38 | the id `post-i-now` of a fallback record |
| PostAnalysis.FallbackPost | app/github-repo/hooks/usePostAnalysis.ts:34-45 | fallback record i; FallbackByIndex states its fields |
| PostAnalysis.PostAnalysisHook.AnalyzePosts | app/github-repo/hooks/usePostAnalysis.ts:10-49 | the analyzer is called exactly when there are valid lines; its result is returned, or the fallback with the error set; the flag ends false |
| PostAnalysis.FallbackShape | app/github-repo/hooks/usePostAnalysis.ts:34-45 | at most 50 fallback records, each trimmed and with its own index |
| PostAnalysis.PostAnalysisHook.constructor | app/github-repo/hooks/usePostAnalysis.ts:7-8 | not analysing, no error |
| MemoryStorage.LoadFrom | app/utils/memoryStorage.ts:13-21 | a missing slot or text `JSON.parse` rejects loads as empty, a saved one as its posts |
| MemoryStorage.Storage.constructor | app/utils/memoryStorage.ts:7 | a store, standing for `localStorage`, holding exactly the given slots |
| MemoryStorage.Without | app/utils/memoryStorage.ts:33 | no kept post has the id, and every kept post was there |
| MemoryStorage.WithoutAppend | app/utils/memoryStorage.ts:33 | the filter distributes over concatenation |
| MemoryStorage.WithoutKeepsOthers | app/utils/memoryStorage.ts:33 | every post with another id is kept |
| MemoryStorage.WithoutAbsent | app/utils/memoryStorage.ts:33 | deleting an absent id changes nothing |
| MemoryStorage.WithoutIdempotent | app/utils/memoryStorage.ts:33 | deleting twice equals deleting once |
| MemoryStorage.WithoutCommutes | app/utils/memoryStorage.ts:33 | deleting two ids in either order gives the same list |
| MemoryStorage.Storage.Save | app/utils/memoryStorage.ts:5-11 | an accepted save writes the key and loads back; a refused one changes nothing |
| MemoryStorage.Storage.Load | app/utils/memoryStorage.ts:13-21 | load returns the slot's posts or empty |
| MemoryStorage.Storage.Clear | app/utils/memoryStorage.ts:23-29 | the key is removed and loads as empty |
| MemoryStorage.Storage.DeleteMemory | app/utils/memoryStorage.ts:31-36 | returns the stored list without the id and saves it when the store accepts |
| MemoryStorage.SaveLoad | app/utils/memoryStorage.ts:5-21 | save then load is the identity, and other keys are untouched |
| MemoryStorage.DeleteLeavesNoId | app/utils/memoryStorage.ts:31-36 | after a delete no stored post has the id, and a second delete removes nothing |
| App.Ids | app/App.tsx:23-24 | one id per post or sphere, read with the same projection for both lists |
| App.IdsAt | app/App.tsx:23-24 | id i is entry i's id |
| App.IdsAppend | app/App.tsx:75-84 | the ids of a concatenation are the ids of its parts |
| App.AlignedIds | app/App.tsx:23-24 | aligned means the same length with sphere i carrying post i's id |
| App.LayoutAligned | app/utils/layout3d.ts:127-128 | a fresh layout is aligned with its posts: sphere i takes post i's id |
| App.AlignedAppend | app/App.tsx:72-84 | appending an aligned batch keeps the lists aligned |
| App.AppContent.constructor | app/App.tsx:22-25 | starts caged with no posts, spheres or dimensions |
| App.AppContent.LoadFromStorage | app/App.tsx:28-36 | a non-empty store becomes the posts, laid out, with dimensions, in the universe phase; else nothing changes |
| App.AppContent.Autosave | app/App.tsx:39-43 | the posts are saved only when there are some |
| App.AppContent.HandleGenerate | app/App.tsx:57-92 | a running analysis, a throw or an empty batch change nothing; otherwise the batch and its spheres are appended, in the analyzing phase, and alignment is kept |
| App.AppContent.Replace | app/App.tsx:31-33 | the given posts become the current posts, with their own fresh layout and dimensions; alignment holds; phase and UI flag are kept |
| App.AppContent.Accumulate | app/App.tsx:72-87 | the batch and its own layout are appended, dimensions cover all posts, phase becomes analyzing and the UI is shown; alignment is kept |
| App.AppContent.HandleDeleteMemory | app/App.tsx:94-107 | the stored list without the id replaces the posts, re-laid out; the last deletion returns to input |
| WhatIf.Combined | app/components/WhatIfStudio.tsx:23 | the draft follows the current posts |
| WhatIf.WhatIfStudio.constructor | app/components/WhatIfStudio.tsx:13-17 | an empty draft and no simulated dimensions |
| WhatIf.WhatIfStudio.SetDraft | app/components/WhatIfStudio.tsx:40 | the draft becomes the text and nothing else changes |
| WhatIf.WhatIfStudio.HandleSimulate | app/components/WhatIfStudio.tsx:20-26 | as intended, with the analysis awaited: a blank draft changes nothing; otherwise the dimensions of the posts plus the draft's first record are kept |
| WhatIf.FirstOfPending | app/components/WhatIfStudio.tsx:22 | `[0]` of a pending promise is `undefined`, never the first settled record |
| WhatIf.CombinedAsWritten | app/components/WhatIfStudio.tsx:23 | the current posts followed by a possibly `undefined` draft entry |
| WhatIf.DraftLostAsWritten | app/components/WhatIfStudio.tsx:22-24 | with an asynchronous analysis the combined list ends in `undefined`, holds only current posts, and differs from the intended list for every draft analysis |
| WhatIf.ShiftFor | app/components/WhatIfStudio.tsx:56-62 | the arrow points up exactly when the dimension grows; the percentage is the shift's magnitude times 100, so at least 0.5 when shown |
| WhatIf.ShiftReversed | app/components/WhatIfStudio.tsx:56-62 | swapping simulated and current keeps the percentage and whether a key is shown, and turns a non-zero arrow around |
| WhatIf.ShiftsOver | app/components/WhatIfStudio.tsx:55-66 | at most one row per key |
| WhatIf.ShiftsOverListed | app/components/WhatIfStudio.tsx:55-57 | a key has a row exactly when it is listed and its shift reaches 0.005 |
| WhatIf.ShiftsOverSound | app/components/WhatIfStudio.tsx:55-57 | every row is the row of a listed key that reaches the threshold |
| WhatIf.ShiftsOverEmpty | app/components/WhatIfStudio.tsx:57 | keys below the threshold give no rows |
| WhatIf.PredictedShiftListed | app/components/WhatIfStudio.tsx:55-57 | a dimension is listed exactly when its shift reaches the threshold |
| WhatIf.PredictedShifts | app/components/WhatIfStudio.tsx:55-66 | the rows over the five dimension keys; PredictedShiftListed states which appear |
| WhatIf.NoChangeNoShifts | app/components/WhatIfStudio.tsx:55-57 | no change lists nothing |
| WhatIf.ShiftPanel | app/components/WhatIfStudio.tsx:51 | the panel shows exactly when both dimension sets exist |
| PersonaDiff.DiffPanel | app/github-repo/components/PersonaDiffPanel.tsx:17-18 | no dimensions shows "no seeds", no target shows "no target", gaps only with both |
| PersonaDiff.RowsByKey | app/github-repo/components/PersonaDiffPanel.tsx:28-31 | row i is key i with the gap target minus current |
| PersonaDiff.RowFor | app/github-repo/components/PersonaDiffPanel.tsx:28-51 | the row of one key; RowsByKey, RowColours and GapAntisymmetric state its gap and colours |
| PersonaDiff.RowColours | app/github-repo/components/PersonaDiffPanel.tsx:32-51 | the bar is grey, yellow or lime exactly in the aligned, above and below cases; '+' exactly when the gap is positive |
| PersonaDiff.SelfComparisonAligned | app/github-repo/components/PersonaDiffPanel.tsx:32 | comparing dimensions with themselves aligns every row |
| PersonaDiff.GapAntisymmetric | app/github-repo/components/PersonaDiffPanel.tsx:31-51 | swapping current and target negates the gap and swaps yellow and lime |
| Insights.CountOf | app/github-repo/components/LanguageInsightsPanel.tsx:15-17 | a category count never exceeds the number of posts |
| Insights.ComputeInsights | app/github-repo/components/LanguageInsightsPanel.tsx:10-27 | the sequence of conditional pushes equals the insight specification |
| Insights.PushLaterNotes | app/github-repo/components/LanguageInsightsPanel.tsx:20-23 | the four later pushes append exactly the notes of the rules that fire, in rule order |
| Insights.Notes | app/github-repo/components/LanguageInsightsPanel.tsx:19-24 | the notes of the rules that fire, or "balanced" alone; NotesExact and NotesBalanced state them |
| Insights.InsightList | app/github-repo/components/LanguageInsightsPanel.tsx:10-27 | the notes for posts and dimensions; EachRuleAddsItsNote states them rule by rule |
| Insights.FrustrationNote | app/github-repo/components/LanguageInsightsPanel.tsx:19 | the frustration note with the rants' share when its rule fires; EachRuleAddsItsNote and FrustrationPercent state it |
| Insights.FiredExact | app/github-repo/components/LanguageInsightsPanel.tsx:20-23 | with distinct notes, a rule's note is pushed exactly when it fires, nothing else is pushed, and nothing twice |
| Insights.LaterNotesExact | app/github-repo/components/LanguageInsightsPanel.tsx:20-23 | each later note is present exactly when its rule fires, nothing else, at most four and at most three without achievement focus |
| Insights.NotesExact | app/github-repo/components/LanguageInsightsPanel.tsx:19-24 | frustration comes first exactly when it fires; each later note is present exactly when its rule fires; no note twice |
| Insights.NotesBalanced | app/github-repo/components/LanguageInsightsPanel.tsx:19-24 | "balanced" appears only alone, and exactly when no rule fires; one to five notes, four when frustration fires |
| Insights.EachRuleAddsItsNote | app/github-repo/components/LanguageInsightsPanel.tsx:19-23 | each rule's note is present exactly when its condition on the counts or dimensions holds; frustration first with the rants' share; no note twice |
| Insights.FrustrationExcludesAchievementFocus | app/github-repo/components/LanguageInsightsPanel.tsx:19-20 | the frustration and achievement-focus notes never both fire |
| Insights.InsightBounds | app/github-repo/components/LanguageInsightsPanel.tsx:19-24 | one to four notes; "balanced" only alone |
| Insights.BalancedIffQuiet | app/github-repo/components/LanguageInsightsPanel.tsx:19-24 | "balanced" exactly when no rule fires |
| Insights.NoInputNoNotes | app/github-repo/components/LanguageInsightsPanel.tsx:11 | no posts or no dimensions give no notes |
| Insights.CountOfAppend | app/github-repo/components/LanguageInsightsPanel.tsx:15-17 | counts add over concatenation |
| Insights.CountsBounded | app/github-repo/components/LanguageInsightsPanel.tsx:15-17 | the three counts together never exceed the number of posts |
| Insights.FrustrationPercent | app/github-repo/components/LanguageInsightsPanel.tsx:19 | the frustration percentage lies in (0, 100] |
| Insights.PercentWithinRange | app/github-repo/components/LanguageInsightsPanel.tsx:19 | a positive share of at most the whole lies in (0, 100] percent |
| BeliefStrands.Below | app/components/BeliefStrands.tsx:18 | the kept spheres are exactly the listed spheres below the threshold |
| BeliefStrands.BelowAppend | app/components/BeliefStrands.tsx:18 | the filter distributes over concatenation, so the order is kept |
| BeliefStrands.Above | app/components/BeliefStrands.tsx:19 | the kept spheres are exactly the listed spheres above the threshold |
| BeliefStrands.AboveAppend | app/components/BeliefStrands.tsx:19 | the filter distributes over concatenation, so the order is kept |
| BeliefStrands.FilterSingle | app/components/BeliefStrands.tsx:18-19 | one sphere is kept exactly when its height passes the test |
| BeliefStrands.ToStrands | app/components/BeliefStrands.tsx:26-45 | strand i has core memory i's id and colour |
| BeliefStrands.StrandsWith | app/components/BeliefStrands.tsx:15-46 | strands exist exactly when visible with a core and a self memory, and then they are one per core memory, in order |
| BeliefStrands.StrandsAsWritten | app/components/BeliefStrands.tsx:15-46 | the selection with the threshold -8 the source uses |
| BeliefStrands.Strands | app/components/BeliefStrands.tsx:15-46 | the selection with the bottom-level threshold -7.5 |
| BeliefStrands.BelowNone | app/components/BeliefStrands.tsx:18 | nothing is below a threshold no sphere goes under |
| BeliefStrands.LayoutFloor | app/utils/layout3d.ts:118-123 | every laid-out castle y is at least -8 |
| BeliefStrands.AsWrittenNeverStrands | app/components/BeliefStrands.tsx:18 | with the source's threshold a layout never yields a strand |
| BeliefStrands.BottomLevelMissedAsWritten | app/components/BeliefStrands.tsx:18-21 | a bottom-level and a self memory give no strand as written and one strand with the bottom-level selection |
| BeliefStrands.CoreIsBottomLevel | app/components/BeliefStrands.tsx:18 | with the bottom-level threshold a sphere is core exactly when it is first in its tower |
| BeliefStrands.FirstOfTowers | app/utils/layout3d.ts:108-119 | the spheres whose post is the first of its tower, in post order |
| BeliefStrands.BelowIsKeptWhere | app/components/BeliefStrands.tsx:18 | when a flag list marks exactly the spheres below -7.5, the filter keeps the flagged spheres, in order |
| BeliefStrands.CoreOfLayout | app/components/BeliefStrands.tsx:18 | with the bottom-level threshold, the core of a layout is exactly its first-of-tower spheres, in order |
| BeliefStrands.StrandsOfLayout | app/components/BeliefStrands.tsx:15-46 | with a self memory, the corrected strands of a layout are one per tower's first sphere, in order |
| BeliefStrands.CoreAndSelfDisjoint | app/components/BeliefStrands.tsx:18-19 | no sphere is both core and self |
| LlmProxy.EnvAfterNext | app/server/llm-proxy.js:15-28 | one more line applies its entry to the environment so far |
| LlmProxy.StripQuotes | app/server/llm-proxy.js:22-24 | the quote stripping; UnquotedKept and QuotesStripped state it |
| LlmProxy.ParseEnvLine | app/server/llm-proxy.js:16-24 | one line's entry: none for blank, comment or `=`-less lines; EnvValueMayContainEquals states a definition |
| LlmProxy.EnvFile | app/server/llm-proxy.js:11-29 | the variables after one optional file; LoadEnvFile and FirstDefinitionWins state it |
| LlmProxy.ProcessEnv.LoadEnvFile | app/server/llm-proxy.js:11-29 | the loop leaves the environment the file's entries give, and a missing file changes nothing |
| LlmProxy.ProcessEnv.Define | app/server/llm-proxy.js:25-27 | one line's definition is applied only when the variable is not set yet |
| LlmProxy.ProcessEnv.LoadStartupFiles | app/server/llm-proxy.js:31-32 | `.env.local` is loaded before `.env` |
| LlmProxy.EnvKeepsExisting | app/server/llm-proxy.js:25-27 | a variable already set is never overwritten |
| LlmProxy.EnvUndefinedStaysUnset | app/server/llm-proxy.js:25-27 | a key no line defines stays unset |
| LlmProxy.EnvKeepsFrom | app/server/llm-proxy.js:25-27 | once set, a key keeps its value for the rest of the file |
| LlmProxy.FirstDefinitionWins | app/server/llm-proxy.js:15-28 | an unset key takes the value of the first line defining it |
| LlmProxy.LocalFileWins | app/server/llm-proxy.js:31-32 | a key from `.env.local` survives loading `.env` |
| LlmProxy.EnvValueMayContainEquals | app/server/llm-proxy.js:18-21 | `key=value` parses to that entry, with later '=' signs kept in the value |
| LlmProxy.UnquotedKept | app/server/llm-proxy.js:22-24 | a value not starting with a quote is kept |
| LlmProxy.QuotesStripped | app/server/llm-proxy.js:22-24 | matching double or single quotes are stripped once |
| LlmProxy.ParseOrigins | app/server/llm-proxy.js:37-40 | every allowed origin is trimmed and non-empty |
| LlmProxy.OriginList | app/server/llm-proxy.js:38-40 | every listed origin is trimmed and non-empty |
| LlmProxy.OriginListRoundTrip | app/server/llm-proxy.js:37-40 | a comma-joined list of clean origins parses back to itself |
| LlmProxy.ParseOriginsDefault | app/server/llm-proxy.js:37 | an unset or empty setting means exactly `http://localhost:3000`; otherwise the setting's list |
| LlmProxy.DefaultOriginList | app/server/llm-proxy.js:37 | the default parses to itself alone |
| LlmProxy.SinglePieceList | app/server/llm-proxy.js:37-40 | a single clean origin parses to itself alone |
| LlmProxy.AllowedOriginRules | app/server/llm-proxy.js:43-47 | no origin is allowed; '*' allows all; otherwise membership decides, both ways |
| LlmProxy.IsAllowedOrigin | app/server/llm-proxy.js:43-47 | the origin test; AllowedOriginRules states its three cases |
| LlmProxy.Truthy | app/server/llm-proxy.js:36-37 | JavaScript truthiness of an optional string: present and non-empty, the test behind the defaults of lines 36-37 and `!origin`; ParseOriginsDefault and ConfigOf state its effect |
| LlmProxy.CorsRules | app/server/llm-proxy.js:49-56 | the allow-origin header is set exactly for a present, allowed origin; the other three are always set; other headers are kept |
| LlmProxy.WithCors | app/server/llm-proxy.js:49-56 | the headers after setCors; CorsRules states which are set |
| LlmProxy.Response.SetCors | app/server/llm-proxy.js:49-56 | the headers become the CORS headers; status and body are kept |
| LlmProxy.Response.Finish | app/server/llm-proxy.js:81-82 | status and body are set, headers are kept |
| LlmProxy.Concat | app/server/llm-proxy.js:72 | the body's length is the chunks' total size |
| LlmProxy.TotalSizeMonotone | app/server/llm-proxy.js:63 | the running size never decreases |
| LlmProxy.BodyOf | app/server/llm-proxy.js:58-74 | what readBody settles to; ReadBody is proved equal to it |
| LlmProxy.ReadBody | app/server/llm-proxy.js:58-74 | a body exactly when the total stays within the limit, and then all chunks in order |
| LlmProxy.UpstreamUrlAsWritten | app/server/llm-proxy.js:115 | the URL the handler forwards to: the base origin followed by the completions path |
| LlmProxy.UpstreamUrl | app/server/llm-proxy.js:115 | the intended URL, not used by the handler: it starts with the base origin and path and ends with the completions path |
| LlmProxy.UpstreamUrlDropsBasePath | app/server/llm-proxy.js:115 | as written, the base path is ignored, so the default base misses `/v1` |
| LlmProxy.Lookup | app/server/llm-proxy.js:35-41 | `process.env[key]`: present exactly when the variable is set, with its value |
| LlmProxy.ConfigOf | app/server/llm-proxy.js:35-41 | the key is set exactly when `OPENAI_API_KEY` is; the origins are those of `ALLOWED_ORIGINS`; a set base URL or body limit is parsed, an unset or empty one takes its default |
| LlmProxy.ApiKeyFromLocalFile | app/server/llm-proxy.js:25-35 | a key the environment lacks takes the first `.env.local` definition, whatever `.env` says |
| LlmProxy.EnvironmentOriginsWin | app/server/llm-proxy.js:25-37 | an origin list already in the environment is the one the handler uses, whatever the files say |
| LlmProxy.Decide | app/server/llm-proxy.js:76-134 | the handler's answer as a value; StatusPrecedence and ForwardOnlyWhenChecksPass state it |
| LlmProxy.StatusPrecedence | app/server/llm-proxy.js:76-112 | 204, 404, 403, 500 and 413 each happen when every earlier check passed and their own failed |
| LlmProxy.ChecksPass | app/server/llm-proxy.js:80-112 | route, origin, key and size checks all pass; ForwardOnlyWhenChecksPass shows forwarding happens exactly then |
| LlmProxy.ForwardOnlyWhenChecksPass | app/server/llm-proxy.js:105-133 | a request is forwarded exactly when every check passes, to the URL line 115 builds, with the key and the whole body decoded as UTF-8; 502 on a throw, else the upstream status |
| LlmProxy.DefaultConfigForwardsWithoutBasePath | app/server/llm-proxy.js:115 | with no base URL set, a forwarded request goes to `https://api.openai.com/chat/completions`, not the intended `/v1` URL |
| LlmProxy.Handle | app/server/llm-proxy.js:76-134 | the handler's status, body, headers and forwarded request are the decision's |

## Left out

- Rendering, React effects and batching, Three.js meshes, the curve geometry of the strands, animation phases beyond the state the handlers set, translations and the UI tabs.
- The main application's `app/types.ts`, `app/hooks/usePostAnalysis.ts`, `app/utils/personaDimensions.ts`, the gallery's `sentimentRules.ts` and `llmService.ts`, and `reference/color_palette.json` are not part of this model. Their results are parameters: `compute`, `rules`, `llm`, `analyzeFirst`, the hook's outcome. The main app's records are modelled by the gallery's `types.ts`, extended with the castle position.
- `Math.random()`, `Date.now()` and the trigonometric functions are parameters. Floating-point rounding is not modelled: numbers are exact reals.
- `fetch`, HTTP, `localStorage`, the file system, `JSON.parse`/`JSON.stringify`, `new URL` and `Number()` are parameters or already-parsed values. A rejected storage write is an `accepted` flag. The request prompt, the model name and the usage and cost logging are left out.
- The port setting of the relay is left out, and so is a `LLM_PROXY_MAX_BODY_BYTES` that `Number` does not turn into a whole number (a NaN limit would let every body through, because `size > NaN` is false). The limit is a natural number.
- LlmProxy.ConfigOf: `new URL` of the base and `Number` of the body limit are the parameters `parseBase` and `parseSize`; an invalid base URL, which makes `new URL` throw, is not modelled.
- LlmProxy.Decide: `toString('utf8')` of the body is the parameter `utf8`; the replacement of invalid UTF-8 sequences is left to it.
- `toFixed` formatting of percentages is left out. The model keeps the exact real value.
- ColorMapping: the classifiers return the emotion, not its palette entry, because the palette file is not modelled. `getAllEmotions` is a plain lookup of that file and is left out.
- ColorMapping.BlendEmotionColors: throws on an empty list in the source. The model requires a non-empty list instead of modelling the throw.
- WhatIf.WhatIfStudio.HandleSimulate: assumes the analysis returns its records synchronously, as the awaited result. Whether the main application's `usePostAnalysis` is `async` is not part of this model; the Findings row states the asynchronous case.
- `async`/`await`: an awaited call is modelled by its settled result, and a rejected promise by a `Failure` or a thrown-error flag. Interleaving of concurrent handlers is not modelled.
- MemoryStorage.LoadFrom: stored text that `JSON.parse` accepts but that is not an array of posts (`null`, `{}`) is not modelled; loadMemories would return that value as it is.
- LlmProxy.ReadBody: does not model `req.destroy()` or the request's `error` event. The stream is its list of chunks.

## Findings

| source | as written | input that shows it | evidently intended | confidence | as-written member | corrected member |
|---|---|---|---|---|---|---|
| app/components/BeliefStrands.tsx:18 | core memories are the spheres with castle y < -8 | any layout: every castle y is level × 0.8 - 8 + 0.5 × draw ≥ -8, so a first-of-tower sphere at y = -7.9 with a self sphere above 4 still gives no strand | core memories are the bottom level of each tower (y < -7.5) | high, not executed | BeliefStrands.AsWrittenNeverStrands | BeliefStrands.StrandsOfLayout |
| app/server/llm-proxy.js:115 | `new URL('/chat/completions', base)` | the default base `https://api.openai.com/v1` gives `https://api.openai.com/chat/completions` | the completions endpoint under the base path, `https://api.openai.com/v1/chat/completions` | high, not executed | LlmProxy.UpstreamUrlDropsBasePath | LlmProxy.UpstreamUrl |
| app/components/WhatIfStudio.tsx:22 | `analyzePosts([draft])[0]` without `await` | if the main app's hook is `async` like the gallery's (app/github-repo/hooks/usePostAnalysis.ts:10, awaited at app/App.tsx:62), any non-blank draft: `[0]` of the promise is `undefined`, so the combined list ends in `undefined` | `(await analyzePosts([draft]))[0]`, so the draft's record is appended | plausible, not executed | WhatIf.DraftLostAsWritten | WhatIf.WhatIfStudio.HandleSimulate |
