# Storyboard scene collection — a Dafny model

This project models the core of a storyboard-authoring web app: the hook that
owns one storyboard project (an ordered list of scenes, a `totalDuration` and
the id of the selected scene) and the five operations that change it — add,
update, delete, reorder and duplicate. Around it sit the record types of the
app, the asset library's mock search filter and the timeline's `m:ss`
formatter.

- `wrappers.dfy` — `Option`, for optional fields and for lookups that may find nothing.
- `types.dfy` (`StoryboardTypes`) — `Scene`, `SceneDraft` (a scene without `id`
  and `position`), `StoryboardProject`, `Asset`, `User`, and the closed tag sets
  (shot type, camera movement, lighting, user tier) with their string literals.
- `seqs.dfy` (`Seqs`) — the array operations the source uses: `filter`, `find`
  and the two-`splice` single-element move, with what they guarantee.
- `scene_list.dfy` (`SceneList`) — the pure parts of the hook: summing
  durations, renumbering positions, overlaying an update, removing by id, and
  the lemmas that these keep positions dense, ids unique and the total right.
- `storyboard.dfy` (`Storyboard`) — the class `StoryboardManager`. Its fields
  are the hook's state (`project`, `selectedScene`). `Valid()` is the invariant:
  position `i` at index `i`, distinct ids, `totalDuration` equal to the sum of
  durations, creation time not after the last update. Every method keeps it and
  states its whole new state. Reordering copies the scenes into an array and
  moves one element in place (`MoveInPlace`), as the source's `splice` calls do.
- `assets.dfy` (`Assets`) — the six catalogue assets, the search predicate, lookup by id and by tag.
- `timeline.dfy` (`Timeline`) — `formatTime` and a parser that inverts it.

Three behaviours of the hook worth stating:
- The hook clears the selection itself when the selected scene is deleted.
- `updatedAt` is bumped even when update or delete finds no scene.
- A duration may be 0.

## Model

| member | source | states |
|---|---|---|
| StoryboardTypes.ShotTypeName | src/types/storyboard.ts:10 | every shot type is written as one of the five literals |
| StoryboardTypes.ParseShotType | src/types/storyboard.ts:10 | exactly wide, medium, close, extreme-close and over-shoulder are shot types, and each reads back to its literal |
| StoryboardTypes.ShotTypeRoundTrip | src/types/storyboard.ts:10 | writing a shot type and reading it back gives the same value |
| StoryboardTypes.CameraMovementName | src/types/storyboard.ts:11 | every camera movement is written as one of the six literals |
| StoryboardTypes.ParseCameraMovement | src/types/storyboard.ts:11 | exactly static, pan, tilt, zoom, dolly and tracking are camera movements |
| StoryboardTypes.CameraMovementRoundTrip | src/types/storyboard.ts:11 | writing a camera movement and reading it back gives the same value |
| StoryboardTypes.LightingName | src/types/storyboard.ts:12 | every lighting style is written as one of the five literals |
| StoryboardTypes.ParseLighting | src/types/storyboard.ts:12 | exactly natural, dramatic, soft, harsh and silhouette are lighting styles |
| StoryboardTypes.LightingRoundTrip | src/types/storyboard.ts:12 | writing a lighting style and reading it back gives the same value |
| StoryboardTypes.UserTierName | src/types/storyboard.ts:49 | every tier is written as free, pro or enterprise |
| StoryboardTypes.ParseUserTier | src/types/storyboard.ts:49 | exactly free, pro and enterprise are tiers |
| StoryboardTypes.UserTierRoundTrip | src/types/storyboard.ts:49 | writing a tier and reading it back gives the same value |
| StoryboardTypes.FromDraft | src/types/storyboard.ts:45 | a draft completed with an id and a position has that id and position, and dropping them gives the draft back |
| StoryboardTypes.SceneFromOwnDraft | src/types/storyboard.ts:2-13 | a scene is exactly its draft part plus its id and position |
| Seqs.Filter | src/hooks/useStoryboard.ts:54 | the result holds exactly the elements passing the test, in their original order, each passing value as many times as in the input and every other value never |
| Seqs.FilterConcat | src/hooks/useStoryboard.ts:54 | filtering a concatenation filters each part |
| Seqs.FilterKeepsAll | src/hooks/useStoryboard.ts:54 | filtering a list whose elements all pass returns it unchanged |
| Seqs.FirstIndex | src/hooks/useStoryboard.ts:95 | the index found is the first one passing the test, or the length when none does |
| Seqs.Find | src/hooks/useStoryboard.ts:95 | nothing is found exactly when no element passes; otherwise the first passing element is returned |
| Seqs.MoveElement | src/hooks/useStoryboard.ts:77-79 | the moved element ends at the target index, the length is kept, and taking it out again leaves the others in their old relative order |
| Seqs.MoveElementAt | src/hooks/useStoryboard.ts:77-79 | index by index: the moved element lands at the target index and the elements strictly between the two indices shift by one |
| Seqs.MovePermutes | src/hooks/useStoryboard.ts:77-79 | a move is a permutation |
| Seqs.MoveExample | src/hooks/useStoryboard.ts:77-79 | moving index 0 to index 2 of [A,B,C,D] gives [B,C,A,D] (splice, not swap) |
| SceneList.TotalDuration | src/hooks/useStoryboard.ts:41 | the sum over the scenes: 0 for no scenes, and at least the duration of every scene |
| SceneList.TotalDurationConcat | src/hooks/useStoryboard.ts:28 | the total of two lists appended is the sum of their totals |
| SceneList.TotalDurationReplace | src/hooks/useStoryboard.ts:41 | replacing one scene changes the total by the difference of the two durations |
| SceneList.TotalDurationWithout | src/hooks/useStoryboard.ts:60 | taking one scene out lowers the total by its duration |
| SceneList.Renumber | src/hooks/useStoryboard.ts:55-58 | positions become 0..n-1 in list order and nothing else of any scene changes |
| SceneList.RenumberPreserves | src/hooks/useStoryboard.ts:55-60 | renumbering keeps the ids, their uniqueness and the total, and is the identity on a numbered list |
| SceneList.FindById | src/hooks/useStoryboard.ts:95 | nothing is found exactly when the id is absent; a found scene carries the id and belongs to the list |
| SceneList.ApplyUpdate | src/hooks/useStoryboard.ts:38 | each supplied field takes the supplied value, each other field and the id and position stay as they were |
| SceneList.ApplyUpdateIdempotent | src/hooks/useStoryboard.ts:38 | overlaying the same payload twice equals overlaying it once; the empty payload changes nothing |
| SceneList.UpdateById | src/hooks/useStoryboard.ts:37-39 | the length and order are kept, only scenes with the id are overlaid, ids, numbering and uniqueness are kept, and an unknown id changes nothing |
| SceneList.UpdateByIdTotal | src/hooks/useStoryboard.ts:37-41 | with unique ids exactly one scene is rewritten and the re-summed total moves by the change of its duration |
| SceneList.RemoveId | src/hooks/useStoryboard.ts:54 | exactly the scenes without the id remain, each as many times as before, in their order, and the id is gone |
| SceneList.RemoveAbsentId | src/hooks/useStoryboard.ts:54 | removing an absent id changes nothing |
| SceneList.RemoveIdAt | src/hooks/useStoryboard.ts:54 | with unique ids, removing the id of the scene at index k removes exactly that scene |
| SceneList.RemoveIdTotal | src/hooks/useStoryboard.ts:54-60 | removing a present id shortens the list by one, keeps ids unique and lowers the total by that scene's duration |
| SceneList.RemoveRenumberAt | src/hooks/useStoryboard.ts:54-60 | deleting the scene at index k and renumbering leaves one scene fewer, lowers the total by its duration, and puts every other scene, in order, at its new index |
| SceneList.RemoveIdKeepsUnique | src/hooks/useStoryboard.ts:54 | removing any id keeps the remaining ids unique |
| SceneList.MoveTotal | src/hooks/useStoryboard.ts:77-90 | a move keeps the total duration, which reorder does not recompute |
| SceneList.MoveIds | src/hooks/useStoryboard.ts:77-79 | a move keeps the set of ids and their uniqueness |
| SceneList.MoveRenumberPermutes | src/hooks/useStoryboard.ts:77-84 | moving then renumbering is a permutation of the scenes, positions aside |
| Storyboard.MoveInPlace | src/hooks/useStoryboard.ts:77-79 | shifting the array in place yields exactly the spliced sequence |
| Storyboard.StoryboardManager.constructor | src/hooks/useStoryboard.ts:6-16 | the initial project is empty with total 0 and nothing is selected |
| Storyboard.StoryboardManager.AddScene | src/hooks/useStoryboard.ts:18-33 | one scene is appended with every draft field, the fresh id and position equal to the old length; the total grows by the draft's duration; the id is returned; earlier scenes are unchanged |
| Storyboard.StoryboardManager.UpdateScene | src/hooks/useStoryboard.ts:35-50 | the scenes are overlaid by id and the total is the new sum; an unknown id keeps scenes and total |
| Storyboard.StoryboardManager.DeleteScene | src/hooks/useStoryboard.ts:52-73 | the scene is removed, the rest keep order and are renumbered, the total drops by its duration, and the selection is cleared exactly when it was that id |
| Storyboard.StoryboardManager.ReorderScenes | src/hooks/useStoryboard.ts:75-92 | the scenes are the splice-moved list renumbered, the moved scene sits at the target index, the contents are a permutation and the total is untouched |
| Storyboard.StoryboardManager.DuplicateScene | src/hooks/useStoryboard.ts:94-113 | an unknown id returns nothing and changes nothing; otherwise a copy titled with " (Copy)" under a fresh id is appended at the end, the total grows by its duration and the id is returned |
| Storyboard.StoryboardManager.AddScenes | src/pages/Index.tsx:45-48 | a batch of drafts is appended one after the other, each at the next position |
| Storyboard.StoryboardManager.SetSelectedScene | src/hooks/useStoryboard.ts:16 | the selection is replaced and the project is untouched |
| Storyboard.StoryboardManager.SetTitle | src/pages/Index.tsx:41-43 | only the title changes (and the clock advances); scenes and total are untouched |
| Storyboard.StaleBatchBreaksNumbering | src/pages/Index.tsx:45-48 | adding two or more drafts with the count captured before the batch gives equal positions |
| Storyboard.AppendDraftsStale | src/pages/Index.tsx:45-48 | the batch as written: the old scenes are kept and draft k becomes the scene after them with its fields and id, but at the position equal to the old length |
| Storyboard.AppendDrafts | src/hooks/useStoryboard.ts:18-30 | draft k of a batch becomes the scene at index old length + k with its id and fields, and numbering is kept |
| Assets.LowerChar | src/hooks/useAssets.ts:85 | no upper-case ASCII letter is left; the result is the character or its other case, and anything but an upper-case letter is kept |
| Assets.LowerCharIdempotent | src/hooks/useAssets.ts:85 | lower-casing a character twice is lower-casing it once |
| Assets.LowerCharSameIff | src/hooks/useAssets.ts:85 | two characters lower-case alike exactly when they are equal or the two cases of one ASCII letter |
| Assets.Lower | src/hooks/useAssets.ts:85-86 | the length is kept, no upper-case ASCII letter is left, and every character is kept up to case |
| Assets.LowerIdempotent | src/hooks/useAssets.ts:85-86 | lower-casing twice is lower-casing once |
| Assets.LowerSameIff | src/hooks/useAssets.ts:85-86 | two strings lower-case alike exactly when they have equal length and agree position by position up to ASCII case |
| Assets.Includes | src/hooks/useAssets.ts:85-86 | a contained string is no longer than the text, and a prefix of the text is contained |
| Assets.TrimStart | src/hooks/useAssets.ts:81 | only leading white space is dropped: the result is a suffix, everything before it is white space, and it is empty or starts with a non-white-space character |
| Assets.TrimEnd | src/hooks/useAssets.ts:81 | only trailing white space is dropped: the result is a prefix, everything after it is white space, and it is empty or ends with a non-white-space character |
| Assets.IsBlank | src/hooks/useAssets.ts:81 | the trimmed query is empty exactly when every character of the query is white space |
| Assets.MatchesQuery | src/hooks/useAssets.ts:84-87 | the empty query matches every asset, and a match needs the title or some tag to be at least as long as the query |
| Assets.IncludesIff | src/hooks/useAssets.ts:85-86 | `includes` holds exactly when the query is a prefix of some suffix of the text |
| Assets.MatchesQueryIgnoresCase | src/hooks/useAssets.ts:85-86 | the search predicate does not depend on the case of the query |
| Assets.SearchNatureExample | src/hooks/useAssets.ts:84-87 | "Nature" finds the two catalogue assets tagged "nature" |
| Assets.SearchAssets | src/hooks/useAssets.ts:81-88 | a blank query yields the whole catalogue; any other yields exactly the assets whose lower-cased title or some lower-cased tag contains the lower-cased query, as a subsequence of the catalogue |
| Assets.AssetById | src/hooks/useAssets.ts:94-96 | none exactly when no asset has the id; otherwise the first asset with it |
| Assets.AssetsByTag | src/hooks/useAssets.ts:98-100 | exactly the assets whose tag list contains the tag, each as many times as in the list, in order |
| Timeline.DigitChar | src/components/Timeline.tsx:24 | a digit value is written as the matching digit character |
| Timeline.LeadingZero | src/components/Timeline.tsx:24 | a leading zero does not change a digit string's value |
| Timeline.NatToString | src/components/Timeline.tsx:24 | the decimal rendering is non-empty, all digits, without a leading zero, and reads back as the number |
| Timeline.PadStart2 | src/components/Timeline.tsx:24 | short strings get zeros in front up to two characters, longer ones are kept |
| Timeline.FormatTime | src/components/Timeline.tsx:21-25 | the result is minutes, a colon and two digits; the minutes read `seconds div 60` and have no leading zero, and the two digits read `seconds mod 60` |
| Timeline.ParseTime | src/components/Timeline.tsx:21-25 | only strings that end in a colon and two characters can be read |
| Timeline.FormatTimeRoundTrip | src/components/Timeline.tsx:21-25 | minutes times 60 plus seconds read back from the rendering equal the input |
| Timeline.FormatTimeZero | src/components/Timeline.tsx:21-25 | zero seconds render as "0:00" |

The same formula is written inline at src/pages/Index.tsx:153; `FormatTime` models both.

## Findings

| source | as written | input that shows it | evidently intended | confidence | as-written member | corrected member |
|---|---|---|---|---|---|---|
| src/pages/Index.tsx:45-48 with src/hooks/useStoryboard.ts:22 | each `addScene` of one batch takes its position from the scene count captured when the handler was created, so every scene of the batch gets the same position | any batch of two drafts from the script generator added to a storyboard of n scenes: both get position n | draft k of the batch gets position n + k, as single adds do | medium, not executed | Storyboard.StaleBatchBreaksNumbering | Storyboard.AppendDrafts |

The manager class uses the corrected behaviour: `AddScenes` adds one draft after the other against the current state.
The positions are repaired by the next delete or reorder, which renumber the whole list.

## Left out

- Id generation (`Date.now()` and `Math.random()`) is not modelled. `AddScene`, `DuplicateScene` and `AddScenes` take the new id as a parameter, and their precondition says it is not in use.
- Wall-clock timestamps are a logical clock: `createdAt` starts at 0 and each mutation increases `updatedAt`.
- Stale React closures in the hook are not modelled. `addScene` and `duplicateScene` read `project` from the render, which is older than the `prev` they append to; the model uses one current state. The batch-add consequence is under Findings.
- Storyboard.StoryboardManager.ReorderScenes requires both indices in range. Its only caller passes indices found in the list. JavaScript `splice` with a bad index would insert `undefined`.
- The update payload holds only the fields callers send: the editor's seven fields and `imageUrl`. `Partial<Scene>` would also allow changing `id` or `position`.
- The raw `setProject` setter is modelled only as the title change (`SetTitle`).
- Storyboard.StoryboardManager.DuplicateScene: the copy is appended at the end, as the source does. The source's closure could find the scene in an older list; that is not modelled.
- Durations and the seconds given to `formatTime` are unbounded non-negative integers. Fractional and negative values are not modelled. An emptied duration field stores `Number("")`, which is 0 and so is covered. The editor's 1..300 bounds are only an HTML hint and are not modelled either.
- JavaScript numbers are doubles: integers are exact only below 2^53, and `toString` switches to exponent form from 1e21 on. `TotalDuration` and `NatToString` are unbounded and do not model either limit.
- Assets.LowerChar lower-cases ASCII letters only, while JavaScript `toLowerCase` folds all of Unicode.
- The asynchronous side of `searchAssets` is not modelled: the 800 ms delay, the `loading` and `searchQuery` flags, and races between overlapping searches. Only the result it stores is modelled.
- `getAssetById` and `getAssetsByTag` run on the hook's current `assets` state. The model takes that list as a parameter.
- Rendering, drag-and-drop sensors, toasts, the timeline's floating-point widths (`getSceneWidth`), the mock script generator and styling are not modelled.
