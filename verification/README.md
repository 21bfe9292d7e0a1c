# MusicCount core, modelled in Dafny

MusicCount is an iOS app that shows play counts from the user's music
library. Three pieces of it are plain logic, and they are what this project
models:

- **Duplicate suggestions** (`SuggestionsService`, `Suggestion`). Songs are
  filed under a key built from the lower-cased, trimmed title and artist.
  Every key holding two songs or more becomes a `Suggestion`, whose songs are
  sorted by ascending play count. A set of string keys records dismissals:
  `<key>-ENTIRE_GROUP` hides a group and `<key>-<songId>` hides one of its
  songs. The set is mirrored in user defaults. The visible list is
  recomputed on every read: dismissed groups and songs are dropped, groups
  left with fewer than two songs are dropped, and the rest are ordered by
  widest play-count gap first.
- **Sort options** (`SortOption`). There are eight (field, direction)
  cases. Each has an id, labels, an SF Symbol name and a stable sort.
- **Comparison arithmetic** (`ComparisonView`). This covers:
  - which of two songs is selected for queueing;
  - how many copies "Match Mode" and "Add Mode" queue, and when each is
    disabled;
  - the label for the selected song;
  - the summary line.

Files, one module each:

| file | module | contents |
|---|---|---|
| `wrappers.dfy` | `Wrappers` | `Option` |
| `text.dfy` | `Text` | ASCII lower-casing, whitespace trimming, the key normalization, decimal rendering and parsing of integers |
| `sorting.dfy` | `Sorting` | strict weak orders, a stable insertion sort with its ordering, permutation and stability lemmas |
| `grouping.dfy` | `Grouping` | the dictionary-of-buckets loop, order-keeping `filter` and `compactMap` |
| `songs.dfy` | `Songs` | `SongInfo` as `Song`, the play-count orders |
| `suggestion.dfy` | `Suggestions` | `Suggestion` and its computed properties |
| `suggestions_service.dfy` | `SuggestionsService` | keys, `analyzeSongs`, `activeSuggestions`, the dismissal mutators, load/save |
| `sort_option.dfy` | `SortOptions` | `SortOption` |
| `comparison.dfy` | `Comparison` | the non-UI computed properties of `ComparisonView` |

Modelling choices:

- **Functional state.** The service is a value: `Service(allSuggestions, dismissedKeys, store)`. Each mutating method is a function that returns the next value.
- **Persisted copy.** The user-defaults record is the `store` field, of type `Persisted`:
  - `Missing` when no record is stored;
  - `Strings(keys)` for a stored string array;
  - `OtherValue` for a record of any other type.
- **Dictionary order.** Swift does not specify the iteration order of the key-to-bucket dictionary in `analyzeSongs`. It is a parameter `order`, required to list every key exactly once.
- **Suggestion ids.** The UUIDs drawn for new suggestions are a parameter `ids`. The suggestion built for the `i`-th kept key takes `ids[i]`.
- **Collation.** `localizedStandardCompare` is a parameter `collate`. It is assumed to satisfy `IsCollation`:
  - swapping the operands swaps the answer;
  - every string compares the same as itself;
  - "not after" is transitive.

  Together these make it a total preorder.
- **Sort stability.** `Array.sorted(by:)` is modelled as a stable insertion sort.

## Model

Source paths are relative to the repository root.

| member | source | states |
|---|---|---|
| `Suggestions.MakeSuggestion` | MusicCountPackage/Sources/MusicCountFeature/Suggestion.swift:10-16 | Construction needs two songs or more. The result keeps exactly the given id, title, artist and songs. |
| `Suggestions.LowestIndex` | MusicCountPackage/Sources/MusicCountFeature/Suggestion.swift:18-21 | The `min(by:)` scan picks a song with no more plays than any other. Every earlier song has strictly more plays, so on ties the first minimum wins. |
| `Suggestions.HighestIndex` | MusicCountPackage/Sources/MusicCountFeature/Suggestion.swift:23-26 | The `max(by:)` scan picks a song with no fewer plays than any other. Every later song has strictly fewer plays, so on ties the last maximum wins. |
| `Suggestions.LowestPlayCount` | MusicCountPackage/Sources/MusicCountFeature/Suggestion.swift:18 | `lowestPlayCount` is a member with a play count ≤ every member's. |
| `Suggestions.HighestPlayCount` | MusicCountPackage/Sources/MusicCountFeature/Suggestion.swift:23 | `highestPlayCount` is a member with a play count ≥ every member's. |
| `Suggestions.PlayCountDifference` | MusicCountPackage/Sources/MusicCountFeature/Suggestion.swift:28-30 | The gap is ≥ 0. It bounds the spread of every pair of members and equals the spread of some pair. It is 0 exactly when all members share one play count. |
| `Suggestions.DifferenceExamples` | MusicCountPackage/Tests/MusicCountFeatureTests/SuggestionTests.swift:85-96 | Play counts [5, 15, 25, 35] give a gap of 30, and [25, 25] give 0. |
| `Suggestions.VersionCount` | MusicCountPackage/Sources/MusicCountFeature/Suggestion.swift:32-34 | The text ends in " versions". What comes before that parses back to the number of songs and has no leading zero. |
| `Suggestions.CanDismissIndividualSongs` | MusicCountPackage/Sources/MusicCountFeature/Suggestion.swift:36-38 | True exactly when removing any one member still leaves the two members a group needs. |
| `Suggestions.UpdateSongs` | MusicCountPackage/Sources/MusicCountFeature/Suggestion.swift:40-43 | Needs two new songs or more. It replaces the songs and keeps the id, title and artist. |
| `Suggestions.DistinctIdsDistinctSuggestions` | MusicCountPackage/Tests/MusicCountFeatureTests/SuggestionTests.swift:146-170 | Equality includes the id, so groups that differ only in id are unequal. |
| `Songs.PlayCountOrdersAreStrictWeak` | MusicCountPackage/Sources/MusicCountFeature/SuggestionsService.swift:60 | "Fewer plays" and "more plays" are strict weak orders, as `sorted(by:)` requires. |
| `Text.Normalize` | MusicCountPackage/Sources/MusicCountFeature/SuggestionsService.swift:90-96 | `normalizeTitle` and `normalizeArtist`: the result has no upper-case letter and no whitespace at either end. |
| `Text.NormalizeIdempotent` | MusicCountPackage/Sources/MusicCountFeature/SuggestionsService.swift:94-96 | Normalizing twice is normalizing once. |
| `Text.NormalizeOfNormal` | MusicCountPackage/Sources/MusicCountFeature/SuggestionsService.swift:91 | A string is its own normalization exactly when it is lower-case and trimmed. |
| `Text.PlainIsNormal` | MusicCountPackage/Sources/MusicCountFeature/SuggestionsService.swift:91 | A string of lower-case letters, digits and dashes is its own normalization. |
| `Text.NormalizeIgnoresCaseAndPadding` | MusicCountPackage/Sources/MusicCountFeature/SuggestionsService.swift:90-96 | Two strings that agree once lower-cased have the same key, whatever whitespace pads either end. |
| `Text.TrimIgnoresPadding` | MusicCountPackage/Sources/MusicCountFeature/SuggestionsService.swift:95 | Padding with whitespace on either side does not change the trimmed result. |
| `Text.ParseNatToString` | MusicCountPackage/Sources/MusicCountFeature/Suggestion.swift:33 | The decimal rendering of a count parses back to that count. |
| `Text.NatToStringInjective` | MusicCountPackage/Sources/MusicCountFeature/SuggestionsService.swift:72 | Different ids render to different decimal strings. |
| `Grouping.Bucket` | MusicCountPackage/Sources/MusicCountFeature/SuggestionsService.swift:46-48 | Every element of a bucket has that key, and a bucket holds exactly the input elements with that key. |
| `Grouping.BucketIsFilter` | MusicCountPackage/Sources/MusicCountFeature/SuggestionsService.swift:46-48 | A bucket is the input filtered by its key, so it holds each such element as often as it occurs, in input order. |
| `Grouping.BuildBuckets` | MusicCountPackage/Sources/MusicCountFeature/SuggestionsService.swift:44-49 | The append loop's dictionary has a key exactly when its bucket is non-empty, and maps each key to that bucket in input order. |
| `Grouping.Filter` | MusicCountPackage/Sources/MusicCountFeature/SuggestionsService.swift:27-29 | `filter` keeps exactly the elements that pass, and never grows the sequence. |
| `Grouping.FilterCounts` | MusicCountPackage/Sources/MusicCountFeature/SuggestionsService.swift:27-29 | Each passing element occurs in the result as often as in the input; a failing one does not occur. |
| `Grouping.FilterAppend` | MusicCountPackage/Sources/MusicCountFeature/SuggestionsService.swift:27-29 | Filtering a concatenation filters each part and concatenates, so the input order is kept. |
| `Grouping.FilterKeepsOrder` | MusicCountPackage/Sources/MusicCountFeature/SuggestionsService.swift:27-29 | A sequence sorted by any order stays sorted after filtering. |
| `Grouping.FilterDropsOne` | MusicCountPackage/Sources/MusicCountFeature/SuggestionsService.swift:27 | A filter that rejects only the element at `k` removes that element and keeps the rest in order. |
| `Grouping.FilterMap` | MusicCountPackage/Sources/MusicCountFeature/SuggestionsService.swift:18 | `compactMap` yields exactly the present results, and never grows the sequence. |
| `Grouping.FilterMapAppend` | MusicCountPackage/Sources/MusicCountFeature/SuggestionsService.swift:18 | `compactMap` of a concatenation is the concatenation of the parts' results, so the input order is kept. |
| `Grouping.FilterMapSingle` | MusicCountPackage/Sources/MusicCountFeature/SuggestionsService.swift:18 | On one element, `compactMap` yields that element's result if present and nothing otherwise. |
| `Sorting.SortSorted` | MusicCountPackage/Sources/MusicCountFeature/SuggestionsService.swift:38 | Under a strict weak order, no element of the sorted output is strictly before an earlier one. |
| `Sorting.SortStable` | MusicCountPackage/Sources/MusicCountFeature/SuggestionsService.swift:59-60 | Elements tied with any `x` come out in their input order. |
| `Sorting.SortKeepsMembers` | MusicCountPackage/Sources/MusicCountFeature/SortOption.swift:34 | Sorting neither adds nor loses elements. |
| `SuggestionsService.GroupKey` | MusicCountPackage/Sources/MusicCountFeature/SuggestionsService.swift:47 | The key is the normalized title, then a dash, then the normalized artist. |
| `SuggestionsService.GroupKeyIsLowered` | MusicCountPackage/Sources/MusicCountFeature/SuggestionsService.swift:47 | No key holds an upper-case letter. |
| `SuggestionsService.GroupKeyOfNormalized` | MusicCountPackage/Sources/MusicCountFeature/SuggestionsService.swift:47 | Normalizing the title and artist first gives the same key. |
| `SuggestionsService.GroupDismissalKey` | MusicCountPackage/Sources/MusicCountFeature/SuggestionsService.swift:22 | The whole-group key is the group key and a dash, followed by text that does not parse as a number. |
| `SuggestionsService.SongDismissalKey` | MusicCountPackage/Sources/MusicCountFeature/SuggestionsService.swift:28 | A song key is the group key and a dash, followed by text that parses back to the song's id. |
| `SuggestionsService.SongDismissalKeyInjective` | MusicCountPackage/Sources/MusicCountFeature/SuggestionsService.swift:72 | Within one group, two song keys are equal exactly when the ids are. |
| `SuggestionsService.SongKeyIsNotGroupKey` | MusicCountPackage/Sources/MusicCountFeature/SuggestionsService.swift:79 | Within one group, no song key is the whole-group key. |
| `SuggestionsService.DashesCanMergeKeys` | MusicCountPackage/Sources/MusicCountFeature/SuggestionsService.swift:47 | The key does not keep title and artist apart: "a-b" by "c" and "a" by "b-c" share a bucket. |
| `SuggestionsService.SongKeyCanSpellGroupKey` | MusicCountPackage/Sources/MusicCountFeature/SuggestionsService.swift:72 | Song 1's key in group ("a", "b") is the group key of ("a", "b-1"). |
| `SuggestionsService.PaddedTitlesShareKey` | MusicCountPackage/Tests/MusicCountFeatureTests/SuggestionsServiceTests.swift:90-100 | "Hello " and " Hello" by "Adele" share one key. |
| `SuggestionsService.CasedNamesShareKey` | MusicCountPackage/Tests/MusicCountFeatureTests/SuggestionsServiceTests.swift:210-235 | "Hello" by "Adele" and "hello" by "ADELE" share one key. |
| `SuggestionsService.GroupFor` | MusicCountPackage/Sources/MusicCountFeature/SuggestionsService.swift:53-66 | For a bucket of two songs or more, the suggestion is filed under that key with the given id. It takes its title and artist from the bucket's first song. Its songs are a permutation of the bucket, sorted by ascending plays, with ties in bucket order. |
| `SuggestionsService.GroupsFrom` | MusicCountPackage/Sources/MusicCountFeature/SuggestionsService.swift:52-67 | One suggestion per kept key, in order. The `i`-th has the `i`-th key and id and is the suggestion for its bucket. |
| `SuggestionsService.AnalyzedKeys` | MusicCountPackage/Sources/MusicCountFeature/SuggestionsService.swift:52-53 | Only keys whose bucket has two songs or more survive the guard. |
| `SuggestionsService.AnalyzedKeysComplete` | MusicCountPackage/Sources/MusicCountFeature/SuggestionsService.swift:44-53 | Every bucket of two songs or more keeps its key, and no key appears twice. |
| `SuggestionsService.Analyze` | MusicCountPackage/Sources/MusicCountFeature/SuggestionsService.swift:51-67 | Every suggestion produced is the suggestion for its bucket and carries the id drawn for it. |
| `SuggestionsService.AnalyzeOneGroupPerBucket` | MusicCountPackage/Sources/MusicCountFeature/SuggestionsService.swift:42-67 | A key gets a suggestion exactly when its bucket has two songs or more, and no two suggestions share a key. |
| `SuggestionsService.AnalyzeEmpty` | MusicCountPackage/Tests/MusicCountFeatureTests/SuggestionsServiceTests.swift:83-88 | No songs give no suggestions. |
| `SuggestionsService.Kept` | MusicCountPackage/Sources/MusicCountFeature/SuggestionsService.swift:27-29 | The kept songs are exactly the members whose song key is not dismissed. Members sorted by ascending plays stay sorted. |
| `SuggestionsService.KeptCounts` | MusicCountPackage/Sources/MusicCountFeature/SuggestionsService.swift:27-29 | A member that is not dismissed keeps all its copies, and a dismissed one keeps none. |
| `SuggestionsService.KeptAppend` | MusicCountPackage/Sources/MusicCountFeature/SuggestionsService.swift:27-29 | Dropping dismissed members works song by song, so the rest keep their order. |
| `SuggestionsService.Prune` | MusicCountPackage/Sources/MusicCountFeature/SuggestionsService.swift:19-36 | A group survives exactly when its group key is not dismissed and two songs or more are kept. A survivor keeps its id, title and artist and holds exactly the kept songs, still sorted by ascending plays if the group was. |
| `SuggestionsService.Survivors` | MusicCountPackage/Sources/MusicCountFeature/SuggestionsService.swift:17-37 | The result is exactly the pruned survivors of the stored groups, and never longer than the stored list. |
| `SuggestionsService.SurvivorsAppend` | MusicCountPackage/Sources/MusicCountFeature/SuggestionsService.swift:17-37 | A group appended to the stored list appears at the end of the survivors exactly when it survives pruning, so the survivors keep the stored order. |
| `SuggestionsService.WiderGapIsStrictWeak` | MusicCountPackage/Sources/MusicCountFeature/SuggestionsService.swift:38 | The "wider gap" predicate is a strict weak order. |
| `SuggestionsService.Active` | MusicCountPackage/Sources/MusicCountFeature/SuggestionsService.swift:16-39 | The visible groups are the survivors, each as often as it survives, in non-increasing order of play-count gap. |
| `SuggestionsService.ActiveRespectsDismissals` | MusicCountPackage/Sources/MusicCountFeature/SuggestionsService.swift:21-29 | A visible group has no dismissed group key and no dismissed song. It comes from a stored group with the same id and key, holding that group's kept songs. |
| `SuggestionsService.GroupDismissalHides` | MusicCountPackage/Sources/MusicCountFeature/SuggestionsService.swift:22-24 | A dismissed group key hides every group filed under it. |
| `SuggestionsService.KeptNone` | MusicCountPackage/Sources/MusicCountFeature/SuggestionsService.swift:27-29 | With nothing dismissed, every song is kept, in order. |
| `SuggestionsService.SurvivorsWithoutDismissals` | MusicCountPackage/Sources/MusicCountFeature/SuggestionsService.swift:17-37 | With nothing dismissed, every stored group survives unchanged and in order. |
| `SuggestionsService.ActiveWithoutDismissals` | MusicCountPackage/Sources/MusicCountFeature/SuggestionsService.swift:16-38 | With nothing dismissed, the visible groups are exactly the stored ones. |
| `SuggestionsService.KeptDropsOne` | MusicCountPackage/Sources/MusicCountFeature/SuggestionsService.swift:26-29 | In a group with nothing dismissed and distinct ids, adding one song's key removes exactly that song. |
| `SuggestionsService.DismissOneMember` | MusicCountPackage/Tests/MusicCountFeatureTests/SuggestionsServiceTests.swift:155-172 | Dismissing one song of an untouched group keeps the group exactly when it can dismiss individual songs (more than two). The group then shows the other songs in order. |
| `SuggestionsService.DismissTwoOfThree` | MusicCountPackage/Tests/MusicCountFeatureTests/SuggestionsServiceTests.swift:174-190 | Dismissing two songs of a three-song group removes it from view. |
| `SuggestionsService.Load` | MusicCountPackage/Sources/MusicCountFeature/SuggestionsService.swift:98-102 | A stored string array becomes the set. A missing or mistyped record leaves it empty. |
| `SuggestionsService.Save` | MusicCountPackage/Sources/MusicCountFeature/SuggestionsService.swift:104-106 | Loading what was saved gives back the saved set. |
| `SuggestionsService.Init` | MusicCountPackage/Sources/MusicCountFeature/SuggestionsService.swift:7-13 | The service starts with no suggestions and the stored dismissals, in sync with the store. |
| `SuggestionsService.AnalyzeSongs` | MusicCountPackage/Sources/MusicCountFeature/SuggestionsService.swift:42-68 | The suggestions are replaced wholesale: one per bucket of two songs or more, none for other keys, no key twice. Dismissals and the store are untouched. |
| `SuggestionsService.ActiveSuggestions` | MusicCountPackage/Sources/MusicCountFeature/SuggestionsService.swift:16-39 | The visible groups are the surviving stored groups, each as often as it survives, widest gap first. |
| `SuggestionsService.DismissSong` | MusicCountPackage/Sources/MusicCountFeature/SuggestionsService.swift:71-75 | Adds exactly one song key and leaves the other keys and the suggestions alone. The store then equals the new set. |
| `SuggestionsService.DismissEntireGroup` | MusicCountPackage/Sources/MusicCountFeature/SuggestionsService.swift:78-82 | Adds exactly the group key and leaves the other keys and the suggestions alone. The store then equals the new set. |
| `SuggestionsService.ResetDismissals` | MusicCountPackage/Sources/MusicCountFeature/SuggestionsService.swift:85-88 | Empties the set and removes the stored record. The two stay in sync. |
| `SuggestionsService.DismissIdempotent` | MusicCountPackage/Sources/MusicCountFeature/SuggestionsService.swift:71-82 | Repeating a dismissal changes nothing. |
| `SuggestionsService.ResetRestoresAll` | MusicCountPackage/Tests/MusicCountFeatureTests/SuggestionsServiceTests.swift:192-206 | After a reset, exactly the stored groups are visible, each as often as it is stored, all of them with all their songs. |
| `SuggestionsService.DismissEntireGroupHides` | MusicCountPackage/Tests/MusicCountFeatureTests/SuggestionsServiceTests.swift:140-153 | Dismissing a group under any spelling with the same key hides every group with that key. |
| `SortOptions.AllCasesComplete` | MusicCountPackage/Sources/MusicCountFeature/SortOption.swift:4-12 | `allCases` lists every option exactly once. |
| `SortOptions.FieldAndDirectionDetermineCase` | MusicCountPackage/Sources/MusicCountFeature/SortOption.swift:5-12 | Two options are equal exactly when field and direction are. |
| `SortOptions.RawValue` | MusicCountPackage/Sources/MusicCountFeature/SortOption.swift:5-12 | Each raw value is the field's camel-case name followed by "Ascending" or "Descending". |
| `SortOptions.Id` | MusicCountPackage/Sources/MusicCountFeature/SortOption.swift:14 | The id is a raw value that names this option back. |
| `SortOptions.FromRawValue` | MusicCountPackage/Sources/MusicCountFeature/SortOption.swift:4-12 | A string that names an option is that option's raw value. |
| `SortOptions.RawValueRoundTrip` | MusicCountPackage/Sources/MusicCountFeature/SortOption.swift:5-13 | Each raw value names its own option. |
| `SortOptions.RawValuesDistinct` | MusicCountPackage/Tests/MusicCountFeatureTests/SortOptionTests.swift:170-182 | The eight raw values, and so the ids, are pairwise distinct. |
| `SortOptions.DisplayName` | MusicCountPackage/Sources/MusicCountFeature/SortOption.swift:17-28 | The display name is non-empty. |
| `SortOptions.ShortLabel` | MusicCountPackage/Sources/MusicCountFeature/SortOption.swift:53-64 | The short label is non-empty. |
| `SortOptions.LabelsFollowField` | MusicCountPackage/Sources/MusicCountFeature/SortOption.swift:17-64 | The short label equals the display name. Two options share a display name exactly when they share a field, whatever the direction. |
| `SortOptions.Icon` | MusicCountPackage/Sources/MusicCountFeature/SortOption.swift:67-75 | The icon is "arrow.down.circle" for the four descending cases and "arrow.up.circle" for the others, followed by ".fill" exactly when selected. |
| `SortOptions.Before` | MusicCountPackage/Sources/MusicCountFeature/SortOption.swift:31-50 | Under the collation laws, `b` is strictly before `a` exactly when `a` may not precede `b` by the option's field and direction. |
| `SortOptions.DescendingSwapsOperands` | MusicCountPackage/Sources/MusicCountFeature/SortOption.swift:33-48 | Each descending predicate is its ascending twin's with the operands swapped. |
| `SortOptions.PrecedesIsStrictWeak` | MusicCountPackage/Sources/MusicCountFeature/SortOption.swift:38 | Under the collation laws, "compares ascending" is a strict weak order. |
| `SortOptions.BeforeOnText` | MusicCountPackage/Sources/MusicCountFeature/SortOption.swift:37-48 | A text option's predicate compares the option's field, with the operands swapped for descending. |
| `SortOptions.BeforeIsStrictWeak` | MusicCountPackage/Sources/MusicCountFeature/SortOption.swift:31-50 | Every option's predicate is a strict weak order. |
| `SortOptions.NotBeforeMeansMayPrecede` | MusicCountPackage/Sources/MusicCountFeature/SortOption.swift:33-48 | `b` is not strictly before `a` exactly when `a` may precede `b` by field and direction. |
| `SortOptions.Sorted` | MusicCountPackage/Sources/MusicCountFeature/SortOption.swift:31-50 | `sorted` returns a permutation of its input: same length, same multiset. |
| `SortOptions.SortedIsOrdered` | MusicCountPackage/Sources/MusicCountFeature/SortOption.swift:32-49 | The output is ordered by the option's field and direction. For play count: non-decreasing when ascending, non-increasing when descending. For text: by the collation. |
| `SortOptions.SortedIsStable` | MusicCountPackage/Tests/MusicCountFeatureTests/SortOptionTests.swift:115-126 | Songs with equal keys keep their input order. |
| `SortOptions.SortedOfShort` | MusicCountPackage/Tests/MusicCountFeatureTests/SortOptionTests.swift:99-113 | Empty and one-song lists come back unchanged. |
| `SortOptions.DescendingIsNotReversedAscending` | MusicCountPackage/Sources/MusicCountFeature/SortOption.swift:33-36 | Descending is not the ascending result reversed: two songs with equal counts keep their order both ways. |
| `Comparison.DefaultSelection` | MusicCountPackage/Sources/MusicCountFeature/ComparisonView.swift:89-94 | There is no default selection exactly when the play counts are equal. Otherwise it is the song with strictly fewer plays. |
| `Comparison.Open` | MusicCountPackage/Sources/MusicCountFeature/ComparisonView.swift:87-94 | After the `.task`, a view of two distinct songs is valid: any selection is one of the two. |
| `Comparison.SelectedSong` | MusicCountPackage/Sources/MusicCountFeature/ComparisonView.swift:343-345 | `selectedSong` is the selection when there is one. Otherwise it is a song with the fewest plays, song 1 on a tie. |
| `Comparison.OtherSong` | MusicCountPackage/Sources/MusicCountFeature/ComparisonView.swift:347-349 | `otherSong` is one of the two songs. In a valid view its id differs from the selected song's, and it is song 2 exactly when song 1 is selected. |
| `Comparison.SelectSong` | MusicCountPackage/Sources/MusicCountFeature/ComparisonView.swift:363-366 | A tap makes the tapped song the selected song and keeps the view valid. |
| `Comparison.SelectingPicksTheOther` | MusicCountPackage/Sources/MusicCountFeature/ComparisonView.swift:343-366 | After tapping either song, the other song is the untapped one. |
| `Comparison.MatchPlaysNeeded` | MusicCountPackage/Sources/MusicCountFeature/ComparisonView.swift:401 | The selected song's plays plus the number needed equal the other song's plays; the number may be zero or negative. |
| `Comparison.IsMatchModeDisabled` | MusicCountPackage/Sources/MusicCountFeature/ComparisonView.swift:402 | Disabled exactly when nothing is selected or the selected song has at least as many plays as the other. |
| `Comparison.MatchModeRequest` | MusicCountPackage/Sources/MusicCountFeature/ComparisonView.swift:401-405 | Match Mode is disabled exactly when nothing is selected or the selected song has at least as many plays. Otherwise it queues a positive count of the selected song that brings it to the other song's play count. |
| `Comparison.AddModeTargetPlays` | MusicCountPackage/Sources/MusicCountFeature/ComparisonView.swift:455 | The number of copies is the play count of the song that is not selected. |
| `Comparison.IsAddModeDisabled` | MusicCountPackage/Sources/MusicCountFeature/ComparisonView.swift:456 | Disabled exactly when nothing is selected or the song not selected has no plays. |
| `Comparison.AddModeRequest` | MusicCountPackage/Sources/MusicCountFeature/ComparisonView.swift:455-459 | Add Mode is disabled exactly when nothing is selected or the other song has no plays. Otherwise it queues the other song's play count, for a total of both counts. |
| `Comparison.MatchAfterDefaultSelection` | MusicCountPackage/Sources/MusicCountFeature/ComparisonView.swift:401-439 | With unequal counts and the default selection, Match Mode is enabled. It queues the gap on the song with fewer plays. |
| `Comparison.EqualCountsStartDisabled` | MusicCountPackage/Sources/MusicCountFeature/ComparisonView.swift:89-91 | With equal counts, nothing is selected and both buttons start disabled. |
| `Comparison.SelectedSongLabel` | MusicCountPackage/Sources/MusicCountFeature/ComparisonView.swift:351-361 | The label starts with the selected title. It has a suffix exactly when both lower-cased titles and both lower-cased artists agree. The suffix is " (Song 1)" exactly when song 1 is selected, and " (Song 2)" otherwise. |
| `Comparison.Difference` | MusicCountPackage/Sources/MusicCountFeature/ComparisonView.swift:303-305 | Song 2's plays plus the difference equal song 1's; it is zero exactly when the counts are equal. |
| `Comparison.WinnerText` | MusicCountPackage/Sources/MusicCountFeature/ComparisonView.swift:303-313 | The text names song 1 exactly when it has more plays, and song 2 otherwise. The number in it parses back to the size of the gap and has no leading zero. |
| `Comparison.Summary` | MusicCountPackage/Sources/MusicCountFeature/ComparisonView.swift:115-124 | The summary is the equal-count message exactly when the counts are equal. Otherwise it is the winner text. |

Two behaviours worth noting; the model follows the code:

- **Ties for the highest song.** `highestPlayCount` uses `max(by:)`, which keeps scanning past equal elements, so on ties it returns the last member with the most plays, not the first. The tests only check the play count, which is the same either way.
- **Keys can collide.** The `"-"` separator does not keep title and artist apart: `DashesCanMergeKeys` shows two different title and artist pairs that share one bucket and so one group key.
- **Song keys can spell group keys.** `SongKeyCanSpellGroupKey` shows that a song's dismissal key can equal another pair's bare group key. This does no harm: a bare group key is never an entry of the dismissal set, because every entry ends in `-ENTIRE_GROUP` or in `-` and a decimal id. Within one group, `SongDismissalKeyInjective` and `SongKeyIsNotGroupKey` keep those entries apart.

## Left out

- UserDefaults I/O: the stored record is the `store` field, and reading and writing it are the pure `Load` and `Save`.
- Swift `Dictionary` iteration order in `analyzeSongs`: it is the parameter `order`. So the order of `allSuggestions` is whatever the parameter says, and so is the order of equal-gap groups in the visible list.
- UUID generation: the ids are the parameter `ids`.
- Unicode behaviour of `lowercased()` and `trimmingCharacters(in:)`:
  - lower-casing maps only the ASCII letters A–Z;
  - trimming treats as whitespace the ASCII whitespace characters plus U+0085, U+00A0, U+1680, U+2000–U+200A, U+2028, U+2029, U+202F, U+205F and U+3000;
  - `Lower` therefore does not model case mappings outside ASCII.
- Unicode canonical equivalence: Swift compares `String` values by canonical equivalence for `==`, for `Dictionary` keys and for `Set` membership, so "é" written as U+00E9 and as "e" followed by U+0301 are equal there. The model's `string`, `map` and `set` compare code point by code point instead. This affects `SuggestionsService.GroupKey` and the buckets of `Grouping.BuildBuckets` and `SuggestionsService.Analyze`, the dismissal lookups in `SuggestionsService.Prune`, and the name test `SameNames` behind `Comparison.SelectedSongLabel`: songs that differ only in normalization form fall into separate buckets and do not match each other's dismissal keys.
- `localizedStandardCompare`: a parameter assumed to be a total preorder, as `IsCollation` states. Its actual locale rules are not modelled.
- Sort stability: Swift does not document whether `sorted(by:)` is stable. The model assumes it is, since the grouping relies on a stable order for equal play counts.
- Integer widths:
  - play counts are `nat`; Swift's `Int` play counts are never negative in practice;
  - differences are `int` without 64-bit overflow, since sums of two play counts stay far below `Int.max`;
  - song ids are bounded to `UInt64` by a subset type.
- `SongInfo` fields the core does not read: `duration`, artwork, and derived formatting such as `formattedDuration`.
- `ratioText` and `barWidth` in `ComparisonView`: both use `Double`/`CGFloat` arithmetic and format strings.
- `isSong1Selected` and `isSong2Selected`: they only choose the highlight of a card.
- SwiftUI layout, animation, alerts and the tooltip flags set by `selectSong`.
- The caption strings of the two queue buttons: the counts they show are the ones `MatchModeRequest` and `AddModeRequest` state.
- `MusicLibraryService` (MediaPlayer queries and authorization) and `AppleMusicQueueService` (the player queue) are not part of this model. The queue service receives the song and count that `MatchModeRequest` and `AddModeRequest` compute.
- `SortOptions.DisplayName`: its own contract states only that the name is non-empty. That it depends on the field alone is stated by `LabelsFollowField`.
- `SortOptions.ShortLabel`: its own contract states only that the label is non-empty. `LabelsFollowField` relates it to the display name.
