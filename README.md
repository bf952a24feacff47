# K-pop line distribution: the group page's selection and aggregation logic

This project models the bookkeeping behind the group page of a line-distribution viewer. A group
page shows the group's songs, grouped by release date, each with a checkbox. Next to the list is
a chart of how the lines are shared among the group's members. The logic lives in
`app/src/Group.js`, and it has three parts:

- **Load** (`initializeState`):
  - Builds the song store, keyed by song url, with every song checked.
  - Builds the roster's color-to-name table.
  - Folds over every loaded song. Each song's `line_distribution` is re-keyed from artist name to
    color through that song's own artist list, then summed per color, counting only colors that
    are in the roster.
  - Re-keys the totals from color back to the roster's names. The result, together with the
    roster, becomes the chart record `currSong`.
- **Toggle** (`handleChange`): copies the store with one song's `checked` flag flipped.
- **Grouping** (`groupedSongs`): partitions the store's songs by release date. A missing or empty
  date falls back to "Unknown Release Date". Songs keep their store order within a group, and the
  dates keep the order in which they first appear.

How the model is built:

- **JavaScript objects** are `JsObject.Dict`: the own keys in definition order, plus a map from
  key to value.
  - `o[k] = v` is `Set`. An existing key keeps its place and a new key goes last.
  - `Object.fromEntries` is `FromEntries`. A repeated key keeps the place of its first occurrence
    and the value of its last.
  - `Object.values` and `Object.entries` are `Values` and `Entries`.
  - Every object the page builds is proved `WellFormed`: each key is listed once, and a key is
    listed exactly when it has a value.
- **Reading a missing key** gives `undefined`. The page then uses that value as a key in
  `color in colorMap`, which JavaScript reads as the key "undefined". The model does the same
  through `KeyOf`.
- **Operations that mutate an accumulator in place** are methods with loops, proved against the
  fold functions that specify them:
  - the per-song `forEach` is `Aggregation.CreditEntries`, called by `Aggregation.AddSong`;
  - the `reduce` is `Aggregation.TotalLineDistribution`;
  - the grouping `reduce` with its `push` is `Grouping.GroupedSongs`.
- **Pure steps** are functions, each modelling these lines of `app/src/Group.js`:
  - `Songs.Load`: the store built at lines 40-42;
  - `Songs.Toggle`: the state update at lines 32-35;
  - `Aggregation.ColorMap`: the roster's color-to-name table at lines 46-48;
  - `Aggregation.NameToColor`: a song's name-to-color table at lines 51-53;
  - `Aggregation.AddEntries`: the `forEach` at lines 55-60, one `Credit` per entry;
  - `Aggregation.Totals`: the `reduce` at lines 50-63;
  - `Aggregation.Rekey`: the re-keyed distribution at lines 66-71;
  - `Grouping.DateKey`: the date key at line 79;
  - `Grouping.AddToGroup`: one step of the grouping `reduce` at lines 80-81;
  - `Grouping.Grouped`: the grouping `reduce` at lines 78-83.
- **React state**: `initializeState` returns the three new state values (`songs`, `artists` and
  `currSong`) instead of calling the React setters.
- **Reference definitions**: the meaning of the totals is stated separately by `CreditedTotal`.
  - For one color, `ColorTotal` is the sum, over the loaded songs, of the values of every name that
    the song's own artist list gives that color.
  - The code also files the values of names missing from a song's artist list under the key
    "undefined". These are summed by `UnknownTotal`.
  - `CreditedTotal` is `ColorTotal`, plus `UnknownTotal` for the color "undefined" only.
  - For every roster color, the fold is proved equal to `CreditedTotal`.

Behaviour of the code that the model keeps as it is:

- Toggling a url that is not in the store reads `.checked` of `undefined`, so the code throws.
  The model returns `Err(TypeError(url))`.
- The chart total is computed once, at load. Toggles never recompute it, so unchecking a song
  later does not remove that song's lines from the chart. A toggle changes only the store and
  the grouping derived from it.
- The chart uses the roster passed in with the songs.
- Loading no songs gives a chart whose distribution is empty.

## Model

| member | source | states |
|---|---|---|
| JsObject.FromEntriesKeys | app/src/Group.js:40-42 | `Object.fromEntries` defines exactly the keys of its entries, each once, in order of first occurrence, and gives a well-formed object |
| JsObject.FromEntriesValue | app/src/Group.js:46-48 | each key of `Object.fromEntries` holds the value of the last entry with that key |
| JsObject.ValuesOfSpec | app/src/Group.js:50 | `Object.values` of an object lists the value of each key, one per key, in key order |
| JsObject.EntriesOfSpec | app/src/Group.js:55 | `Object.entries` of an object pairs each key, in key order, with its value |
| JsObject.SetWellFormed | app/src/Group.js:58 | assigning a property keeps an object well-formed |
| JsObject.FirstOccurrencesSpec | app/src/Group.js:40-42 | the key order of an object built by repeated assignment lists each key once, ordered by first assignment |
| Songs.LoadSpec | app/src/Group.js:40-42 | the store has one entry per distinct url of the input, in order of first appearance; each entry is the last input song with that url, filed under its own url, checked and otherwise unchanged |
| Songs.Toggle | app/src/Group.js:31-36 | succeeds exactly when the url is in the store, and otherwise fails with a TypeError for that url; on success it flips that song's `checked`, leaves its other fields and every other song unchanged, and keeps the key set and key order |
| Songs.ToggleTwice | app/src/Group.js:32-35 | toggling the same url twice gives back the original store |
| Songs.ToggleCommutes | app/src/Group.js:32-35 | toggles of two stored urls give the same store in either order |
| Songs.ToggleKeepsKeyedByUrl | app/src/Group.js:34 | a toggle never files a song under another url |
| Songs.ToggleValues | app/src/Group.js:32-35 | after a toggle, `Object.values` of the store lists the same songs in the same order, with only the toggled song's flag flipped |
| Aggregation.ArtistColorSpec | app/src/Group.js:51-56 | a song's name-to-color table gives a name a color exactly when the song lists an artist with that name, and the color is that of the last such artist |
| Aggregation.ColorMapSpec | app/src/Group.js:46-48 | the roster's color table is well-formed and has exactly the roster's colors, each naming a roster artist with that color |
| Aggregation.ColorMapOfArtist | app/src/Group.js:46-48 | each artist's color is in the table, and with distinct roster colors it names that artist |
| Aggregation.ColorMapInjective | app/src/Group.js:46-48 | with distinct roster names, only an artist's own color maps to that artist's name |
| Aggregation.CreditKeys | app/src/Group.js:57-59 | one entry adds a key to the totals exactly when its color is a roster color |
| Aggregation.AddEntriesValue | app/src/Group.js:55-60 | the per-song `forEach` adds to a roster color exactly the values of the names that the song's artist list gives that color, plus, for the color "undefined", the values of the names the list does not know; non-roster colors gain nothing |
| Aggregation.AddEntriesKeys | app/src/Group.js:55-60 | after the per-song `forEach`, a color is a key exactly when it was a key before, or it is a roster color that some entry is credited to |
| Aggregation.AddEntriesWithin | app/src/Group.js:55-60 | the per-song `forEach` adds no key other than roster colors |
| Aggregation.AddEntriesWellFormed | app/src/Group.js:55-60 | the per-song `forEach` keeps the totals object well-formed |
| Aggregation.TotalsValue | app/src/Group.js:50-63 | the `reduce` total of a roster color is the sum over all songs of what each song's own artist list credits to it, plus, for "undefined", the values of the names the lists do not know; any other color has no total |
| Aggregation.TotalsStepKeys | app/src/Group.js:50-63 | one more song adds to the totals' keys exactly the roster colors that song credits |
| Aggregation.TotalsCredited | app/src/Group.js:50-63 | the totals have a key for a color exactly when it is a roster color credited by one of the songs, counted song by song |
| Aggregation.TotalsKeys | app/src/Group.js:50-63 | the totals have a key for a color exactly when it is a roster color that some song credits |
| Aggregation.TotalsWellFormed | app/src/Group.js:50-63 | the totals object is well-formed |
| Aggregation.TotalsWithinRoster | app/src/Group.js:56-59 | every key of the totals is a roster color; every other contribution is dropped |
| Aggregation.UnknownNameCountsAsUndefined | app/src/Group.js:56-57 | for one song whose distribution has a single name, missing from its artist list, and a roster with the color "undefined", the totals are exactly that name's value under "undefined" |
| Aggregation.CreditEntries | app/src/Group.js:55-60 | the in-place `forEach` loop computes the per-song fold, and adds no key outside the old keys and the roster colors |
| Aggregation.AddSong | app/src/Group.js:51-61 | the `reduce` callback builds the song's name-to-color table and runs the `forEach`; its result is the per-song fold, with no key outside the old keys and the roster colors |
| Aggregation.TotalLineDistribution | app/src/Group.js:50-63 | the in-place `reduce` loop computes the totals fold; its keys are roster colors, and each roster color holds everything the songs credit to it, including for "undefined" the values of unknown names |
| Aggregation.RenamedSpec | app/src/Group.js:67-70 | the renamed entries pair each color of the totals, in key order, with its roster name and total |
| Aggregation.RekeyNames | app/src/Group.js:66-71 | the chart distribution names only roster artists |
| Aggregation.RekeyArtist | app/src/Group.js:66-71 | with a roster of distinct colors and names, an artist is in the chart exactly when the artist's color is in the totals, and the artist's value is that color's total |
| Aggregation.EmptyLoadGivesEmptyChart | app/src/Group.js:39-74 | loading no songs gives a chart distribution that is empty |
| Aggregation.InitializeState | app/src/Group.js:39-74 | the new store is the load of the input, the roster is kept as given, the chart names only roster artists, and loading no songs gives an empty chart distribution; with distinct roster colors and names, an artist is in the chart exactly when some loaded song credits the artist's color, and then holds everything the loaded songs credit to that color |
| Grouping.SongsOnMembers | app/src/Group.js:78-83 | a song is among the songs of a date exactly when it is one of the songs and its date key is that date |
| Grouping.GroupedKeys | app/src/Group.js:78-83 | the groups object is well-formed and has one group per distinct date key, in order of first appearance |
| Grouping.GroupedValues | app/src/Group.js:78-83 | each group holds exactly the songs with that date key, in input order |
| Grouping.AddToGroupSize | app/src/Group.js:79-81 | pushing one song onto its date's group adds one to the total group size |
| Grouping.GroupedSizes | app/src/Group.js:78-83 | the group sizes add up to the number of songs |
| Grouping.EachSongInOneGroup | app/src/Group.js:78-83 | every song is in the group of its own date key and in no other group |
| Grouping.GroupOrder | app/src/Group.js:78-83 | the groups are listed in order of the first appearance of their date key |
| Grouping.ToggleKeepsGroups | app/src/Group.js:77-84 | the grouping recomputed after a toggle has the same dates in the same order |
| Grouping.GroupedSongs | app/src/Group.js:77-84 | the in-place `reduce` loop computes the grouping fold; the result is well-formed, has a group exactly for each date key, each group holds that date's songs in store order, and the sizes add up to the number of songs |

## Left out

- The network fetch of the group data (`app/src/Group.js:14-28`) and the top-level fetch of
  `app/src/Home.js` are I/O against an external API. The fetched songs and roster are the
  parameters of `InitializeState`.
- React state hooks, memoisation, the rendered JSX (`app/src/Group.js:86-122`) and the label
  click that shows a single song's chart (`app/src/Group.js:98`) are UI plumbing. Each state
  update is a returned value instead.
- `app/src/App.js` (routing only), `app/src/Home.js` (a rendered list) and `app/src/Graph.js` are
  not part of this model. `Graph.js` is a chart wrapper: its percentage labels are floating-point
  and its ordering uses the library sort.
- Key order: JavaScript lists integer-like keys (such as "2019") first, in numeric order, before
  other keys. The model keeps plain definition order, so a release date that is a bare year is
  not moved to the front.
- Properties inherited from `Object.prototype`: when any key is named "toString",
  "constructor" or another such name, the code sees an inherited property. The model treats
  every such name as an ordinary missing key. This covers:
  - colors (`color in colorMap`);
  - dates (`!acc[date]`);
  - toggle urls (`prev["toString"].checked` does not throw);
  - line-distribution names (`nameToColor["toString"]` is a function, not `undefined`).
- `Number(value)` is taken to be the identity on integer line counts. Floating-point values,
  numeric strings and `NaN` are not modelled.
- A song without `line_distribution` or `artists` makes the code throw. Every modelled `Song`
  has both.
- Aggregation.RekeyArtist: states the chart value only for rosters with distinct colors and
  distinct names.
  - If two roster artists share a name, the chart shows under that name the total of whichever
    of their colors comes last in the totals' key order, not the sum of both.
  - If two share a color, the color table keeps only the last of them. The earlier artist never
    appears in the chart.
- Aggregation.InitializeState: states the per-artist chart value only for rosters with distinct
  colors and names, for the reasons given for `RekeyArtist`. For any roster it states only that
  the chart names roster artists.
