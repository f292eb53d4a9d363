# Soil proctor lab desktop app: verified model of its core

This project models the logic of a Kotlin/Compose desktop dashboard. The
dashboard manages "soil proctor" material-testing records. Five parts carry
behaviour that can be stated precisely:

- **Split-pane divider** (`split_pane.dfy`, module `SplitPane`). When a drag
  starts, the divider remembers the current split fraction and the extent of
  its pointer-input region (`this.size`) along the split axis. On each drag event it computes
  `(dragStartExtent * initialFraction + 0.5 * dragAmount) / currentExtent`,
  clamps the result to `[0.1, 0.9]` and reports it. It reports nothing when the
  current extent is not positive. The vertical and the horizontal pane share
  one class, `DividerDrag`, parameterised by the axis. Sizes and fractions are
  exact reals.
- **Record type and sample data** (`soil_proctor_model.dfy`, module
  `SoilProctorModel`). This is the ten-field `SoilProctor` record and the
  constant five-record list.
- **List view-model** (`materials_testing_lab_view_model.dfy`, module
  `MaterialsTestingLab`). It holds the fixed record list, the selected
  record and the search query. A blank query shows the whole list. Any other
  query is lower-cased but not trimmed, and keeps the records whose lower-cased
  project name or sample id contains it.
- **Detail view-model** (`soil_proctor_detail_view_model.dfy`, module
  `SoilProctorDetail`). It has three fields: the displayed record, a loading
  flag and an error message. `loadProctor` finds a record by id. On a miss it
  sets a not-found message and keeps the record it already had.
- **Settings store** (`settings_manager.dfy`, module `Settings`). The
  `Properties` table is a `map<string, string>`. The settings file is a ghost
  snapshot, and every setter saves it. A Kotlin `Float` is modelled as its
  32-bit pattern. The text conversions `toFloat`/`toString` are a pair of
  functions handed to the store.

Two helper modules support these:

- `kotlin_text.dfy` (module `KotlinText`) covers `isBlank`, `lowercase` and
  `contains` from the Kotlin standard library.
- `wrappers.dfy` provides `Option`, which stands for Kotlin's nullable types.

Three details of the divider code matter here:

- The code divides by the extent of the pointer-input region (`this.size`)
  at the time of the event, not by the extent captured at drag start.
- The code tests that current extent for positivity.
- `dragAmount` is the amount that one `onDrag` call receives. A source comment
  calls it "cumulative", but nothing accumulates it, so each report depends
  only on the latest event's amount.

## Model

| member | source | states |
|---|---|---|
| `SplitPane.CoerceIn` | composeApp/src/desktopMain/kotlin/ui/components/SplitPane.kt:74-75 | `coerceIn` always returns a value within `[min, max]`. It returns a value already inside unchanged, and returns the nearer bound for one outside. |
| `SplitPane.UnclampedFraction` | composeApp/src/desktopMain/kotlin/ui/components/SplitPane.kt:66-73 | Before clamping, the new fraction times the current extent is the divider's pixel position at drag start plus half the drag amount. |
| `SplitPane.DragReport` | composeApp/src/desktopMain/kotlin/ui/components/SplitPane.kt:62-77 | A drag event reports a fraction exactly when the current extent is positive, so there is never a division by zero. A reported fraction is always within `[0.1, 0.9]`. |
| `SplitPane.SameExtentShift` | composeApp/src/desktopMain/kotlin/ui/components/SplitPane.kt:66-73 | With equal start and current extents, the unclamped fraction is `initialFraction + dragAmount / (2 * extent)`, and the report is that value clamped. |
| `SplitPane.DampingHalvesMovement` | composeApp/src/desktopMain/kotlin/ui/components/SplitPane.kt:68-73 | The damping factor is exactly one half. The undamped fraction exceeds the damped one by exactly `dragAmount / (2 * extent)`, so for a positive drag the damped fraction is strictly smaller. |
| `SplitPane.ZeroDragKeepsFraction` | composeApp/src/desktopMain/kotlin/ui/components/SplitPane.kt:66-75 | A zero drag on an unchanged pane reports the starting fraction, provided that fraction is within the bounds. |
| `SplitPane.DragReportMonotone` | composeApp/src/desktopMain/kotlin/ui/components/SplitPane.kt:66-75 | A larger drag amount never reports a smaller fraction. |
| `SplitPane.TestScenarios` | composeApp/src/desktopTest/kotlin/ui/components/SplitPaneTest.kt:21-183 | These are the test cases, in exact arithmetic (SplitPaneTest.kt:21-43, 71-93 and 152-183). (0.5, 1000, 100) and (0.5, 800, 80) give 0.55. From 0.5 on 1000 px, ±500 gives 0.75 and 0.25, and ±1000 is clamped to 0.9 and 0.1. |
| `SplitPane.HorizontalIsTransposedVertical` | composeApp/src/desktopMain/kotlin/ui/components/SplitPane.kt:127-149 | The horizontal divider computes the vertical divider's function with x and y, and width and height, exchanged. |
| `SplitPane.DividerDrag.constructor` | composeApp/src/desktopMain/kotlin/ui/components/SplitPane.kt:53-55 | The pointer-input block starts with `initialFraction` equal to the pane's `splitFraction` and a start extent of 0. |
| `SplitPane.DividerDrag.OnDragStart` | composeApp/src/desktopMain/kotlin/ui/components/SplitPane.kt:58-61 | `onDragStart` sets `initialFraction` to `splitFraction` and records the extent along the axis. These are the only writes to those two variables. |
| `SplitPane.DividerDrag.OnDrag` | composeApp/src/desktopMain/kotlin/ui/components/SplitPane.kt:62-77 | `onDrag` changes no state. It reports a value through `onSplitChanged` exactly when the extent is positive, and that value lies within `[0.1, 0.9]` and equals `DragReport` of the captured state. |
| `SoilProctorModel.SampleDataShape` | composeApp/src/desktopMain/kotlin/ui/features/materialsTesting/lab/SoilProctorModel.kt:23-84 | The sample list has exactly five records, with ids SP001 to SP005 in order. |
| `SoilProctorModel.SampleIdsDistinct` | composeApp/src/desktopMain/kotlin/ui/features/materialsTesting/lab/SoilProctorModel.kt:25-73 | No two sample records share an id. |
| `SoilProctorModel.SampleStatusesKnown` | composeApp/src/desktopMain/kotlin/ui/features/materialsTesting/lab/SoilProctorModel.kt:34-82 | Every sample status is "Completed", "In Progress" or "Pending Review". |
| `SoilProctorModel.HighwayRecords` | composeApp/src/desktopMain/kotlin/ui/features/materialsTesting/lab/SoilProctorModel.kt:26-62 | Exactly the first and the fourth record have the project name "Highway 101 Expansion". |
| `KotlinText.IsBlank` | composeApp/src/desktopMain/kotlin/ui/features/materialsTesting/lab/MaterialsTestingLabViewModel.kt:53 | `isBlank` holds exactly when every character of the text is whitespace in the JVM's sense, so the empty text is blank. |
| `KotlinText.Lower` | composeApp/src/desktopMain/kotlin/ui/features/materialsTesting/lab/MaterialsTestingLabViewModel.kt:57 | `lowercase` keeps the length and lower-cases each character in place. |
| `KotlinText.Contains` | composeApp/src/desktopMain/kotlin/ui/features/materialsTesting/lab/MaterialsTestingLabViewModel.kt:59-60 | `contains` holds exactly when the text occurs at some index, which is the plain definition of a substring. |
| `KotlinText.BlankIffLowerBlank` | composeApp/src/desktopMain/kotlin/ui/features/materialsTesting/lab/MaterialsTestingLabViewModel.kt:53-57 | Lower-casing a query neither makes it blank nor makes it non-blank. |
| `MaterialsTestingLab.Matches` | composeApp/src/desktopMain/kotlin/ui/features/materialsTesting/lab/MaterialsTestingLabViewModel.kt:59-60 | A record matches exactly when the lower-cased query occurs at some index of the lower-cased project name or of the lower-cased sample id. |
| `MaterialsTestingLab.FilterMatching` | composeApp/src/desktopMain/kotlin/ui/features/materialsTesting/lab/MaterialsTestingLabViewModel.kt:58-61 | The result is sound: every record in it matches. It is complete: every matching record is in it. It keeps the list's order as a subsequence, and each matching record appears as often as it does in the list. |
| `MaterialsTestingLab.FilteredProctors` | composeApp/src/desktopMain/kotlin/ui/features/materialsTesting/lab/MaterialsTestingLabViewModel.kt:52-62 | A blank query returns the list unchanged. Any other query returns exactly the records that match its lower-cased form, each as often as it occurs in the list, as an order-preserving subsequence. |
| `MaterialsTestingLab.LowercaseEquivalentQueries` | composeApp/src/desktopMain/kotlin/ui/features/materialsTesting/lab/MaterialsTestingLabViewModel.kt:53-57 | Two queries with the same lower-cased form show the same records. |
| `MaterialsTestingLab.HighwayQuery` | composeApp/src/desktopMain/kotlin/ui/features/materialsTesting/lab/MaterialsTestingLabViewModel.kt:57-61 | On the sample data, the query "highway" shows exactly the first and the fourth record, in that order. |
| `MaterialsTestingLab.UntrimmedQuery` | composeApp/src/desktopMain/kotlin/ui/features/materialsTesting/lab/MaterialsTestingLabViewModel.kt:53-57 | A non-blank query is not trimmed. " h101-s01 " shows nothing, while "h101-s01" shows the first record. |
| `MaterialsTestingLab.LabViewModel.constructor` | composeApp/src/desktopMain/kotlin/ui/features/materialsTesting/lab/MaterialsTestingLabViewModel.kt:14-23 | The list is the sample data and is a constant. The initial selection is empty and the initial query is "". |
| `MaterialsTestingLab.LabViewModel.UpdateSearchQuery` | composeApp/src/desktopMain/kotlin/ui/features/materialsTesting/lab/MaterialsTestingLabViewModel.kt:28-32 | The query becomes exactly the argument. The selection is unchanged, and so is the list, which is a constant. |
| `MaterialsTestingLab.LabViewModel.SelectProctor` | composeApp/src/desktopMain/kotlin/ui/features/materialsTesting/lab/MaterialsTestingLabViewModel.kt:37-39 | The selection becomes the given record. The query is unchanged. |
| `MaterialsTestingLab.LabViewModel.ClearSelection` | composeApp/src/desktopMain/kotlin/ui/features/materialsTesting/lab/MaterialsTestingLabViewModel.kt:44-46 | The selection becomes empty. The query is unchanged. |
| `MaterialsTestingLab.LabViewModel.GetFilteredProctors` | composeApp/src/desktopMain/kotlin/ui/features/materialsTesting/lab/MaterialsTestingLabViewModel.kt:52-62 | The result is exactly `FilteredProctors` of the list and the current query, so every property proved of that function holds of the screen's list. A blank query gives the whole list. Otherwise the result is sound and complete for the lower-cased query, and it is a subsequence of the list. |
| `SoilProctorDetail.FindById` | composeApp/src/desktopMain/kotlin/ui/features/materialsTesting/lab/SoilProctorDetailViewModel.kt:37 | `find` returns nothing exactly when no record has the id. Otherwise it returns the first record with that id. |
| `SoilProctorDetail.AfterLoad` | composeApp/src/desktopMain/kotlin/ui/features/materialsTesting/lab/SoilProctorDetailViewModel.kt:30-49 | After a load, the loading flag is down. If a sample has the id, that record is shown and there is no error. If none has it, the previous record is kept and the error is "Proctor not found with ID: " followed by the id. |
| `SoilProctorDetail.LoadFindsTheRecord` | composeApp/src/desktopMain/kotlin/ui/features/materialsTesting/lab/SoilProctorDetailViewModel.kt:37-40 | Because the sample ids are distinct, loading a sample's id shows exactly that sample. |
| `SoilProctorDetail.LoadIdempotent` | composeApp/src/desktopMain/kotlin/ui/features/materialsTesting/lab/SoilProctorDetailViewModel.kt:30-49 | Loading the same id twice leaves the same state as loading it once. |
| `SoilProctorDetail.LoadedRecordHasRequestedId` | composeApp/src/desktopMain/kotlin/ui/features/materialsTesting/lab/SoilProctorDetailViewModel.kt:37-40 | A load that ends without an error shows a record whose id is the requested id. |
| `SoilProctorDetail.AfterClear` | composeApp/src/desktopMain/kotlin/ui/features/materialsTesting/lab/SoilProctorDetailViewModel.kt:54-57 | Clearing leaves no record and no error, and keeps the loading flag as it was. |
| `SoilProctorDetail.DetailViewModel.constructor` | composeApp/src/desktopMain/kotlin/ui/features/materialsTesting/lab/SoilProctorDetailViewModel.kt:14-23 | A fresh view-model shows no record, is not loading and has no error. |
| `SoilProctorDetail.DetailViewModel.LoadProctor` | composeApp/src/desktopMain/kotlin/ui/features/materialsTesting/lab/SoilProctorDetailViewModel.kt:30-49 | The new state is `AfterLoad` of the old state. The loading flag ends down. A found record is shown with no error. On a miss, the record is kept and the not-found message is set. |
| `SoilProctorDetail.DetailViewModel.ClearProctor` | composeApp/src/desktopMain/kotlin/ui/features/materialsTesting/lab/SoilProctorDetailViewModel.kt:54-57 | The record and the error are cleared. The loading flag is untouched. |
| `Settings.SettingsManager.constructor` | composeApp/src/desktopMain/kotlin/data/SettingsManager.kt:14-27 | The table starts as the settings file's contents when the file exists, and empty otherwise. |
| `Settings.SettingsManager.GetString` | composeApp/src/desktopMain/kotlin/data/SettingsManager.kt:36-38 | Returns the stored text for a present key and the default for an absent one. It only reads. |
| `Settings.SettingsManager.GetFloat` | composeApp/src/desktopMain/kotlin/data/SettingsManager.kt:47-58 | Returns the default when the key is absent or its text does not parse, and the parsed value otherwise. It only reads. |
| `Settings.SettingsManager.SetString` | composeApp/src/desktopMain/kotlin/data/SettingsManager.kt:66-69 | Afterwards `getString(key, _)` is the new text and every other key reads as before. The file then equals the table. |
| `Settings.SettingsManager.SetFloat` | composeApp/src/desktopMain/kotlin/data/SettingsManager.kt:77-80 | Stores the value's text. When the conversions round-trip and the value is not NaN, `getFloat(key, _)` then returns the value. Every other key reads as before, and the file equals the table. |
| `Settings.SettingsManager.SaveSettings` | composeApp/src/desktopMain/kotlin/data/SettingsManager.kt:85-87 | The file's snapshot becomes exactly the table. The table does not change. |
| `Settings.SplitPositionsWithoutFile` | composeApp/src/desktopMain/kotlin/ui/App.kt:179-190 | Without a settings file, the four divider positions read as their defaults: 0.25, 0.5, 0.5 and 0.5. |
| `Settings.SavedPositionSurvivesRestart` | composeApp/src/desktopMain/kotlin/ui/App.kt:193-200 | A position stored with `setFloat` is read back by a store started from the saved file. |

## Left out

- Compose rendering, theming, navigation, the drag gesture detector itself and
  `change.consume()` are left out. The model takes drag amounts and sizes as
  inputs.
- What `this.size` measures inside the divider's pointer-input scope is left
  out. The model takes it as an input: the extent of the pointer-input region
  (`this.size`) along the axis, at drag start and at each event.
- The `pointerInput(splitFraction)` block restarts whenever the fraction
  changes. That is Compose runtime behaviour, and it is not modelled.
- Split-pane arithmetic is exact over reals. Kotlin computes it in 32-bit
  floating point, and the repository's tests compare with a tolerance. A
  stored split position can be NaN, because `getFloat` parses the text "NaN",
  and `NaN.coerceIn(0.1f, 0.9f)` is NaN. In the source, the `[0.1, 0.9]`
  bound of `DragReport` and `OnDrag` therefore holds only for non-NaN
  fractions.
- `KotlinText.Lower`: `String.lowercase()` maps the whole of Unicode, but the
  model lower-cases only the ASCII letters A-Z.
- `Settings.FloatText`: the text grammar of `Float.toString()` and
  `String.toFloat()` is not modelled. The store is given the two conversions,
  and round-tripping is a hypothesis.
- The settings file's directory creation, the stream I/O and the exact
  `Properties` file format are reduced to a ghost map snapshot.
- I/O failures are not modelled. A failing `properties.load` in `init`
  (SettingsManager.kt:25) is not caught, so construction throws and no store
  exists. A failing save (SettingsManager.kt:86) makes `setString` or
  `setFloat` throw after the table has already changed. `outputStream()`
  truncates the file when it opens it, so the file is then unchanged (the
  open failed), truncated or partly written. The setters' "the file equals
  the table" holds only when every save succeeds.
- The `getInstance` singleton is left out, because it is a matter of
  concurrency and initialisation.
- The `catch` branch of `loadProctor` is left out. A `find` over an in-memory
  list does not throw.
- The Room database classes are left out, because nothing in the core calls
  them.
