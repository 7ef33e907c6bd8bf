# Session catalogue of the BMI preprocessing pipeline, in Dafny

This project models the session catalogue of the preprocessing pipeline,
`preprocess/sessions.py`, and proves properties of the model. The catalogue has four parts:

- **The experiment taxonomy.** Seven fixed dictionaries map each mouse (`D13`, `D15`, `D16`, `D18`) to
  its session paths `mouse/yymmdd/day`:
  - four BMI categories: stimulation with agonist, random control, light control, agonist control;
  - the behaviour category;
  - two motor-behaviour categories.

  These become `Taxonomy` constants. A Python dict iterates in insertion order, so each table is an ordered
  sequence of `(key, paths)` entries.
- **`get_all_sessions`**, modelled in `Registry`. It builds the registry: every BMI path tagged with its
  category label, concatenated in a fixed order, then sorted by path.
- **`get_sessions_df`**, modelled in `Catalog`. For one category it produces a frame with:
  - one metadata row per session: mouse, date, day label, ordinal (`1st`/`2nd`/`3rd`), the category of the
    registry row before it, category, path, day index;
  - the files of the session directory, sorted into bucket columns by prefix;
  - the files of its `im/` subdirectories and of `motor/`, sorted into bucket columns the same way.
- **`get_behav_df`**, modelled in `BehavDf`. It is the same walk, with fewer columns, for the two
  motor-behaviour categories.

Each loop of the source is a Dafny `method` with a `while` loop and its invariants. Each method threads the
`defaultdict(list)` through as a value, a map `Columns` from column name to values. It is proved equal to a
specification function that returns the list of appends the whole computation makes (a `Log`), or the
exception that stops it (`Result`). The lemmas in `CatalogFacts`, `MetaFacts`, `StaticFacts` and
`BehavFacts` state what the frame then holds:

- which errors are possible, and that the fixed tables rule out the path and lookup errors;
- one metadata row per session, in table order;
- which columns exist;
- what each bucket column may contain;
- that `previous_session` names the category of the registry row just before, and never wraps round.

In the model, the filesystem is a `Listing`: a map from a directory to the names `os.listdir` returns for
it, in listing order. A directory missing from the map stands for both exceptions `os.listdir` can raise here:
`FileNotFoundError` for a path that does not exist and `NotADirectoryError` for a plain file, such as a file
listed directly under `im/`. The model reports both as `MissingDirectory`.

Three behaviours of the code that are easy to misread:

- A motor file carrying a recording marker whose name does not split on `_` into exactly four parts
  (preprocess/sessions.py:230), or five in `get_behav_df` (preprocess/sessions.py:278), makes the list unpacking raise. The model
  returns `MalformedMotorFile` there; such a file is not skipped. `MotorExampleMalformed` shows
  `foo_bar_baseline.csv` stopping with that error.
- A four-part name with unexpected parts is skipped: it adds nothing (preprocess/sessions.py:231-240).
- `sort_index()` (preprocess/sessions.py:155) uses an unstable sort by default. The order still cannot depend on the
  algorithm, because the registry has no repeated path (`SortedUnique`, `RegistryDistinct`).

## Model

| member | source | states |
|---|---|---|
| `PyStrings.SliceBound` | preprocess/sessions.py:184-187 | how Python clips one slice bound: a negative bound counts from the end, and out-of-range bounds are clipped to the string |
| `PyStrings.Slice` | preprocess/sessions.py:184-229 | `s[i:j]` with Python's clipping of both bounds; an empty or inverted range gives `""` |
| `PyStrings.StartsWith` | preprocess/sessions.py:200-226 | `s` begins with `p`, which is what comparing `s[:len(p)]` with `p` tests |
| `PyStrings.EndsWith` | preprocess/sessions.py:184-187 | `s` ends with `p`, which is what comparing `s[-len(p):]` with `p` tests |
| `PyStrings.Find` | preprocess/sessions.py:179 | the first position of a character in a string, or -1 when it does not occur |
| `PyStrings.Split` | preprocess/sessions.py:179 | `str.split(c)`: the pieces between occurrences of `c`, empty ones included, so always at least one |
| `PyStrings.Join` | preprocess/sessions.py:179 | `c.join(parts)`, the inverse of `Split` for parts without `c` |
| `PyStrings.LexLe` | preprocess/sessions.py:155 | Python's `<=` on strings: code-point order, with a proper prefix first |
| `PyStrings.LexLt` | preprocess/sessions.py:155 | Python's `<` on strings |
| `Columns.Column` | preprocess/sessions.py:176 | reading `ret[c]` of a `defaultdict(list)`: the values appended so far, or the empty list |
| `Columns.Push` | preprocess/sessions.py:180-182 | `ret[c].append(v)`: `v` is added at the end of column `c`, which is created when missing; no other column changes |
| `Columns.Accumulate` | preprocess/sessions.py:176-243 | the appends of a log performed in order on the columns |
| `Columns.Project` | preprocess/sessions.py:176-243 | the values a log appends to one column, in order |
| `Columns.Then` | preprocess/sessions.py:197-240 | running one step after another: the first exception stops everything, otherwise both steps' appends in order |
| `Columns.FoldLogs` | preprocess/sessions.py:177-178 | a `for` loop whose body's appends are given per element, stopping at the first exception |
| `Columns.Extend` | preprocess/sessions.py:176-243 | the columns after a computation that succeeds, or its exception |
| `Columns.Rectangular` | preprocess/sessions.py:245 | all columns have the same length, as `pd.DataFrame(ret)` requires |
| `Columns.Frame` | preprocess/sessions.py:245 | `pd.DataFrame(ret)` succeeds exactly on rectangular columns and then holds them unchanged; otherwise it fails with the ragged-columns error |
| `Taxonomy.Flatten` | preprocess/sessions.py:145-152 | `np.concatenate(list(table.values()))`: every path of a table, mouse after mouse in insertion order |
| `Taxonomy.SessionPathLayout` | preprocess/sessions.py:179 | a path of the form `mouse/yymmdd/day`, a 5-character mouse and a 6-character date with no other '/' |
| `Registry.Paths` | preprocess/sessions.py:145-155 | the index of a frame: the path of every row, in row order |
| `Registry.Concatenated` | preprocess/sessions.py:153-154 | the nested `pd.concat`: the stimulation-with-agonist, random, light and agonist rows, in that order, each tagged with its label |
| `Registry.SortedByPath` | preprocess/sessions.py:155 | rows in ascending path order, in Python's string order |
| `Registry.Insert` | preprocess/sessions.py:155 | one step of the sort: a row placed before the first row whose path is not smaller |
| `Registry.SortByPath` | preprocess/sessions.py:155 | `sort_index()`, as an insertion sort on the path |
| `Registry.AllSessions` | preprocess/sessions.py:143-155 | `get_all_sessions()`: the registry built from the four fixed BMI tables |
| `Registry.PrevRow` | preprocess/sessions.py:186-189 | `df.iloc[loc - 1]`: the row before `loc`, wrapping to the last row when `loc` is 0 |
| `Classify.SessionDay` | preprocess/sessions.py:184-192 | the ordinal of a session from the last two characters of its day label: `-2` gives `2nd`, `-3` gives `3rd`, anything else `1st` |
| `Classify.ImagingFileLog` | preprocess/sessions.py:205-211 | the appends for one file of `im/<dir>/`, chosen by its first 8 characters |
| `Classify.TopLevelLog` | preprocess/sessions.py:213-224 | the appends of the `if`/`elif` chain for one entry of the session directory: its name into the first bucket whose prefix it carries |
| `Classify.IsMotorRecording` | preprocess/sessions.py:229 | `name[-7:-4]` is `ine` or `BMI` |
| `Classify.MotorFileLog` | preprocess/sessions.py:229-240 | the appends for one file of `motor/`: a recording that does not have four `_`-separated parts raises; otherwise its second and fourth parts pick one of four buckets, or none |
| `Classify.BehavMotorFileLog` | preprocess/sessions.py:277-282 | the appends for one motor file in `get_behav_df`: a file with the marker must have five parts, and its second part picks `XY`, `trigger` or nothing |
| `Catalog.ListDir` | preprocess/sessions.py:197-198 | `os.listdir(dir)`: the names listed for the directory, or the error for a directory that cannot be listed |
| `Catalog.ImagingDirLog` | preprocess/sessions.py:202-211 | the appends of a subdirectory of `im/`, file after file |
| `Catalog.ImagingLog` | preprocess/sessions.py:200-211 | the appends of the descent into `im/`, subdirectory after subdirectory |
| `Catalog.MotorLog` | preprocess/sessions.py:226-240 | the appends of the descent into `motor/`, file after file |
| `Catalog.ChildLog` | preprocess/sessions.py:198-240 | the appends for one entry of a session directory: outside `BEHAVIOR`, the `im` descent and the prefix chain; in every category, the `mo` descent |
| `Catalog.Catalogued` | preprocess/sessions.py:179-183 | the path unpacks into three components and the lookup finds it |
| `Catalog.MetaOf` | preprocess/sessions.py:179-195 | the metadata row of one session: its three path components, its ordinal, the previous registry row's category for a later session and `None` for a first one, the category, the path and the day index |
| `Catalog.MetaCell` | preprocess/sessions.py:180-195 | the value a metadata row puts in each metadata column |
| `Catalog.MetaEvents` | preprocess/sessions.py:180-195 | the eight metadata appends of one session, in source order |
| `Catalog.MetaLog` | preprocess/sessions.py:179-195 | the metadata appends, or the unpacking error for a path that is not three parts, or the lookup error for an unregistered path |
| `Catalog.OverrideLog` | preprocess/sessions.py:241-243 | `missing` appended to `roi_data` and `mask_data` for `ago18/221117/D06`, and nothing for any other session |
| `Catalog.SessionLog` | preprocess/sessions.py:178-243 | one session: its metadata, then the entries of its directory in listing order, then the override |
| `Catalog.MouseLog` | preprocess/sessions.py:178-243 | the sessions of one mouse, numbered from 0, in list order |
| `Catalog.TableLog` | preprocess/sessions.py:177-243 | the mice of the table in insertion order |
| `Catalog.CategoryTable` | preprocess/sessions.py:162-175 | the table each of the five category names reads, or the unknown-category error for any other name |
| `Catalog.SessionsFrame` | preprocess/sessions.py:176-245 | the appends of the loops performed on an empty `defaultdict`, then turned into a frame |
| `Catalog.SessionsDf` | preprocess/sessions.py:158-245 | `get_sessions_df`: the category's table, then its frame against the registry of all sessions |
| `BehavDf.BehavCategory` | preprocess/sessions.py:251-259 | the table and motor-file marker of each of the two category names, or the unknown-category error |
| `BehavDf.BehavMotorLog` | preprocess/sessions.py:273-282 | the appends of the descent into `motor/`, file after file |
| `BehavDf.BehavChildLog` | preprocess/sessions.py:272-282 | one entry of a session directory: only a `mo` name descends into `motor/` |
| `BehavDf.ThreeParts` | preprocess/sessions.py:263 | the path unpacks into three components |
| `BehavDf.BehavMetaOf` | preprocess/sessions.py:263-269 | the metadata row of one session: its three path components, the category, the path and the day index |
| `BehavDf.BehavMetaCell` | preprocess/sessions.py:264-269 | the value a metadata row puts in each of the six metadata columns |
| `BehavDf.BehavMetaEvents` | preprocess/sessions.py:264-269 | the six metadata appends of one session, in source order |
| `BehavDf.BehavMetaLog` | preprocess/sessions.py:263-269 | the metadata appends, or the unpacking error for a path that is not three parts |
| `BehavDf.BehavSessionLog` | preprocess/sessions.py:262-282 | one session: its metadata, then the entries of its directory in listing order |
| `BehavDf.BehavMouseLog` | preprocess/sessions.py:262-282 | the sessions of one mouse, numbered from 0, in list order |
| `BehavDf.BehavTableLog` | preprocess/sessions.py:261-282 | the mice of the table in insertion order |
| `BehavDf.BehavFrame` | preprocess/sessions.py:260-284 | the appends of the loops performed on an empty `defaultdict`, then turned into a frame |
| `BehavDf.BehavDfOf` | preprocess/sessions.py:248-284 | `get_behav_df`: the category's table and marker, then its frame |
| `Taxonomy.FlattenFour` | preprocess/sessions.py:145-152 | a four-mouse table's `np.concatenate(list(values()))` is its four path lists, mouse after mouse |
| `Taxonomy.LayoutSplit` | preprocess/sessions.py:179 | a path with a '/' after the 5-character mouse name and after the 6-digit date splits into exactly those three components |
| `Taxonomy.DistinctCount` | preprocess/sessions.py:13-95 | a path list has no repeat exactly when each path occurs at most once in its multiset |
| `Taxonomy.SessionsAmongStimAgo` | preprocess/sessions.py:97-140 | the behaviour and both motor tables list, per mouse, the first one or two sessions of the stimulation-with-agonist table |
| `Taxonomy.G13AfterFirst` | preprocess/sessions.py:13-95 | every ago13 path other than `ago13/221112/D01` has a later date |
| `Registry.Tag` | preprocess/sessions.py:145-152 | the tagged frame's index is the given paths and its `experiment_type` is the label on every row |
| `Registry.Registry` | preprocess/sessions.py:153-155 | the registry is sorted by path in Python string order and is a permutation of the four tagged tables concatenated |
| `Registry.RegistryPaths` | preprocess/sessions.py:153-155 | the registry's index holds each path of the four BMI tables as often as the tables list it |
| `Registry.RegistryCategories` | preprocess/sessions.py:145-155 | `(p, c)` is a registry row exactly when `p` is listed in the table labelled `c` |
| `Registry.RegistrySize` | preprocess/sessions.py:145-155 | the registry has one row per path of the four BMI tables |
| `Registry.SortedUnique` | preprocess/sessions.py:155 | two path-sorted permutations of a frame with no repeated path are equal, so the sorting algorithm does not matter |
| `Registry.SortByPathSorted` | preprocess/sessions.py:155 | `sort_index()` orders the rows by path |
| `Registry.SortByPathMultiset` | preprocess/sessions.py:155 | `sort_index()` neither adds nor drops a row |
| `Registry.InsertSorted` | preprocess/sessions.py:155 | inserting a row into an ordered frame keeps it ordered |
| `Registry.InsertMultiset` | preprocess/sessions.py:155 | inserting adds exactly the one row |
| `Registry.IndexOf` | preprocess/sessions.py:183 | `np.where(...)[0][0]` is the first row whose path matches; the result is -1 exactly when no row matches |
| `StaticFacts.RegistryDistinct` | preprocess/sessions.py:13-95 | no path appears twice across the four BMI tables' registry |
| `StaticFacts.RegistryGroups` | preprocess/sessions.py:13-95 | the registry's paths, regrouped mouse by mouse, keep every path's count |
| `StaticFacts.GroupsApart` | preprocess/sessions.py:13-95 | a path belongs to at most one mouse's group |
| `StaticFacts.BmiTablesLaidOut` | preprocess/sessions.py:13-95 | every path of the four BMI tables has the `mouse/date/day` layout |
| `StaticFacts.OtherTablesLaidOut` | preprocess/sessions.py:97-140 | every path of the behaviour and motor tables has the `mouse/date/day` layout |
| `StaticFacts.FirstSessionSmallest` | preprocess/sessions.py:13-95 | every registered path sorts no earlier than `ago13/221112/D01` |
| `StaticFacts.FirstSessionOnlyInStim` | preprocess/sessions.py:75-84 | `ago13/221112/D01` is listed in the light-control table and in no other BMI table |
| `StaticFacts.FirstRow` | preprocess/sessions.py:143-155 | the registry's first row is `ago13/221112/D01` labelled `BMI_CONTROL_LIGHT` |
| `StaticFacts.TablesRegistered` | preprocess/sessions.py:161-171 | every path of the five tables `get_sessions_df` reads is in the registry's index |
| `StaticFacts.NoWrapAround` | preprocess/sessions.py:183-189 | any registered path other than the first sits at index at least 1, so `iloc[loc - 1]` never wraps round |
| `StaticFacts.RegistryCount` | preprocess/sessions.py:143-155 | the registry has 49 rows |
| `Classify.SessionDayCases` | preprocess/sessions.py:184-192 | the ordinal is `2nd` exactly for a day ending `-2`, `3rd` exactly for `-3`, `1st` otherwise |
| `Classify.ImagingBaseline` | preprocess/sessions.py:205-207 | a `baseline` file adds its name to `Baseline_im` and its voltage companion to `Voltage_Baseline` |
| `Classify.ImagingExperiment` | preprocess/sessions.py:208-211 | a `BMI_stim`/`RandomDR` file adds its voltage companion, its name and its subdirectory, in that order |
| `Classify.ImagingOther` | preprocess/sessions.py:205-211 | any other imaging file adds nothing |
| `Classify.ImagingColumnsOnly` | preprocess/sessions.py:204-211 | an imaging file appends only to the five imaging columns |
| `Classify.FirstMatch` | preprocess/sessions.py:213-224 | at most one append, of the name itself, to the column of the first rule whose prefix matches; none exactly when no prefix matches |
| `Classify.TopLevelByRules` | preprocess/sessions.py:213-224 | the `if`/`elif` chain on 10- and 8-character prefixes is the first-match rule over its table of prefixes |
| `Classify.TopLevelColumnsOnly` | preprocess/sessions.py:213-224 | a top-level file appends only to the six top-level columns |
| `Classify.BucketOf` | preprocess/sessions.py:231-240 | the bucket is absent exactly when no `(second, fourth)` part pair matches, and is otherwise the column of a matching pair |
| `Classify.MotorBucketTable` | preprocess/sessions.py:231-240 | `(XY, baseline.csv)`, `(XY, BMI.csv)`, `(Trigger, baseline.csv)` and `(Trigger, BMI.csv)` select the four motor columns, and nothing else selects any |
| `Classify.MotorNotRecording` | preprocess/sessions.py:229 | a motor file without the `ine`/`BMI` marker adds nothing |
| `Classify.MotorMalformed` | preprocess/sessions.py:230 | a recording fails exactly when it does not split into four parts, with the error naming the file |
| `Classify.MotorBucket` | preprocess/sessions.py:230-240 | a four-part recording adds its name to the bucket of its second and fourth parts, or nothing |
| `Classify.MotorJoined` | preprocess/sessions.py:229-240 | a name joined from '_'-free parts with a marked last part fails exactly when it has not four parts, and otherwise lands in its parts' bucket |
| `Classify.MotorExampleBucket` | preprocess/sessions.py:229-233 | `foo_XY_bar_baseline.csv` goes to `XY_baseline` |
| `Classify.MotorExampleMalformed` | preprocess/sessions.py:229-230 | `foo_bar_baseline.csv` carries the marker but has three parts, so it stops with the unpacking error |
| `Classify.MotorColumnsOnly` | preprocess/sessions.py:229-240 | a successful motor file appends only to the four motor columns |
| `Classify.BehavMotorFileCases` | preprocess/sessions.py:277-282 | a file without the category's marker adds nothing; one with it fails exactly when it has not five parts, and otherwise a second part `XY` appends the file to `XY`, `Trigger` appends it to `trigger`, and anything else adds nothing |
| `Classify.BehavMotorFileShape` | preprocess/sessions.py:278-282 | a successful behaviour motor file appends at most its own name, to `XY` or `trigger`, and does so exactly when it carries the marker, has five parts and its second part is `XY` or `Trigger`; a second part `XY` selects `XY` and `Trigger` selects `trigger` |
| `Catalog.Enumerate` | preprocess/sessions.py:178 | `enumerate(paths)` pairs each path with its position |
| `Catalog.LocateSession` | preprocess/sessions.py:183 | the lookup loop returns the first matching registry row, or -1 when there is none |
| `Catalog.ScanImagingFile` | preprocess/sessions.py:205-211 | one imaging file performs its specified appends on the columns |
| `Catalog.ScanImagingDir` | preprocess/sessions.py:203-211 | the loop over `im/<dir>/` performs its files' appends in listing order, or stops with the missing-directory error |
| `Catalog.ScanImaging` | preprocess/sessions.py:200-211 | the loop over `im/` performs every subdirectory's appends in listing order, or stops with the first error |
| `Catalog.ScanMotorFile` | preprocess/sessions.py:229-240 | one motor file performs its bucket append, or stops with the unpacking error |
| `Catalog.ScanMotor` | preprocess/sessions.py:226-240 | the loop over `motor/` performs its files' appends in listing order, or stops with the first error |
| `Catalog.ScanChild` | preprocess/sessions.py:198-240 | one session entry descends into `im/` and is bucketed by name outside `BEHAVIOR`, then descends into `motor/` for a `mo` name in every category |
| `Catalog.ScanMeta` | preprocess/sessions.py:179-195 | the eight metadata appends, or the split error for a path not of three parts, or the lookup error for an unregistered path |
| `Catalog.ScanEntries` | preprocess/sessions.py:197-240 | the loop over the session directory performs every entry's appends in listing order, or stops with the first error |
| `Catalog.ScanSession` | preprocess/sessions.py:178-243 | one session performs its metadata, its entries, then the ROI/mask override |
| `Catalog.ScanMouse` | preprocess/sessions.py:178-243 | a mouse's sessions are numbered from 0 and performed in order |
| `Catalog.ScanTable` | preprocess/sessions.py:177-243 | the loop over mice performs every mouse in table order, or stops with the first error |
| `Catalog.GetSessionsDf` | preprocess/sessions.py:158-245 | the result is the specified frame: the unknown-category error, or the error of the loops, or the ragged-columns error, or the frame |
| `CatalogFacts.CategoryAccepted` | preprocess/sessions.py:162-175 | a category is accepted exactly when it is one of the five names; any other fails with the unknown-category error |
| `CatalogFacts.CategoryTablesCatalogued` | preprocess/sessions.py:162-183 | every session of each accepted category's table splits into three parts and is found in the registry |
| `CatalogFacts.MetaLogCases` | preprocess/sessions.py:179-195 | the metadata step succeeds exactly for a catalogued path: it fails on the split before the lookup |
| `CatalogFacts.ImagingErrors` | preprocess/sessions.py:200-211 | descending into `im/` fails only on a missing directory |
| `CatalogFacts.MotorErrors` | preprocess/sessions.py:226-240 | descending into `motor/` fails only on a missing directory or a malformed recording name |
| `CatalogFacts.SessionErrors` | preprocess/sessions.py:178-243 | a session fails on its path, its lookup or its files; a catalogued session only on its files |
| `CatalogFacts.TableErrors` | preprocess/sessions.py:177-243 | the loops fail only with a session error, and with a files error only when the whole table is catalogued |
| `CatalogFacts.SessionsFrameErrors` | preprocess/sessions.py:176-245 | the frame fails with a session error or with ragged columns |
| `CatalogFacts.SessionsDfErrors` | preprocess/sessions.py:158-245 | an unknown category gives its error at once; an accepted one fails only on the files on disk or with ragged columns |
| `MetaFacts.ImagingColumnsAll` | preprocess/sessions.py:200-211 | descending into `im/` appends only to imaging columns |
| `MetaFacts.MotorColumnsAll` | preprocess/sessions.py:226-240 | descending into `motor/` appends only to the four motor columns |
| `MetaFacts.ChildColumns` | preprocess/sessions.py:198-240 | a session entry appends only to bucket columns |
| `MetaFacts.BehaviorChildColumns` | preprocess/sessions.py:199-240 | in the `BEHAVIOR` category an entry appends only to motor columns |
| `MetaFacts.MetaNotBucket` | preprocess/sessions.py:180-240 | no metadata column is a bucket column |
| `MetaFacts.MetaEventsProject` | preprocess/sessions.py:180-195 | the metadata appends put exactly the row's cell into each metadata column |
| `MetaFacts.SessionProject` | preprocess/sessions.py:178-243 | a successful session is catalogued and adds its cell once to each metadata column |
| `MetaFacts.MouseProject` | preprocess/sessions.py:178-243 | a successful mouse has every session catalogued and adds its rows' cells, day index from 0, to each metadata column |
| `MetaFacts.TableProject` | preprocess/sessions.py:177-243 | a successful loop adds the metadata rows of the table, mouse after mouse, to each metadata column |
| `MetaFacts.SessionsMeta` | preprocess/sessions.py:176-245 | in a built frame every session of the table is catalogued and each metadata column holds the rows' cells in table order |
| `MetaFacts.MetaRowsLength` | preprocess/sessions.py:177-195 | there is one metadata row per session of the table |
| `MetaFacts.MetaRowsAt` | preprocess/sessions.py:177-195 | the `i`-th session of the `k`-th mouse is the row after the previous mice's sessions, with day index `i` |
| `MetaFacts.MetaRowsPaths` | preprocess/sessions.py:177-194 | row `j` has the path of session `j` of the flattened table |
| `MetaFacts.MetaOfFields` | preprocess/sessions.py:179-195 | a row's mouse, date and day join back to its path; the ordinal follows the day's suffix; a first session records `None` |
| `MetaFacts.PreviousOf` | preprocess/sessions.py:183-189 | away from the first registry row, a later session of a day records the category of the row just before its own |
| `MetaFacts.PreviousIsEarlierRow` | preprocess/sessions.py:183-192 | over the real registry, a `2nd` or `3rd` session records the category of the row at index `loc - 1 >= 0` |
| `MetaFacts.RegistryLabels` | preprocess/sessions.py:145-152 | every registry row carries one of the four BMI labels |
| `MetaFacts.SentinelNotLabel` | preprocess/sessions.py:145-192 | no BMI category label is the `None` a first session records, so the two cases of `previous_session` cannot be confused |
| `MetaFacts.PreviousNone` | preprocess/sessions.py:184-192 | `previous_session` is `None` exactly for a first session of a day, and is otherwise a BMI category label |
| `MetaFacts.OverrideProject` | preprocess/sessions.py:241-243 | the override adds `missing` to the ROI and mask columns of `ago18/221117/D06` only |
| `MetaFacts.SessionColumns` | preprocess/sessions.py:178-243 | a session appends only to metadata and bucket columns |
| `MetaFacts.TableColumns` | preprocess/sessions.py:177-243 | the loops append only to metadata and bucket columns |
| `MetaFacts.SessionsShape` | preprocess/sessions.py:176-245 | a built frame has only metadata and bucket columns, and, for a non-empty table, one value per session in every column |
| `MetaFacts.TopLevelNamed` | preprocess/sessions.py:213-224 | a top-level bucket receives only the entry's own name, and only when it has the bucket's prefix |
| `MetaFacts.TopLevelApart` | preprocess/sessions.py:213-224 | a top-level bucket is neither an imaging, a motor nor a metadata column |
| `MetaFacts.SessionNamed` | preprocess/sessions.py:197-243 | a session's top-level bucket holds names with its prefix, then `missing` only for the ROI and mask columns of the overridden session |
| `MetaFacts.FrameBuckets` | preprocess/sessions.py:176-245 | in a built frame each top-level bucket holds only names with its prefix, plus `missing` in the ROI and mask columns |
| `MetaFacts.MotorFileValues` | preprocess/sessions.py:229-240 | a motor file appends to a motor column only itself, and only when its parts select that column |
| `MetaFacts.MotorApart` | preprocess/sessions.py:226-243 | a motor bucket is neither an imaging, a top-level, a metadata nor an overridden column |
| `MetaFacts.FrameValues` | preprocess/sessions.py:176-245 | a column outside the metadata and the override holds only what the entries append to it |
| `MetaFacts.FrameMotor` | preprocess/sessions.py:176-245 | in a built frame each motor column holds only four-part recordings whose second and fourth parts select it |
| `BehavDf.ScanBehavMotorFile` | preprocess/sessions.py:277-282 | one motor file performs its `XY`/`trigger` append, or stops with the unpacking error |
| `BehavDf.ScanBehavMotor` | preprocess/sessions.py:273-282 | the loop over `motor/` performs its files' appends in listing order, or stops with the first error |
| `BehavDf.ScanBehavMeta` | preprocess/sessions.py:263-269 | the six metadata appends, or the split error for a path not of three parts |
| `BehavDf.ScanBehavEntries` | preprocess/sessions.py:271-282 | the loop over the session directory performs every entry's appends in listing order, or stops with the first error |
| `BehavDf.ScanBehavSession` | preprocess/sessions.py:262-282 | one session performs its metadata, then its entries |
| `BehavDf.ScanBehavMouse` | preprocess/sessions.py:262-282 | a mouse's sessions are numbered from 0 and performed in order |
| `BehavDf.ScanBehavTable` | preprocess/sessions.py:261-282 | the loop over mice performs every mouse in table order, or stops with the first error |
| `BehavDf.GetBehavDf` | preprocess/sessions.py:248-284 | the result is the specified frame: the unknown-category error, the error of the loops, ragged columns, or the frame |
| `BehavFacts.BehavCategoryCases` | preprocess/sessions.py:251-259 | a category is accepted exactly when it is one of the two names; each marker is the three letters before `.csv` in `behavior.csv` / `before.csv` |
| `BehavFacts.BehavMotorErrors` | preprocess/sessions.py:273-282 | descending into `motor/` fails only on a missing directory or a malformed recording name |
| `BehavFacts.BehavSessionErrors` | preprocess/sessions.py:262-282 | a session fails on its path or its files; a three-part path only on its files |
| `BehavFacts.BehavTableErrors` | preprocess/sessions.py:261-282 | the loops fail only with a path or files error, and only with a files error when every path has three parts |
| `BehavFacts.LaidOutThreeParts` | preprocess/sessions.py:263 | a table whose paths have the `mouse/date/day` layout splits every path into three parts |
| `BehavFacts.BehavDfErrors` | preprocess/sessions.py:248-284 | an unknown category gives its error at once; an accepted one fails only on the files on disk or with ragged columns |
| `BehavFacts.BehavMetaEventsProject` | preprocess/sessions.py:264-269 | the metadata appends put exactly the row's cell into each metadata column |
| `BehavFacts.BehavEntriesColumns` | preprocess/sessions.py:271-282 | the entries of a session append only to `XY` and `trigger` |
| `BehavFacts.BehavSessionProject` | preprocess/sessions.py:262-282 | a successful session has a three-part path and adds its cell once to each metadata column |
| `BehavFacts.BehavMouseProject` | preprocess/sessions.py:262-282 | a successful mouse adds its rows' cells, day index from 0, to each metadata column |
| `BehavFacts.BehavTableProject` | preprocess/sessions.py:261-282 | a successful loop adds the rows of the table, mouse after mouse, to each metadata column |
| `BehavFacts.BehavFrameMeta` | preprocess/sessions.py:260-284 | in a built frame every session has a three-part path and each metadata column holds the rows' cells in table order |
| `BehavFacts.BehavRowsAt` | preprocess/sessions.py:261-269 | the `i`-th session of the `k`-th mouse is the row after the previous mice's sessions, with day index `i` |
| `BehavFacts.BehavMetaOfFields` | preprocess/sessions.py:263-269 | a row's mouse, date and day join back to its path |
| `BehavFacts.BehavTableColumns` | preprocess/sessions.py:261-282 | the loops append only to the six metadata columns and `XY`/`trigger` |
| `BehavFacts.BehavFileValues` | preprocess/sessions.py:277-282 | a motor file appends to `XY` only itself and only when its second part is `XY`, and likewise `trigger` for `Trigger` |
| `BehavFacts.BehavFrameMotor` | preprocess/sessions.py:260-284 | in a built frame `XY` holds only files with the category's marker, five parts and second part `XY`, and `trigger` only such files with second part `Trigger` |
| `BehavFacts.BehavShape` | preprocess/sessions.py:260-284 | a built frame has only those columns, and, for a non-empty table, one value per session in every column |

## Left out

- Filesystem access is not modelled as I/O. `os.listdir` reads a `Listing` parameter, and `Path` joining is string concatenation with `/`.
- Exception messages are left out. Each exception is a constructor of `Outcome.Error` that carries the offending name. The text of the `ValueError` messages, for example the list of valid categories, is not modelled.
- pandas is left out beyond what the functions use. The frame is a map from column name to the list of values. `reset_index`, column dtypes and the frame's index are not modelled. `pd.DataFrame` is modelled only as its failure on columns of unequal length. The frame's column order is lost: `pd.DataFrame(ret)` orders columns by their first append into the `defaultdict`, but `Columns` is a map, which has no order.
- The order in which `sort_index()` places equal paths is not modelled. The model sorts by insertion. `Registry.SortedUnique` and `StaticFacts.RegistryDistinct` show that equal paths never occur in the registry.
- The registry lookup in `get_sessions_df` runs `get_all_sessions()` afresh on each call. The model uses the one value `AllSessions()`; the function is pure, so the result is the same.
- The `iloc[loc - 1]` wrap-around to the last row is modelled, in `Registry.PrevRow`. It is proved unreachable for the fixed tables, in `StaticFacts.NoWrapAround` and `MetaFacts.PreviousIsEarlierRow`. A caller passing another registry is not considered.
- Unused imports are left out. Nothing is modelled for `typing.Optional` or the module's `__author__`.
