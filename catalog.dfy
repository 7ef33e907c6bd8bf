/**
 * `get_sessions_df`: for every session of one experiment category, the
 * session's metadata and the files of its directory, sorted into bucket
 * columns, gathered into one frame.
 *
 * The filesystem is a `Listing`, a map from a directory (relative to the
 * experiments folder) to the names `os.listdir` returns for it; the
 * order of each list is the listing order the loops see. A directory
 * missing from the map is the `FileNotFoundError` of `os.listdir`, or
 * the `NotADirectoryError` for a plain file.
 *
 * Each loop is a method that threads the `defaultdict` through, and is
 * proved equal to a specification function that gives the appends of
 * the whole computation as a `Log` (or the error that stops it).
 */
module Catalog {
  import opened PyStrings
  import opened Taxonomy
  import opened Registry
  import opened Outcome
  import opened Columns
  import opened Classify

  type Listing = map<string, seq<string>>

  /** `os.listdir(dir)`: a name missing from the listing is a path that is absent or not a directory. */
  function ListDir(listing: Listing, dir: string): Result<seq<string>>
  {
    if dir in listing then Ok(listing[dir]) else Err(MissingDirectory(dir))
  }

  function ImDir(path: string): string { path + "/im" }

  function ImSubDir(path: string, dir: string): string { path + "/im/" + dir }

  function MotorDir(path: string): string { path + "/motor" }

  const BehaviorLabel: string := "BEHAVIOR"

  // --- specification: the appends of each loop ----------------------------

  function ImagingFileStep(dir: string): string -> Result<Log>
  {
    (file: string) => Ok(ImagingFileLog(dir, file))
  }

  /** The files of `im/<dir>/`, one after the other. */
  function ImagingDirLog(listing: Listing, path: string, dir: string): Result<Log>
  {
    var files :- ListDir(listing, ImSubDir(path, dir));
    FoldLogs(files, ImagingFileStep(dir))
  }

  function ImagingDirStep(listing: Listing, path: string): string -> Result<Log>
  {
    (dir: string) => ImagingDirLog(listing, path, dir)
  }

  /** Every subdirectory of `im/`, one after the other. */
  function ImagingLog(listing: Listing, path: string): Result<Log>
  {
    var dirs :- ListDir(listing, ImDir(path));
    FoldLogs(dirs, ImagingDirStep(listing, path))
  }

  /** The files of `motor/`, one after the other. */
  function MotorLog(listing: Listing, path: string): Result<Log>
  {
    var files :- ListDir(listing, MotorDir(path));
    FoldLogs(files, MotorFileLog)
  }

  /**
   * One entry `name` of the session directory. Outside the behaviour
   * category a name starting "im" descends into `im/`, and the name then
   * goes through the top-level prefix chain; in every category a name
   * starting "mo" descends into `motor/`.
   */
  function ChildLog(listing: Listing, path: string, category: string, name: string): Result<Log>
  {
    var bmi :=
      if category != BehaviorLabel then
        Then(if Slice(name, 0, 2) == "im" then ImagingLog(listing, path) else Ok([]), Ok(TopLevelLog(name)))
      else Ok([]);
    Then(bmi, if Slice(name, 0, 2) == "mo" then MotorLog(listing, path) else Ok([]))
  }

  function ChildStep(listing: Listing, path: string, category: string): string -> Result<Log>
  {
    (name: string) => ChildLog(listing, path, category, name)
  }

  /** The metadata row of one session. */
  datatype SessionMeta = SessionMeta(
    mouse: string, date: string, dayInit: string, ordinal: string,
    previous: string, category: string, path: string, dayIndex: nat)

  /** The path splits into mouse, date and day, and is a path of the registry. */
  predicate Catalogued(registry: seq<Row>, path: string)
  {
    |Split(path, '/')| == 3 && IndexOf(registry, path) >= 0
  }

  /**
   * The metadata of session `path`, the `dayIndex`-th of its mouse: a
   * second or third session of a day records the category of the
   * registry row just before its own, a first session records "None".
   */
  function MetaOf(registry: seq<Row>, category: string, dayIndex: nat, path: string): SessionMeta
    requires Catalogued(registry, path)
  {
    var parts := Split(path, '/');
    var ordinal := SessionDay(parts[2]);
    var previous := if ordinal == "1st" then "None" else PrevRow(registry, IndexOf(registry, path)).experimentType;
    SessionMeta(parts[0], parts[1], parts[2], ordinal, previous, category, path, dayIndex)
  }

  /** The metadata columns, in the order the loop appends to them. */
  const MetaColumns: seq<string> := [
    "mice_name", "session_date", "day_init", "session_day",
    "previous_session", "experiment_type", "session_path", "day_index"
  ]

  /** The value of row `m` in metadata column `column`. */
  function MetaCell(m: SessionMeta, column: string): Value
  {
    if column == "mice_name" then Text(m.mouse)
    else if column == "session_date" then Text(m.date)
    else if column == "day_init" then Text(m.dayInit)
    else if column == "session_day" then Text(m.ordinal)
    else if column == "previous_session" then Text(m.previous)
    else if column == "experiment_type" then Text(m.category)
    else if column == "session_path" then Text(m.path)
    else Index(m.dayIndex)
  }

  /** The eight metadata appends of one session. */
  function MetaEvents(m: SessionMeta): Log
  {
    [
      Append("mice_name", MetaCell(m, "mice_name")),
      Append("session_date", MetaCell(m, "session_date")),
      Append("day_init", MetaCell(m, "day_init")),
      Append("session_day", MetaCell(m, "session_day")),
      Append("previous_session", MetaCell(m, "previous_session")),
      Append("experiment_type", MetaCell(m, "experiment_type")),
      Append("session_path", MetaCell(m, "session_path")),
      Append("day_index", MetaCell(m, "day_index"))
    ]
  }

  /** The metadata appends of a session, or the error of its split or of its registry lookup. */
  function MetaLog(registry: seq<Row>, category: string, dayIndex: nat, path: string): Result<Log>
  {
    if |Split(path, '/')| != 3 then Err(MalformedSessionPath(path))
    else if IndexOf(registry, path) < 0 then Err(SessionNotRegistered(path))
    else Ok(MetaEvents(MetaOf(registry, category, dayIndex, path)))
  }

  /** The one session whose imaging data lacks ROI and mask files. */
  const MissingRoiSession: string := "ago18/221117/D06"

  function OverrideLog(path: string): Log
  {
    if path == MissingRoiSession then [Append("roi_data", Text("missing")), Append("mask_data", Text("missing"))] else []
  }

  /** One session: its metadata, then the entries of its directory, then the override. */
  function SessionLog(listing: Listing, registry: seq<Row>, category: string, dayIndex: nat, path: string): Result<Log>
  {
    var meta :- MetaLog(registry, category, dayIndex, path);
    var names :- ListDir(listing, path);
    var children :- FoldLogs(names, ChildStep(listing, path, category));
    Ok(meta + children + OverrideLog(path))
  }

  /** `enumerate(paths)`. */
  function Enumerate(paths: seq<string>): (e: seq<(nat, string)>)
    ensures |e| == |paths|
    ensures forall i | 0 <= i < |e| :: e[i] == (i, paths[i])
  {
    seq(|paths|, i requires 0 <= i < |paths| => (i, paths[i]))
  }

  function SessionStep(listing: Listing, registry: seq<Row>, category: string): ((nat, string)) -> Result<Log>
  {
    (e: (nat, string)) => SessionLog(listing, registry, category, e.0, e.1)
  }

  /** The sessions of one mouse, numbered from 0. */
  function MouseLog(listing: Listing, registry: seq<Row>, category: string, paths: seq<string>): Result<Log>
  {
    FoldLogs(Enumerate(paths), SessionStep(listing, registry, category))
  }

  function MouseStep(listing: Listing, registry: seq<Row>, category: string): MouseSessions -> Result<Log>
  {
    (m: MouseSessions) => MouseLog(listing, registry, category, m.paths)
  }

  /** Every mouse of the table, in the table's order. */
  function TableLog(listing: Listing, registry: seq<Row>, category: string, table: Table): Result<Log>
  {
    FoldLogs(table, MouseStep(listing, registry, category))
  }

  /** The table a category reads, or the error for an unknown category. */
  function CategoryTable(category: string): Result<Table>
  {
    if category == StimAgoLabel then Ok(BmiStimAgo)
    else if category == RandomLabel then Ok(BmiRandom)
    else if category == LightLabel then Ok(BmiStim)
    else if category == AgoLabel then Ok(BmiAgo)
    else if category == BehaviorLabel then Ok(Behavior)
    else Err(UnknownExperimentType(category))
  }

  /** The frame for `table`, with `registry` as the sorted list of all sessions. */
  function SessionsFrame(listing: Listing, registry: seq<Row>, category: string, table: Table): Result<Columns>
  {
    var ret :- Extend(map[], TableLog(listing, registry, category, table));
    Frame(ret)
  }

  /** `get_sessions_df(folder, category)`. */
  function SessionsDf(listing: Listing, category: string): Result<Columns>
  {
    var table :- CategoryTable(category);
    SessionsFrame(listing, AllSessions(), category, table)
  }

  // --- the loops --------------------------------------------------------

  /** `np.where(df["index"] == path)[0][0]`, with -1 for the `IndexError` of an empty match. */
  method LocateSession(registry: seq<Row>, path: string) returns (loc: int)
    ensures loc == IndexOf(registry, path)
  {
    var i := 0;
    while i < |registry|
      invariant 0 <= i <= |registry|
      invariant forall j | 0 <= j < i :: registry[j].path != path
    {
      if registry[i].path == path {
        return i;
      }
      i := i + 1;
    }
    return -1;
  }

  /** The body of the innermost loop: one file of `im/<dir>/` into its buckets. */
  method ScanImagingFile(dir: string, file: string, ret: Columns) returns (r: Columns)
    ensures r == Accumulate(ret, ImagingFileLog(dir, file))
  {
    r := ret;
    if Slice(file, 0, 8) == "baseline" {
      r := Push(r, "Baseline_im", Text(file));
      r := Push(r, "Voltage_Baseline", Text(file + VoltageSuffix));
      AccumulateTwo(ret, Append("Baseline_im", Text(file)), Append("Voltage_Baseline", Text(file + VoltageSuffix)));
    } else if Slice(file, 0, 8) in ["BMI_stim", "RandomDR"] {
      r := Push(r, "Voltage_rec", Text(file + VoltageSuffix));
      r := Push(r, "Experiment_im", Text(file));
      r := Push(r, "Experiment_dir", Text(dir));
      ghost var first := [Append("Voltage_rec", Text(file + VoltageSuffix)), Append("Experiment_im", Text(file))];
      AccumulateTwo(ret, first[0], first[1]);
      AccumulateSnoc(ret, first, Append("Experiment_dir", Text(dir)));
      assert first + [Append("Experiment_dir", Text(dir))] == ImagingFileLog(dir, file);
    }
  }

  /** The innermost loop, over the files of `im/<dir>/`. */
  method ScanImagingDir(listing: Listing, path: string, dir: string, ret: Columns) returns (r: Result<Columns>)
    ensures r == Extend(ret, ImagingDirLog(listing, path, dir))
  {
    var listed := ListDir(listing, ImSubDir(path, dir));
    if listed.Err? {
      return Err(listed.error);
    }
    var files := listed.value;
    var cur := ret;
    var i := 0;
    while i < |files|
      invariant 0 <= i <= |files|
      invariant Extend(ret, FoldLogs(files[..i], ImagingFileStep(dir))) == Ok(cur)
    {
      var next := ScanImagingFile(dir, files[i], cur);
      assert ImagingFileStep(dir)(files[i]) == Ok(ImagingFileLog(dir, files[i]));
      LoopStep(ret, files, i, ImagingFileStep(dir), cur);
      cur := next;
      i := i + 1;
    }
    assert files[..i] == files;
    return Ok(cur);
  }

  /** The loop over the subdirectories of `im/`. */
  method ScanImaging(listing: Listing, path: string, ret: Columns) returns (r: Result<Columns>)
    ensures r == Extend(ret, ImagingLog(listing, path))
  {
    var listed := ListDir(listing, ImDir(path));
    if listed.Err? {
      return Err(listed.error);
    }
    var dirs := listed.value;
    var cur := ret;
    var i := 0;
    while i < |dirs|
      invariant 0 <= i <= |dirs|
      invariant Extend(ret, FoldLogs(dirs[..i], ImagingDirStep(listing, path))) == Ok(cur)
    {
      var next := ScanImagingDir(listing, path, dirs[i], cur);
      assert ImagingDirStep(listing, path)(dirs[i]) == ImagingDirLog(listing, path, dirs[i]);
      LoopStep(ret, dirs, i, ImagingDirStep(listing, path), cur);
      if next.Err? {
        LoopStops(ret, dirs, i + 1, ImagingDirStep(listing, path));
        return next;
      }
      cur := next.value;
      i := i + 1;
    }
    assert dirs[..i] == dirs;
    return Ok(cur);
  }

  /** The body of the loop over `motor/`: one file into its bucket, or the unpacking error. */
  method ScanMotorFile(file: string, ret: Columns) returns (r: Result<Columns>)
    ensures r == Extend(ret, MotorFileLog(file))
  {
    var cur := ret;
    if Slice(file, -7, -4) in ["ine", "BMI"] {
      var parts := Split(file, '_');
      if |parts| != 4 {
        return Err(MalformedMotorFile(file));
      }
      var kind, ending := parts[1], parts[3];
      if kind == "XY" {
        if ending == "baseline.csv" {
          cur := Push(cur, "XY_baseline", Text(file));
          AccumulateOne(ret, Append("XY_baseline", Text(file)));
        } else if ending == "BMI.csv" {
          cur := Push(cur, "XY_BMI", Text(file));
          AccumulateOne(ret, Append("XY_BMI", Text(file)));
        }
      } else if kind == "Trigger" {
        if ending == "baseline.csv" {
          cur := Push(cur, "trigger_baseline", Text(file));
          AccumulateOne(ret, Append("trigger_baseline", Text(file)));
        } else if ending == "BMI.csv" {
          cur := Push(cur, "trigger_BMI", Text(file));
          AccumulateOne(ret, Append("trigger_BMI", Text(file)));
        }
      }
    }
    return Ok(cur);
  }

  /** The loop over the files of `motor/`. */
  method ScanMotor(listing: Listing, path: string, ret: Columns) returns (r: Result<Columns>)
    ensures r == Extend(ret, MotorLog(listing, path))
  {
    var listed := ListDir(listing, MotorDir(path));
    if listed.Err? {
      return Err(listed.error);
    }
    var files := listed.value;
    var cur := ret;
    var i := 0;
    while i < |files|
      invariant 0 <= i <= |files|
      invariant Extend(ret, FoldLogs(files[..i], MotorFileLog)) == Ok(cur)
    {
      var next := ScanMotorFile(files[i], cur);
      LoopStep(ret, files, i, MotorFileLog, cur);
      if next.Err? {
        LoopStops(ret, files, i + 1, MotorFileLog);
        return next;
      }
      cur := next.value;
      i := i + 1;
    }
    assert files[..i] == files;
    return Ok(cur);
  }

  /** The effect of the top-level prefix chain on the columns. */
  lemma TopLevelPushes(m: Columns, name: string)
    ensures Accumulate(m, TopLevelLog(name)) ==
      if Slice(name, 0, 10) == "BaselineOn" then Push(m, "Baseline_online", Text(name))
      else if Slice(name, 0, 10) == "BMI_online" then Push(m, "BMI_online", Text(name))
      else if Slice(name, 0, 10) == "BMI_target" then Push(m, "BMI_target", Text(name))
      else if Slice(name, 0, 8) == "roi_data" then Push(m, "roi_data", Text(name))
      else if Slice(name, 0, 8) == "strcMask" then Push(m, "mask_data", Text(name))
      else if Slice(name, 0, 10) == "target_cal" then Push(m, "target_calibration", Text(name))
      else m
  {
    var log := TopLevelLog(name);
    if |log| == 1 {
      AccumulateOne(m, log[0]);
    }
  }

  /** The body of the loop over the entries of the session directory. */
  method ScanChild(listing: Listing, path: string, category: string, name: string, ret: Columns) returns (r: Result<Columns>)
    ensures r == Extend(ret, ChildLog(listing, path, category, name))
  {
    var cur := ret;
    ghost var im := if Slice(name, 0, 2) == "im" then ImagingLog(listing, path) else Ok([]);
    ghost var bmi := if category != BehaviorLabel then Then(im, Ok(TopLevelLog(name))) else Ok([]);
    if category != BehaviorLabel {
      if Slice(name, 0, 2) == "im" {
        var next := ScanImaging(listing, path, cur);
        if next.Err? {
          return next;
        }
        cur := next.value;
      }
      var top := cur;
      if Slice(name, 0, 10) == "BaselineOn" {
        cur := Push(cur, "Baseline_online", Text(name));
      } else if Slice(name, 0, 10) == "BMI_online" {
        cur := Push(cur, "BMI_online", Text(name));
      } else if Slice(name, 0, 10) == "BMI_target" {
        cur := Push(cur, "BMI_target", Text(name));
      } else if Slice(name, 0, 8) == "roi_data" {
        cur := Push(cur, "roi_data", Text(name));
      } else if Slice(name, 0, 8) == "strcMask" {
        cur := Push(cur, "mask_data", Text(name));
      } else if Slice(name, 0, 10) == "target_cal" {
        cur := Push(cur, "target_calibration", Text(name));
      }
      TopLevelPushes(top, name);
      assert Extend(top, Ok(TopLevelLog(name))) == Ok(cur);
      ExtendThen(ret, im, Ok(TopLevelLog(name)), top);
    }
    assert Extend(ret, bmi) == Ok(cur);
    ghost var mo := if Slice(name, 0, 2) == "mo" then MotorLog(listing, path) else Ok([]);
    ExtendThen(ret, bmi, mo, cur);
    if Slice(name, 0, 2) == "mo" {
      r := ScanMotor(listing, path, cur);
    } else {
      r := Ok(cur);
    }
  }

  /** The metadata appends of one session, and its registry lookup. */
  method ScanMeta(registry: seq<Row>, category: string, dayIndex: nat, path: string, ret: Columns)
    returns (r: Result<Columns>)
    ensures r == Extend(ret, MetaLog(registry, category, dayIndex, path))
  {
    var parts := Split(path, '/');
    if |parts| != 3 {
      return Err(MalformedSessionPath(path));
    }
    var cur := ret;
    cur := Push(cur, "mice_name", Text(parts[0]));
    ghost var c1 := cur;
    cur := Push(cur, "session_date", Text(parts[1]));
    ghost var c2 := cur;
    cur := Push(cur, "day_init", Text(parts[2]));
    ghost var c3 := cur;
    var loc := LocateSession(registry, path);
    if loc < 0 {
      return Err(SessionNotRegistered(path));
    }
    var dayInit := parts[2];
    ghost var ordinal, previous, c4;
    if Slice(dayInit, -2, |dayInit|) == "-2" {
      cur := Push(cur, "session_day", Text("2nd"));
      c4 := cur;
      cur := Push(cur, "previous_session", Text(PrevRow(registry, loc).experimentType));
      ordinal, previous := "2nd", PrevRow(registry, loc).experimentType;
    } else if Slice(dayInit, -2, |dayInit|) == "-3" {
      cur := Push(cur, "session_day", Text("3rd"));
      c4 := cur;
      cur := Push(cur, "previous_session", Text(PrevRow(registry, loc).experimentType));
      ordinal, previous := "3rd", PrevRow(registry, loc).experimentType;
    } else {
      cur := Push(cur, "session_day", Text("1st"));
      c4 := cur;
      cur := Push(cur, "previous_session", Text("None"));
      ordinal, previous := "1st", "None";
    }
    ghost var c5 := cur;
    cur := Push(cur, "experiment_type", Text(category));
    ghost var c6 := cur;
    cur := Push(cur, "session_path", Text(path));
    ghost var c7 := cur;
    cur := Push(cur, "day_index", Index(dayIndex));

    ghost var m := SessionMeta(parts[0], parts[1], parts[2], ordinal, previous, category, path, dayIndex);
    assert m == MetaOf(registry, category, dayIndex, path);
    MetaSteps(ret, m, c1, c2, c3, c4, c5, c6, c7, cur);
    assert Extend(ret, Ok(MetaEvents(m))) == Ok(Accumulate(ret, MetaEvents(m)));
    return Ok(cur);
  }

  lemma MetaEventsAt(m: SessionMeta)
    ensures |MetaEvents(m)| == 8
    ensures MetaEvents(m)[0] == Append("mice_name", Text(m.mouse))
    ensures MetaEvents(m)[1] == Append("session_date", Text(m.date))
    ensures MetaEvents(m)[2] == Append("day_init", Text(m.dayInit))
    ensures MetaEvents(m)[3] == Append("session_day", Text(m.ordinal))
    ensures MetaEvents(m)[4] == Append("previous_session", Text(m.previous))
    ensures MetaEvents(m)[5] == Append("experiment_type", Text(m.category))
    ensures MetaEvents(m)[6] == Append("session_path", Text(m.path))
    ensures MetaEvents(m)[7] == Append("day_index", Index(m.dayIndex))
  {
  }

  /** Eight pushes of the metadata row, state after state, perform its metadata appends. */
  lemma MetaSteps(ret: Columns, m: SessionMeta, c1: Columns, c2: Columns, c3: Columns, c4: Columns,
                  c5: Columns, c6: Columns, c7: Columns, c8: Columns)
    requires c1 == Push(ret, "mice_name", Text(m.mouse))
    requires c2 == Push(c1, "session_date", Text(m.date))
    requires c3 == Push(c2, "day_init", Text(m.dayInit))
    requires c4 == Push(c3, "session_day", Text(m.ordinal))
    requires c5 == Push(c4, "previous_session", Text(m.previous))
    requires c6 == Push(c5, "experiment_type", Text(m.category))
    requires c7 == Push(c6, "session_path", Text(m.path))
    requires c8 == Push(c7, "day_index", Index(m.dayIndex))
    ensures c8 == Accumulate(ret, MetaEvents(m))
  {
    var e := MetaEvents(m);
    MetaEventsAt(m);
    assert e[..0] == [];
    PushNext(ret, e, 0, ret);
    PushNext(ret, e, 1, c1);
    PushNext(ret, e, 2, c2);
    PushNext(ret, e, 3, c3);
    PushNext(ret, e, 4, c4);
    PushNext(ret, e, 5, c5);
    PushNext(ret, e, 6, c6);
    PushNext(ret, e, 7, c7);
    assert e[..8] == e;
  }

  /** The loop over the entries of the session directory. */
  method ScanEntries(listing: Listing, path: string, category: string, names: seq<string>, ret: Columns)
    returns (r: Result<Columns>)
    ensures r == Extend(ret, FoldLogs(names, ChildStep(listing, path, category)))
  {
    var cur := ret;
    var i := 0;
    while i < |names|
      invariant 0 <= i <= |names|
      invariant Extend(ret, FoldLogs(names[..i], ChildStep(listing, path, category))) == Ok(cur)
    {
      var next := ScanChild(listing, path, category, names[i], cur);
      assert ChildStep(listing, path, category)(names[i]) == ChildLog(listing, path, category, names[i]);
      LoopStep(ret, names, i, ChildStep(listing, path, category), cur);
      if next.Err? {
        LoopStops(ret, names, i + 1, ChildStep(listing, path, category));
        return next;
      }
      cur := next.value;
      i := i + 1;
    }
    assert names[..i] == names;
    return Ok(cur);
  }

  /** One iteration of `enumerate(sessions)`: the metadata, then the directory, then the override. */
  method ScanSession(listing: Listing, registry: seq<Row>, category: string, dayIndex: nat, path: string, ret: Columns)
    returns (r: Result<Columns>)
    ensures r == Extend(ret, SessionLog(listing, registry, category, dayIndex, path))
  {
    var meta := ScanMeta(registry, category, dayIndex, path, ret);
    if meta.Err? {
      return meta;
    }
    var listed := ListDir(listing, path);
    if listed.Err? {
      return Err(listed.error);
    }
    var entries := ScanEntries(listing, path, category, listed.value, meta.value);
    if entries.Err? {
      return entries;
    }
    var cur := entries.value;
    if path == MissingRoiSession {
      cur := Push(cur, "roi_data", Text("missing"));
      cur := Push(cur, "mask_data", Text("missing"));
      AccumulateTwo(entries.value, Append("roi_data", Text("missing")), Append("mask_data", Text("missing")));
    }
    ghost var metaLog := MetaLog(registry, category, dayIndex, path).value;
    ghost var children := FoldLogs(listed.value, ChildStep(listing, path, category)).value;
    AccumulateConcat(ret, metaLog, children);
    AccumulateConcat(ret, metaLog + children, OverrideLog(path));
    return Ok(cur);
  }

  /** The loop over `enumerate(sessions)` of one mouse. */
  method ScanMouse(listing: Listing, registry: seq<Row>, category: string, paths: seq<string>, ret: Columns)
    returns (r: Result<Columns>)
    ensures r == Extend(ret, MouseLog(listing, registry, category, paths))
  {
    ghost var sessions := Enumerate(paths);
    var cur := ret;
    var dayIndex := 0;
    while dayIndex < |paths|
      invariant 0 <= dayIndex <= |paths|
      invariant Extend(ret, FoldLogs(sessions[..dayIndex], SessionStep(listing, registry, category))) == Ok(cur)
    {
      var next := ScanSession(listing, registry, category, dayIndex, paths[dayIndex], cur);
      assert SessionStep(listing, registry, category)(sessions[dayIndex]) == SessionLog(listing, registry, category, dayIndex, paths[dayIndex]);
      LoopStep(ret, sessions, dayIndex, SessionStep(listing, registry, category), cur);
      if next.Err? {
        LoopStops(ret, sessions, dayIndex + 1, SessionStep(listing, registry, category));
        return next;
      }
      cur := next.value;
      dayIndex := dayIndex + 1;
    }
    assert sessions[..dayIndex] == sessions;
    return Ok(cur);
  }

  /** One more mouse of the loop over `table`; a mouse that fails ends the loop with its error. */
  lemma TableLoopStep(listing: Listing, registry: seq<Row>, category: string, table: Table, k: nat, ret: Columns, cur: Columns)
    requires k < |table| && Extend(ret, FoldLogs(table[..k], MouseStep(listing, registry, category))) == Ok(cur)
    ensures Extend(ret, FoldLogs(table[..k + 1], MouseStep(listing, registry, category))) ==
      Extend(cur, MouseLog(listing, registry, category, table[k].paths))
    ensures Extend(cur, MouseLog(listing, registry, category, table[k].paths)).Err? ==>
      Extend(ret, TableLog(listing, registry, category, table)) == Extend(cur, MouseLog(listing, registry, category, table[k].paths))
  {
    var step := MouseStep(listing, registry, category);
    assert step(table[k]) == MouseLog(listing, registry, category, table[k].paths);
    LoopStep(ret, table, k, step, cur);
    if Extend(cur, MouseLog(listing, registry, category, table[k].paths)).Err? {
      LoopStops(ret, table, k + 1, step);
    }
  }

  /** The loop over the mice of `table`. */
  method ScanTable(listing: Listing, registry: seq<Row>, category: string, table: Table, ret: Columns)
    returns (r: Result<Columns>)
    ensures r == Extend(ret, TableLog(listing, registry, category, table))
  {
    var cur := ret;
    var k := 0;
    while k < |table|
      invariant 0 <= k <= |table|
      invariant Extend(ret, FoldLogs(table[..k], MouseStep(listing, registry, category))) == Ok(cur)
    {
      var next := ScanMouse(listing, registry, category, table[k].paths, cur);
      TableLoopStep(listing, registry, category, table, k, ret, cur);
      if next.Err? {
        return next;
      }
      cur := next.value;
      k := k + 1;
    }
    assert table[..k] == table;
    return Ok(cur);
  }

  /** `get_sessions_df(folder, category)`: the category's table, or the error for an unknown one, then the frame. */
  method GetSessionsDf(listing: Listing, category: string) returns (r: Result<Columns>)
    ensures r == SessionsDf(listing, category)
  {
    var registry := AllSessions();
    var chosen := CategoryTable(category);
    if chosen.Err? {
      return Err(chosen.error);
    }
    var ret := ScanTable(listing, registry, category, chosen.value, map[]);
    if ret.Err? {
      return ret;
    }
    r := Frame(ret.value);
  }
}
