/**
 * `get_behav_df`: for every session of one behaviour category, the
 * session's metadata and its motor recordings whose marker names the
 * category, gathered into one frame. The filesystem is the `Listing` of
 * `Catalog`; there is no registry lookup, and only entries starting "mo"
 * are descended into.
 */
module BehavDf {
  import opened PyStrings
  import opened Taxonomy
  import opened Outcome
  import opened Columns
  import opened Classify
  import opened Catalog

  const InitialLabel: string := "Initial_behavior"
  const BeforeLabel: string := "Behavior_before"

  /** The table a behaviour category reads and the marker its motor files carry, or the error for an unknown category. */
  function BehavCategory(category: string): Result<(Table, string)>
  {
    if category == InitialLabel then Ok((MotorInitial, "ior"))
    else if category == BeforeLabel then Ok((MotorBeforeBmi, "ore"))
    else Err(UnknownExperimentType(category))
  }

  // --- specification: the appends of each loop ----------------------------

  function BehavMotorStep(marker: string): string -> Result<Log>
  {
    (file: string) => BehavMotorFileLog(file, marker)
  }

  /** The files of `motor/`, one after the other. */
  function BehavMotorLog(listing: Listing, path: string, marker: string): Result<Log>
  {
    var files :- ListDir(listing, MotorDir(path));
    FoldLogs(files, BehavMotorStep(marker))
  }

  /** One entry of the session directory: only a name starting "mo" descends into `motor/`. */
  function BehavChildLog(listing: Listing, path: string, marker: string, name: string): Result<Log>
  {
    if Slice(name, 0, 2) == "mo" then BehavMotorLog(listing, path, marker) else Ok([])
  }

  function BehavChildStep(listing: Listing, path: string, marker: string): string -> Result<Log>
  {
    (name: string) => BehavChildLog(listing, path, marker, name)
  }

  /** The metadata row of one behaviour session. */
  datatype BehavMeta = BehavMeta(mouse: string, date: string, dayInit: string, category: string, path: string, dayIndex: nat)

  predicate ThreeParts(path: string)
  {
    |Split(path, '/')| == 3
  }

  function BehavMetaOf(category: string, dayIndex: nat, path: string): BehavMeta
    requires ThreeParts(path)
  {
    var parts := Split(path, '/');
    BehavMeta(parts[0], parts[1], parts[2], category, path, dayIndex)
  }

  /** The metadata columns, in the order the loop appends to them. */
  const BehavMetaColumns: seq<string> := ["mice_name", "session_date", "day_init", "experiment_type", "session_path", "day_index"]

  function BehavMetaCell(m: BehavMeta, column: string): Value
  {
    if column == "mice_name" then Text(m.mouse)
    else if column == "session_date" then Text(m.date)
    else if column == "day_init" then Text(m.dayInit)
    else if column == "experiment_type" then Text(m.category)
    else if column == "session_path" then Text(m.path)
    else Index(m.dayIndex)
  }

  /** The six metadata appends of one session. */
  function BehavMetaEvents(m: BehavMeta): Log
  {
    [
      Append("mice_name", BehavMetaCell(m, "mice_name")),
      Append("session_date", BehavMetaCell(m, "session_date")),
      Append("day_init", BehavMetaCell(m, "day_init")),
      Append("experiment_type", BehavMetaCell(m, "experiment_type")),
      Append("session_path", BehavMetaCell(m, "session_path")),
      Append("day_index", BehavMetaCell(m, "day_index"))
    ]
  }

  function BehavMetaLog(category: string, dayIndex: nat, path: string): Result<Log>
  {
    if !ThreeParts(path) then Err(MalformedSessionPath(path))
    else Ok(BehavMetaEvents(BehavMetaOf(category, dayIndex, path)))
  }

  /** One session: its metadata, then the entries of its directory. */
  function BehavSessionLog(listing: Listing, category: string, marker: string, dayIndex: nat, path: string): Result<Log>
  {
    var meta :- BehavMetaLog(category, dayIndex, path);
    var names :- ListDir(listing, path);
    var children :- FoldLogs(names, BehavChildStep(listing, path, marker));
    Ok(meta + children)
  }

  function BehavSessionStep(listing: Listing, category: string, marker: string): ((nat, string)) -> Result<Log>
  {
    (e: (nat, string)) => BehavSessionLog(listing, category, marker, e.0, e.1)
  }

  function BehavMouseLog(listing: Listing, category: string, marker: string, paths: seq<string>): Result<Log>
  {
    FoldLogs(Enumerate(paths), BehavSessionStep(listing, category, marker))
  }

  function BehavMouseStep(listing: Listing, category: string, marker: string): MouseSessions -> Result<Log>
  {
    (m: MouseSessions) => BehavMouseLog(listing, category, marker, m.paths)
  }

  function BehavTableLog(listing: Listing, category: string, marker: string, table: Table): Result<Log>
  {
    FoldLogs(table, BehavMouseStep(listing, category, marker))
  }

  function BehavFrame(listing: Listing, category: string, marker: string, table: Table): Result<Columns>
  {
    var ret :- Extend(map[], BehavTableLog(listing, category, marker, table));
    Frame(ret)
  }

  /** `get_behav_df(folder, category)`. */
  function BehavDfOf(listing: Listing, category: string): Result<Columns>
  {
    var chosen :- BehavCategory(category);
    BehavFrame(listing, category, chosen.1, chosen.0)
  }

  // --- the loops --------------------------------------------------------

  /** The body of the loop over `motor/`: a file with the category's marker into `XY` or `trigger`. */
  method ScanBehavMotorFile(file: string, marker: string, ret: Columns) returns (r: Result<Columns>)
    ensures r == Extend(ret, BehavMotorFileLog(file, marker))
  {
    var cur := ret;
    if Slice(file, -7, -4) == marker {
      var parts := Split(file, '_');
      if |parts| != 5 {
        return Err(MalformedMotorFile(file));
      }
      var kind := parts[1];
      if kind == "XY" {
        cur := Push(cur, "XY", Text(file));
        AccumulateOne(ret, Append("XY", Text(file)));
      } else if kind == "Trigger" {
        cur := Push(cur, "trigger", Text(file));
        AccumulateOne(ret, Append("trigger", Text(file)));
      }
    }
    return Ok(cur);
  }

  method ScanBehavMotor(listing: Listing, path: string, marker: string, ret: Columns) returns (r: Result<Columns>)
    ensures r == Extend(ret, BehavMotorLog(listing, path, marker))
  {
    var listed := ListDir(listing, MotorDir(path));
    if listed.Err? {
      return Err(listed.error);
    }
    var files := listed.value;
    var cur := ret;
    var i := 0;
    while i < |files|
      invariant 0 <= i <= |files|
      invariant Extend(ret, FoldLogs(files[..i], BehavMotorStep(marker))) == Ok(cur)
    {
      var next := ScanBehavMotorFile(files[i], marker, cur);
      assert BehavMotorStep(marker)(files[i]) == BehavMotorFileLog(files[i], marker);
      LoopStep(ret, files, i, BehavMotorStep(marker), cur);
      if next.Err? {
        LoopStops(ret, files, i + 1, BehavMotorStep(marker));
        return next;
      }
      cur := next.value;
      i := i + 1;
    }
    assert files[..i] == files;
    return Ok(cur);
  }

  /** The metadata appends of one session. */
  method ScanBehavMeta(category: string, dayIndex: nat, path: string, ret: Columns) returns (r: Result<Columns>)
    ensures r == Extend(ret, BehavMetaLog(category, dayIndex, path))
  {
    var parts := Split(path, '/');
    if |parts| != 3 {
      return Err(MalformedSessionPath(path));
    }
    var cur := Push(ret, "mice_name", Text(parts[0]));
    ghost var c1 := cur;
    cur := Push(cur, "session_date", Text(parts[1]));
    ghost var c2 := cur;
    cur := Push(cur, "day_init", Text(parts[2]));
    ghost var c3 := cur;
    cur := Push(cur, "experiment_type", Text(category));
    ghost var c4 := cur;
    cur := Push(cur, "session_path", Text(path));
    ghost var c5 := cur;
    cur := Push(cur, "day_index", Index(dayIndex));
    ghost var m := BehavMetaOf(category, dayIndex, path);
    BehavMetaSteps(ret, m, c1, c2, c3, c4, c5, cur);
    assert Extend(ret, Ok(BehavMetaEvents(m))) == Ok(Accumulate(ret, BehavMetaEvents(m)));
    return Ok(cur);
  }

  lemma BehavMetaEventsAt(m: BehavMeta)
    ensures |BehavMetaEvents(m)| == 6
    ensures BehavMetaEvents(m)[0] == Append("mice_name", Text(m.mouse))
    ensures BehavMetaEvents(m)[1] == Append("session_date", Text(m.date))
    ensures BehavMetaEvents(m)[2] == Append("day_init", Text(m.dayInit))
    ensures BehavMetaEvents(m)[3] == Append("experiment_type", Text(m.category))
    ensures BehavMetaEvents(m)[4] == Append("session_path", Text(m.path))
    ensures BehavMetaEvents(m)[5] == Append("day_index", Index(m.dayIndex))
  {
  }

  /** Six pushes of the metadata row, state after state, perform its metadata appends. */
  lemma BehavMetaSteps(ret: Columns, m: BehavMeta, c1: Columns, c2: Columns, c3: Columns, c4: Columns, c5: Columns, c6: Columns)
    requires c1 == Push(ret, "mice_name", Text(m.mouse))
    requires c2 == Push(c1, "session_date", Text(m.date))
    requires c3 == Push(c2, "day_init", Text(m.dayInit))
    requires c4 == Push(c3, "experiment_type", Text(m.category))
    requires c5 == Push(c4, "session_path", Text(m.path))
    requires c6 == Push(c5, "day_index", Index(m.dayIndex))
    ensures c6 == Accumulate(ret, BehavMetaEvents(m))
  {
    var e := BehavMetaEvents(m);
    BehavMetaEventsAt(m);
    assert e[..0] == [];
    PushNext(ret, e, 0, ret);
    PushNext(ret, e, 1, c1);
    PushNext(ret, e, 2, c2);
    PushNext(ret, e, 3, c3);
    PushNext(ret, e, 4, c4);
    PushNext(ret, e, 5, c5);
    assert e[..6] == e;
  }

  /** The loop over the entries of the session directory. */
  method ScanBehavEntries(listing: Listing, path: string, marker: string, names: seq<string>, ret: Columns)
    returns (r: Result<Columns>)
    ensures r == Extend(ret, FoldLogs(names, BehavChildStep(listing, path, marker)))
  {
    var cur := ret;
    var i := 0;
    while i < |names|
      invariant 0 <= i <= |names|
      invariant Extend(ret, FoldLogs(names[..i], BehavChildStep(listing, path, marker))) == Ok(cur)
    {
      var next: Result<Columns>;
      if Slice(names[i], 0, 2) == "mo" {
        next := ScanBehavMotor(listing, path, marker, cur);
      } else {
        next := Ok(cur);
      }
      assert BehavChildStep(listing, path, marker)(names[i]) == BehavChildLog(listing, path, marker, names[i]);
      LoopStep(ret, names, i, BehavChildStep(listing, path, marker), cur);
      if next.Err? {
        LoopStops(ret, names, i + 1, BehavChildStep(listing, path, marker));
        return next;
      }
      cur := next.value;
      i := i + 1;
    }
    assert names[..i] == names;
    return Ok(cur);
  }

  /** One iteration of `enumerate(sessions)`: the metadata, then the directory. */
  method ScanBehavSession(listing: Listing, category: string, marker: string, dayIndex: nat, path: string, ret: Columns)
    returns (r: Result<Columns>)
    ensures r == Extend(ret, BehavSessionLog(listing, category, marker, dayIndex, path))
  {
    var meta := ScanBehavMeta(category, dayIndex, path, ret);
    if meta.Err? {
      return meta;
    }
    var listed := ListDir(listing, path);
    if listed.Err? {
      return Err(listed.error);
    }
    r := ScanBehavEntries(listing, path, marker, listed.value, meta.value);
    if r.Ok? {
      AccumulateConcat(ret, BehavMetaLog(category, dayIndex, path).value,
        FoldLogs(listed.value, BehavChildStep(listing, path, marker)).value);
    }
  }

  method ScanBehavMouse(listing: Listing, category: string, marker: string, paths: seq<string>, ret: Columns)
    returns (r: Result<Columns>)
    ensures r == Extend(ret, BehavMouseLog(listing, category, marker, paths))
  {
    ghost var sessions := Enumerate(paths);
    var cur := ret;
    var dayIndex := 0;
    while dayIndex < |paths|
      invariant 0 <= dayIndex <= |paths|
      invariant Extend(ret, FoldLogs(sessions[..dayIndex], BehavSessionStep(listing, category, marker))) == Ok(cur)
    {
      var next := ScanBehavSession(listing, category, marker, dayIndex, paths[dayIndex], cur);
      assert BehavSessionStep(listing, category, marker)(sessions[dayIndex]) ==
        BehavSessionLog(listing, category, marker, dayIndex, paths[dayIndex]);
      LoopStep(ret, sessions, dayIndex, BehavSessionStep(listing, category, marker), cur);
      if next.Err? {
        LoopStops(ret, sessions, dayIndex + 1, BehavSessionStep(listing, category, marker));
        return next;
      }
      cur := next.value;
      dayIndex := dayIndex + 1;
    }
    assert sessions[..dayIndex] == sessions;
    return Ok(cur);
  }

  /** One more mouse of the loop over `table`; a mouse that fails ends the loop with its error. */
  lemma BehavTableLoopStep(listing: Listing, category: string, marker: string, table: Table, k: nat, ret: Columns, cur: Columns)
    requires k < |table| && Extend(ret, FoldLogs(table[..k], BehavMouseStep(listing, category, marker))) == Ok(cur)
    ensures Extend(ret, FoldLogs(table[..k + 1], BehavMouseStep(listing, category, marker))) ==
      Extend(cur, BehavMouseLog(listing, category, marker, table[k].paths))
    ensures Extend(cur, BehavMouseLog(listing, category, marker, table[k].paths)).Err? ==>
      Extend(ret, BehavTableLog(listing, category, marker, table)) == Extend(cur, BehavMouseLog(listing, category, marker, table[k].paths))
  {
    var step := BehavMouseStep(listing, category, marker);
    assert step(table[k]) == BehavMouseLog(listing, category, marker, table[k].paths);
    LoopStep(ret, table, k, step, cur);
    if Extend(cur, BehavMouseLog(listing, category, marker, table[k].paths)).Err? {
      LoopStops(ret, table, k + 1, step);
    }
  }

  method ScanBehavTable(listing: Listing, category: string, marker: string, table: Table, ret: Columns)
    returns (r: Result<Columns>)
    ensures r == Extend(ret, BehavTableLog(listing, category, marker, table))
  {
    var cur := ret;
    var k := 0;
    while k < |table|
      invariant 0 <= k <= |table|
      invariant Extend(ret, FoldLogs(table[..k], BehavMouseStep(listing, category, marker))) == Ok(cur)
    {
      var next := ScanBehavMouse(listing, category, marker, table[k].paths, cur);
      BehavTableLoopStep(listing, category, marker, table, k, ret, cur);
      if next.Err? {
        return next;
      }
      cur := next.value;
      k := k + 1;
    }
    assert table[..k] == table;
    return Ok(cur);
  }

  /** `get_behav_df(folder, category)`: the category's table and marker, or the error for an unknown one, then the frame. */
  method GetBehavDf(listing: Listing, category: string) returns (r: Result<Columns>)
    ensures r == BehavDfOf(listing, category)
  {
    var chosen := BehavCategory(category);
    if chosen.Err? {
      return Err(chosen.error);
    }
    var (table, marker) := chosen.value;
    var ret := ScanBehavTable(listing, category, marker, table, map[]);
    if ret.Err? {
      return ret;
    }
    r := Frame(ret.value);
  }
}
