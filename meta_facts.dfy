/**
 * What the metadata columns of `get_sessions_df` hold: one row per
 * session of the table, in table order, with the day index counting the
 * sessions of each mouse from 0; and which columns the frame can have.
 */
module MetaFacts {
  import opened PyStrings
  import opened Taxonomy
  import opened Registry
  import opened StaticFacts
  import opened Outcome
  import opened Columns
  import opened Classify
  import opened Catalog
  import opened CatalogFacts

  /** The columns the entries of a session directory, and the override, append to. */
  const BucketColumns: set<string> := ImagingColumns + TopLevelColumns + MotorColumns

  const MetaColumnSet: set<string> := set c | c in MetaColumns

  /** Every column the frame of `get_sessions_df` can have. */
  const FrameColumns: set<string> := MetaColumnSet + BucketColumns

  // --- the directory entries append only to bucket columns ------------------

  lemma ImagingDirColumns(listing: Listing, path: string, dir: string)
    ensures ImagingDirLog(listing, path, dir).Ok? ==> InColumns(ImagingDirLog(listing, path, dir).value, ImagingColumns)
  {
    var listed := ListDir(listing, ImSubDir(path, dir));
    if listed.Ok? {
      var files := listed.value;
      forall i | 0 <= i < |files|
        ensures ImagingFileStep(dir)(files[i]).Ok? ==> InColumns(ImagingFileStep(dir)(files[i]).value, ImagingColumns)
      {
        ImagingColumnsOnly(dir, files[i]);
      }
      FoldLogsColumns(files, ImagingFileStep(dir), ImagingColumns);
    }
  }

  /** Descending into `im/` appends only to the imaging columns. */
  lemma ImagingColumnsAll(listing: Listing, path: string)
    ensures ImagingLog(listing, path).Ok? ==> InColumns(ImagingLog(listing, path).value, ImagingColumns)
  {
    var listed := ListDir(listing, ImDir(path));
    if listed.Ok? {
      var dirs := listed.value;
      forall i | 0 <= i < |dirs|
        ensures ImagingDirStep(listing, path)(dirs[i]).Ok? ==> InColumns(ImagingDirStep(listing, path)(dirs[i]).value, ImagingColumns)
      {
        ImagingDirColumns(listing, path, dirs[i]);
      }
      FoldLogsColumns(dirs, ImagingDirStep(listing, path), ImagingColumns);
    }
  }

  /** Descending into `motor/` appends only to the four motor columns. */
  lemma MotorColumnsAll(listing: Listing, path: string)
    ensures MotorLog(listing, path).Ok? ==> InColumns(MotorLog(listing, path).value, MotorColumns)
  {
    var listed := ListDir(listing, MotorDir(path));
    if listed.Ok? {
      var files := listed.value;
      forall i | 0 <= i < |files|
        ensures MotorFileLog(files[i]).Ok? ==> InColumns(MotorFileLog(files[i]).value, MotorColumns)
      {
        MotorColumnsOnly(files[i]);
      }
      FoldLogsColumns(files, MotorFileLog, MotorColumns);
    }
  }

  /** One entry of the session directory appends only to bucket columns. */
  lemma ChildColumns(listing: Listing, path: string, category: string, name: string)
    ensures ChildLog(listing, path, category, name).Ok? ==> InColumns(ChildLog(listing, path, category, name).value, BucketColumns)
  {
    ImagingColumnsAll(listing, path);
    MotorColumnsAll(listing, path);
    TopLevelColumnsOnly(name);
    var im := if Slice(name, 0, 2) == "im" then ImagingLog(listing, path) else Ok([]);
    var top := Ok(TopLevelLog(name));
    var bmi := if category != BehaviorLabel then Then(im, top) else Ok([]);
    var mo := if Slice(name, 0, 2) == "mo" then MotorLog(listing, path) else Ok([]);
    assert ChildLog(listing, path, category, name) == Then(bmi, mo);
    if Then(bmi, mo).Ok? {
      if im.Ok? {
        assert InColumns(im.value, BucketColumns);
      }
      assert InColumns(top.value, BucketColumns);
      if category != BehaviorLabel {
        InColumnsConcat(im.value, top.value, BucketColumns);
      }
      assert InColumns(mo.value, BucketColumns);
      InColumnsConcat(bmi.value, mo.value, BucketColumns);
    }
  }

  /** In the behaviour category an entry neither descends into `im/` nor is bucketed by name: it appends only to motor columns. */
  lemma BehaviorChildColumns(listing: Listing, path: string, name: string)
    ensures ChildLog(listing, path, BehaviorLabel, name).Ok? ==> InColumns(ChildLog(listing, path, BehaviorLabel, name).value, MotorColumns)
  {
    MotorColumnsAll(listing, path);
    var mo := if Slice(name, 0, 2) == "mo" then MotorLog(listing, path) else Ok([]);
    assert ChildLog(listing, path, BehaviorLabel, name) == Then(Ok([]), mo);
    if mo.Ok? {
      assert [] + mo.value == mo.value;
    }
  }

  /** All entries of the session directory append only to bucket columns. */
  lemma EntriesColumns(listing: Listing, path: string, category: string, names: seq<string>)
    ensures FoldLogs(names, ChildStep(listing, path, category)).Ok? ==>
      InColumns(FoldLogs(names, ChildStep(listing, path, category)).value, BucketColumns)
  {
    forall i | 0 <= i < |names|
      ensures ChildStep(listing, path, category)(names[i]).Ok? ==>
        InColumns(ChildStep(listing, path, category)(names[i]).value, BucketColumns)
    {
      ChildColumns(listing, path, category, names[i]);
    }
    FoldLogsColumns(names, ChildStep(listing, path, category), BucketColumns);
  }

  /** No metadata column is a bucket column. */
  lemma MetaNotBucket(c: string)
    requires c in MetaColumns
    ensures c !in BucketColumns
  {
  }

  // --- a session's metadata appends -------------------------------------

  lemma MetaColumnsDistinct()
    ensures forall i, k | 0 <= i < k < |MetaColumns| :: MetaColumns[i] != MetaColumns[k]
  {
  }

  lemma {:induction false} ProjectAbsent(log: Log, c: string)
    requires forall i | 0 <= i < |log| :: log[i].column != c
    ensures Project(log, c) == []
  {
    if |log| > 0 {
      assert forall i | 0 <= i < |log[1..]| :: log[1..][i] == log[i + 1];
      ProjectAbsent(log[1..], c);
    }
  }

  /** A column `log` appends to exactly once receives exactly that value. */
  lemma {:induction false} ProjectSingle(log: Log, j: nat, c: string)
    requires j < |log| && log[j].column == c
    requires forall i | 0 <= i < |log| && i != j :: log[i].column != c
    ensures Project(log, c) == [log[j].value]
  {
    assert forall i | 0 <= i < |log[1..]| :: log[1..][i] == log[i + 1];
    if j == 0 {
      ProjectAbsent(log[1..], c);
    } else {
      ProjectSingle(log[1..], j - 1, c);
    }
  }

  /** The eight metadata appends put one value, the row's cell, in each metadata column. */
  lemma MetaEventsProject(m: SessionMeta, c: string)
    requires c in MetaColumns
    ensures Project(MetaEvents(m), c) == [MetaCell(m, c)]
  {
    var e := MetaEvents(m);
    assert forall i | 0 <= i < |e| :: e[i] == Append(MetaColumns[i], MetaCell(m, MetaColumns[i]));
    MetaColumnsDistinct();
    var j :| 0 <= j < |MetaColumns| && MetaColumns[j] == c;
    ProjectSingle(e, j, c);
  }

  lemma OverrideColumns(path: string)
    ensures InColumns(OverrideLog(path), BucketColumns)
  {
  }

  /** A successful session is catalogued and appends its metadata cell, once, to each metadata column. */
  lemma SessionProject(listing: Listing, registry: seq<Row>, category: string, dayIndex: nat, path: string, c: string)
    requires c in MetaColumns
    requires SessionLog(listing, registry, category, dayIndex, path).Ok?
    ensures Catalogued(registry, path)
    ensures Project(SessionLog(listing, registry, category, dayIndex, path).value, c) ==
      [MetaCell(MetaOf(registry, category, dayIndex, path), c)]
  {
    var meta := MetaEvents(MetaOf(registry, category, dayIndex, path));
    var names := ListDir(listing, path).value;
    var children := FoldLogs(names, ChildStep(listing, path, category)).value;
    EntriesColumns(listing, path, category, names);
    OverrideColumns(path);
    MetaNotBucket(c);
    ProjectOutside(children, BucketColumns, c);
    ProjectOutside(OverrideLog(path), BucketColumns, c);
    ProjectConcat(meta, children, c);
    ProjectConcat(meta + children, OverrideLog(path), c);
    MetaEventsProject(MetaOf(registry, category, dayIndex, path), c);
  }

  // --- rows, for any function of (day index, path) --------------------------

  /** `f(i, paths[i])` for every session `i` of one mouse, in order. */
  function RowsOf<R>(paths: seq<string>, f: (nat, string) --> R): (rows: seq<R>)
    requires forall i | 0 <= i < |paths| :: f.requires(i, paths[i])
    ensures |rows| == |paths|
  {
    if |paths| == 0 then []
    else
      var n := |paths| - 1;
      RowsOf(paths[..n], f) + [f(n, paths[n])]
  }

  lemma {:induction false} RowsOfAt<R>(paths: seq<string>, f: (nat, string) --> R, i: nat)
    requires forall j | 0 <= j < |paths| :: f.requires(j, paths[j])
    requires i < |paths|
    ensures RowsOf(paths, f)[i] == f(i, paths[i])
  {
    var n := |paths| - 1;
    if i < n {
      RowsOfAt(paths[..n], f, i);
    }
  }

  /** The rows of every mouse of the table, mouse after mouse. */
  function Gather<R>(table: Table, f: (nat, string) --> R): seq<R>
    requires forall k, i | 0 <= k < |table| && 0 <= i < |table[k].paths| :: f.requires(i, table[k].paths[i])
  {
    if |table| == 0 then []
    else
      var n := |table| - 1;
      Gather(table[..n], f) + RowsOf(table[n].paths, f)
  }

  lemma {:induction false} FlattenSnoc(t: Table)
    requires |t| > 0
    ensures Flatten(t) == Flatten(t[..|t| - 1]) + t[|t| - 1].paths
  {
    if |t| > 1 {
      FlattenSnoc(t[1..]);
      assert t[1..][..|t| - 2] == t[..|t| - 1][1..];
      assert t[1..][|t| - 2] == t[|t| - 1];
    } else {
      assert t[..0] == [];
    }
  }

  lemma {:induction false} GatherLength<R>(table: Table, f: (nat, string) --> R)
    requires forall k, i | 0 <= k < |table| && 0 <= i < |table[k].paths| :: f.requires(i, table[k].paths[i])
    ensures |Gather(table, f)| == |Flatten(table)|
  {
    if |table| > 0 {
      GatherLength(table[..|table| - 1], f);
      FlattenSnoc(table);
    }
  }

  lemma {:induction false} GatherAt<R>(table: Table, f: (nat, string) --> R, k: nat, i: nat)
    requires forall k, i | 0 <= k < |table| && 0 <= i < |table[k].paths| :: f.requires(i, table[k].paths[i])
    requires k < |table| && i < |table[k].paths|
    ensures |Flatten(table[..k])| + i < |Gather(table, f)|
    ensures Gather(table, f)[|Flatten(table[..k])| + i] == f(i, table[k].paths[i])
  {
    var n := |table| - 1;
    var init := table[..n];
    GatherLength(init, f);
    if k < n {
      GatherAt(init, f, k, i);
      assert init[..k] == table[..k];
    } else {
      assert table[..k] == init;
      RowsOfAt(table[n].paths, f, i);
    }
  }

  /** When `key` recovers the path from each row, the rows follow the flattened table. */
  lemma {:induction false} GatherPaths<R>(table: Table, f: (nat, string) --> R, key: R -> string)
    requires forall k, i | 0 <= k < |table| && 0 <= i < |table[k].paths| :: f.requires(i, table[k].paths[i])
    requires forall k, i | 0 <= k < |table| && 0 <= i < |table[k].paths| :: key(f(i, table[k].paths[i])) == table[k].paths[i]
    ensures |Gather(table, f)| == |Flatten(table)|
    ensures forall j | 0 <= j < |Flatten(table)| :: key(Gather(table, f)[j]) == Flatten(table)[j]
  {
    GatherLength(table, f);
    if |table| > 0 {
      var n := |table| - 1;
      var init, last := table[..n], table[n].paths;
      GatherPaths(init, f, key);
      FlattenSnoc(table);
      forall j | |Flatten(init)| <= j < |Flatten(table)|
        ensures key(Gather(table, f)[j]) == Flatten(table)[j]
      {
        RowsOfAt(last, f, j - |Flatten(init)|);
      }
    }
  }

  /** `h` of every row. */
  function MapRows<R>(rows: seq<R>, h: R -> Value): (cells: seq<Value>)
    ensures |cells| == |rows|
  {
    seq(|rows|, i requires 0 <= i < |rows| => h(rows[i]))
  }

  lemma MapRowsConcat<R>(a: seq<R>, b: seq<R>, h: R -> Value)
    ensures MapRows(a + b, h) == MapRows(a, h) + MapRows(b, h)
  {
  }

  /** A loop over `enumerate(paths)` whose iteration `i` appends `h(f(i, paths[i]))` appends the mapped rows. */
  lemma {:induction false} RowsConcat<R>(paths: seq<string>, f: (nat, string) --> R, g: ((nat, string)) -> seq<Value>, h: R -> Value)
    requires forall i | 0 <= i < |paths| :: f.requires(i, paths[i])
    requires forall i | 0 <= i < |paths| :: g((i, paths[i])) == [h(f(i, paths[i]))]
    ensures Concat(Enumerate(paths), g) == MapRows(RowsOf(paths, f), h)
  {
    if |paths| > 0 {
      var n := |paths| - 1;
      var init := paths[..n];
      RowsConcat(init, f, g, h);
      assert Enumerate(paths)[..n] == Enumerate(init);
      assert Enumerate(paths)[n] == (n, paths[n]);
      MapRowsConcat(RowsOf(init, f), [f(n, paths[n])], h);
    }
  }

  /** A loop over the mice whose iteration appends the mapped rows of its mouse appends the mapped rows of the table. */
  lemma {:induction false} GatherConcat<R>(table: Table, f: (nat, string) --> R, g: MouseSessions -> seq<Value>, h: R -> Value)
    requires forall k, i | 0 <= k < |table| && 0 <= i < |table[k].paths| :: f.requires(i, table[k].paths[i])
    requires forall k | 0 <= k < |table| :: g(table[k]) == MapRows(RowsOf(table[k].paths, f), h)
    ensures Concat(table, g) == MapRows(Gather(table, f), h)
  {
    if |table| > 0 {
      var n := |table| - 1;
      var init := table[..n];
      GatherConcat(init, f, g, h);
      MapRowsConcat(Gather(init, f), RowsOf(table[n].paths, f), h);
    }
  }

  // --- the rows of the metadata columns ----------------------------------

  /** The metadata row of the `i`-th session of a mouse, at `p`. */
  function MetaStep(registry: seq<Row>, category: string): (nat, string) --> SessionMeta
  {
    (i: nat, p: string) requires Catalogued(registry, p) => MetaOf(registry, category, i, p)
  }

  /** The metadata rows of the table, mouse after mouse, each mouse's sessions numbered from 0. */
  function MetaRows(registry: seq<Row>, category: string, table: Table): seq<SessionMeta>
    requires AllCatalogued(registry, table)
  {
    Gather(table, MetaStep(registry, category))
  }

  function CellOf(c: string): SessionMeta -> Value
  {
    (m: SessionMeta) => MetaCell(m, c)
  }

  /** Column `c` of the rows. */
  function Cells(rows: seq<SessionMeta>, c: string): seq<Value>
  {
    MapRows(rows, CellOf(c))
  }

  function CellStep(registry: seq<Row>, category: string, c: string): ((nat, string)) -> seq<Value>
  {
    (e: (nat, string)) => if Catalogued(registry, e.1) then [MetaCell(MetaOf(registry, category, e.0, e.1), c)] else []
  }

  function MouseCellStep(registry: seq<Row>, category: string, c: string): MouseSessions -> seq<Value>
  {
    (m: MouseSessions) =>
      if forall i | 0 <= i < |m.paths| :: Catalogued(registry, m.paths[i])
      then Cells(RowsOf(m.paths, MetaStep(registry, category)), c) else []
  }

  /** A successful mouse has every session catalogued, and appends its rows' cells to each metadata column. */
  lemma MouseProject(listing: Listing, registry: seq<Row>, category: string, paths: seq<string>, c: string)
    requires c in MetaColumns && MouseLog(listing, registry, category, paths).Ok?
    ensures forall i | 0 <= i < |paths| :: Catalogued(registry, paths[i])
    ensures Project(MouseLog(listing, registry, category, paths).value, c) == Cells(RowsOf(paths, MetaStep(registry, category)), c)
  {
    var sessions := Enumerate(paths);
    var step := SessionStep(listing, registry, category);
    FoldLogsOk(sessions, step);
    forall i | 0 <= i < |sessions|
      ensures Catalogued(registry, paths[i])
      ensures step(sessions[i]).Ok? ==> Project(step(sessions[i]).value, c) == CellStep(registry, category, c)(sessions[i])
    {
      assert step(sessions[i]) == SessionLog(listing, registry, category, i, paths[i]);
      SessionProject(listing, registry, category, i, paths[i], c);
    }
    FoldLogsProject(sessions, step, c, CellStep(registry, category, c));
    RowsConcat(paths, MetaStep(registry, category), CellStep(registry, category, c), CellOf(c));
  }

  lemma TableProject(listing: Listing, registry: seq<Row>, category: string, table: Table, c: string)
    requires c in MetaColumns && TableLog(listing, registry, category, table).Ok?
    ensures AllCatalogued(registry, table)
    ensures Project(TableLog(listing, registry, category, table).value, c) == Cells(MetaRows(registry, category, table), c)
  {
    var step := MouseStep(listing, registry, category);
    FoldLogsOk(table, step);
    forall k | 0 <= k < |table|
      ensures forall i | 0 <= i < |table[k].paths| :: Catalogued(registry, table[k].paths[i])
      ensures step(table[k]).Ok? ==> Project(step(table[k]).value, c) == MouseCellStep(registry, category, c)(table[k])
    {
      MouseProject(listing, registry, category, table[k].paths, c);
    }
    FoldLogsProject(table, step, c, MouseCellStep(registry, category, c));
    GatherConcat(table, MetaStep(registry, category), MouseCellStep(registry, category, c), CellOf(c));
  }

  /**
   * A frame that is built has every session of the table catalogued, and
   * each metadata column holds the cells of the table's metadata rows,
   * in order.
   */
  lemma SessionsMeta(listing: Listing, registry: seq<Row>, category: string, table: Table)
    requires SessionsFrame(listing, registry, category, table).Ok?
    ensures AllCatalogued(registry, table)
    ensures forall c | c in MetaColumns ::
      Column(SessionsFrame(listing, registry, category, table).value, c) == Cells(MetaRows(registry, category, table), c)
  {
    TableProject(listing, registry, category, table, "mice_name");
    forall c | c in MetaColumns
      ensures Column(SessionsFrame(listing, registry, category, table).value, c) == Cells(MetaRows(registry, category, table), c)
    {
      TableProject(listing, registry, category, table, c);
    }
  }

  // --- the shape of the rows -----------------------------------------------

  /** There is one row per session of the table. */
  lemma MetaRowsLength(registry: seq<Row>, category: string, table: Table)
    requires AllCatalogued(registry, table)
    ensures |MetaRows(registry, category, table)| == |Flatten(table)|
  {
    GatherLength(table, MetaStep(registry, category));
  }

  /**
   * The `i`-th session of the `k`-th mouse is the row after the sessions
   * of the mice before it, and has day index `i`: the index restarts for
   * every mouse.
   */
  lemma MetaRowsAt(registry: seq<Row>, category: string, table: Table, k: nat, i: nat)
    requires AllCatalogued(registry, table)
    requires k < |table| && i < |table[k].paths|
    ensures |Flatten(table[..k])| + i < |MetaRows(registry, category, table)|
    ensures MetaRows(registry, category, table)[|Flatten(table[..k])| + i] == MetaOf(registry, category, i, table[k].paths[i])
  {
    GatherAt(table, MetaStep(registry, category), k, i);
  }

  /** The `j`-th row is the `j`-th session of the flattened table. */
  lemma MetaRowsPaths(registry: seq<Row>, category: string, table: Table)
    requires AllCatalogued(registry, table)
    ensures |MetaRows(registry, category, table)| == |Flatten(table)|
    ensures forall j | 0 <= j < |Flatten(table)| :: MetaRows(registry, category, table)[j].path == Flatten(table)[j]
  {
    var key := (m: SessionMeta) => m.path;
    GatherPaths(table, MetaStep(registry, category), key);
  }

  // --- one row ---------------------------------------------------------------

  /**
   * A row's mouse, date and day join back to its path; a first session of
   * a day records no previous session; and the ordinal follows the day's
   * suffix.
   */
  lemma MetaOfFields(registry: seq<Row>, category: string, dayIndex: nat, path: string)
    requires Catalogued(registry, path)
    ensures var m := MetaOf(registry, category, dayIndex, path);
      Join([m.mouse, m.date, m.dayInit], '/') == path && m.path == path && m.dayIndex == dayIndex
    ensures var m := MetaOf(registry, category, dayIndex, path);
      (m.ordinal == "2nd" <==> EndsWith(m.dayInit, "-2")) &&
      (m.ordinal == "3rd" <==> EndsWith(m.dayInit, "-3")) &&
      (m.ordinal == "1st" <==> !EndsWith(m.dayInit, "-2") && !EndsWith(m.dayInit, "-3"))
    ensures var m := MetaOf(registry, category, dayIndex, path);
      m.ordinal == "1st" ==> m.previous == "None"
  {
    var parts := Split(path, '/');
    JoinSplit(path, '/');
    assert parts == [parts[0], parts[1], parts[2]];
    SessionDayCases(parts[2]);
  }

  /** "ago13/221112/D01" splits in three, and its day "D01" is a first session. */
  lemma FirstSessionIsFirst()
    ensures |Split(FirstSession, '/')| == 3 && SessionDay(Split(FirstSession, '/')[2]) == "1st"
  {
    assert SessionPathLayout(FirstSession);
    LayoutSplit(FirstSession);
    var d := FirstSession[13..];
    assert |d| == 3 && d[2] == '1';
    assert d[|d| - 2..][1] == '1';
    SessionDayCases(d);
  }

  /** Away from the first row, a later session of a day records the category of the row just before its own. */
  lemma PreviousOf(registry: seq<Row>, category: string, dayIndex: nat, path: string)
    requires Catalogued(registry, path) && IndexOf(registry, path) >= 1
    ensures var m := MetaOf(registry, category, dayIndex, path);
      m.ordinal != "1st" ==> m.previous == registry[IndexOf(registry, path) - 1].experimentType
  {
  }

  /** When the first row is a first session of its day, no later session of a day wraps round to the last row. */
  lemma PreviousAfterFirst(registry: seq<Row>, first: string, category: string, dayIndex: nat, path: string)
    requires Catalogued(registry, path)
    requires |registry| > 0 && registry[0].path == first
    requires |Split(first, '/')| == 3 && SessionDay(Split(first, '/')[2]) == "1st"
    ensures var m := MetaOf(registry, category, dayIndex, path);
      var k := IndexOf(registry, path);
      m.ordinal != "1st" ==> k >= 1 && m.previous == registry[k - 1].experimentType
  {
    if path != first {
      PreviousOf(registry, category, dayIndex, path);
    }
  }

  /**
   * Over the registry of all sessions, a second or third session of a day
   * records the category of the registry row just before its own: the
   * wrap-around of `iloc[-1]` never happens.
   */
  lemma PreviousIsEarlierRow(category: string, dayIndex: nat, path: string)
    requires Catalogued(AllSessions(), path)
    ensures var m := MetaOf(AllSessions(), category, dayIndex, path);
      var k := IndexOf(AllSessions(), path);
      m.ordinal != "1st" ==> k >= 1 && m.previous == AllSessions()[k - 1].experimentType
  {
    FirstRow();
    FirstSessionIsFirst();
    PreviousAfterFirst(AllSessions(), FirstSession, category, dayIndex, path);
  }

  /** The category labels of the registry's rows. */
  const BmiLabels: set<string> := {StimAgoLabel, RandomLabel, LightLabel, AgoLabel}

  /** Every row of the registry carries one of the four BMI labels. */
  lemma RowLabel(i: nat)
    requires i < |AllSessions()|
    ensures AllSessions()[i].experimentType in BmiLabels
  {
    var row := AllSessions()[i];
    assert Row(row.path, row.experimentType) == row;
    RegistryCategories(BmiStimAgo, BmiRandom, BmiStim, BmiAgo, row.path, row.experimentType);
  }

  lemma RegistryLabels()
    ensures forall i | 0 <= i < |AllSessions()| :: AllSessions()[i].experimentType in BmiLabels
  {
    forall i | 0 <= i < |AllSessions()|
      ensures AllSessions()[i].experimentType in BmiLabels
    {
      RowLabel(i);
    }
  }

  /** Over a labelled registry whose first row is a first session, "None" marks exactly the first sessions of a day. */
  lemma PreviousNoneAfterFirst(registry: seq<Row>, first: string, category: string, dayIndex: nat, path: string)
    requires Catalogued(registry, path)
    requires |registry| > 0 && registry[0].path == first
    requires |Split(first, '/')| == 3 && SessionDay(Split(first, '/')[2]) == "1st"
    requires forall i | 0 <= i < |registry| :: registry[i].experimentType in BmiLabels
    ensures var m := MetaOf(registry, category, dayIndex, path);
      && (m.previous == "None" <==> m.ordinal == "1st")
      && (m.ordinal != "1st" ==> m.previous in BmiLabels)
  {
    var m := MetaOf(registry, category, dayIndex, path);
    PreviousAfterFirst(registry, first, category, dayIndex, path);
    if m.ordinal != "1st" {
      var k := IndexOf(registry, path);
      SentinelNotLabel(registry[k - 1].experimentType);
    }
  }

  /** The "None" recorded for a first session cannot be mistaken for the category of an earlier row. */
  lemma SentinelNotLabel(category: string)
    requires category in BmiLabels
    ensures category != "None"
  {
  }

  /** "None" is recorded as the previous session exactly for the first session of a day; any other records a BMI label. */
  lemma PreviousNone(category: string, dayIndex: nat, path: string)
    requires Catalogued(AllSessions(), path)
    ensures var m := MetaOf(AllSessions(), category, dayIndex, path);
      && (m.previous == "None" <==> m.ordinal == "1st")
      && (m.ordinal != "1st" ==> m.previous in BmiLabels)
  {
    FirstRow();
    FirstSessionIsFirst();
    RegistryLabels();
    PreviousNoneAfterFirst(AllSessions(), FirstSession, category, dayIndex, path);
  }

  // --- which columns the frame has ----------------------------------------

  lemma MetaEventsColumns(m: SessionMeta)
    ensures InColumns(MetaEvents(m), MetaColumnSet)
  {
    var e := MetaEvents(m);
    forall i | 0 <= i < |e|
      ensures e[i].column in MetaColumnSet
    {
      assert e[i].column == MetaColumns[i];
      assert MetaColumns[i] in MetaColumnSet;
    }
  }

  lemma SessionColumns(listing: Listing, registry: seq<Row>, category: string, dayIndex: nat, path: string)
    ensures SessionLog(listing, registry, category, dayIndex, path).Ok? ==>
      InColumns(SessionLog(listing, registry, category, dayIndex, path).value, FrameColumns)
  {
    if SessionLog(listing, registry, category, dayIndex, path).Ok? {
      var meta := MetaEvents(MetaOf(registry, category, dayIndex, path));
      var names := ListDir(listing, path).value;
      var children := FoldLogs(names, ChildStep(listing, path, category)).value;
      EntriesColumns(listing, path, category, names);
      OverrideColumns(path);
      MetaEventsColumns(MetaOf(registry, category, dayIndex, path));
      assert InColumns(meta, FrameColumns);
      InColumnsConcat(meta, children, FrameColumns);
      InColumnsConcat(meta + children, OverrideLog(path), FrameColumns);
    }
  }

  lemma TableColumns(listing: Listing, registry: seq<Row>, category: string, table: Table)
    ensures TableLog(listing, registry, category, table).Ok? ==>
      InColumns(TableLog(listing, registry, category, table).value, FrameColumns)
  {
    var step := MouseStep(listing, registry, category);
    forall k | 0 <= k < |table|
      ensures step(table[k]).Ok? ==> InColumns(step(table[k]).value, FrameColumns)
    {
      var sessions := Enumerate(table[k].paths);
      var sstep := SessionStep(listing, registry, category);
      forall i | 0 <= i < |sessions|
        ensures sstep(sessions[i]).Ok? ==> InColumns(sstep(sessions[i]).value, FrameColumns)
      {
        SessionColumns(listing, registry, category, i, table[k].paths[i]);
      }
      FoldLogsColumns(sessions, sstep, FrameColumns);
    }
    FoldLogsColumns(table, step, FrameColumns);
  }

  /**
   * A frame that is built has only metadata and bucket columns; when the
   * table has a session, every column has one value per session.
   */
  lemma SessionsShape(listing: Listing, registry: seq<Row>, category: string, table: Table)
    requires SessionsFrame(listing, registry, category, table).Ok?
    ensures SessionsFrame(listing, registry, category, table).value.Keys <= FrameColumns
    ensures |Flatten(table)| > 0 ==>
      forall c | c in SessionsFrame(listing, registry, category, table).value ::
        |SessionsFrame(listing, registry, category, table).value[c]| == |Flatten(table)|
  {
    var log := TableLog(listing, registry, category, table).value;
    var cols := Accumulate(map[], log);
    assert SessionsFrame(listing, registry, category, table).value == cols;
    TableColumns(listing, registry, category, table);
    if |Flatten(table)| > 0 {
      TableProject(listing, registry, category, table, "mice_name");
      MetaRowsLength(registry, category, table);
      BuiltShape(log, FrameColumns, "mice_name", |Flatten(table)|);
    } else {
      AccumulateKeys(map[], log);
    }
  }

  // --- what the top-level buckets hold ------------------------------------

  /** Every value of `vs` satisfies `P`. */
  predicate AllValues(vs: seq<Value>, P: Value -> bool)
  {
    forall j | 0 <= j < |vs| :: P(vs[j])
  }

  /** A file name starting with `prefix`. */
  function NamedBy(prefix: string): Value -> bool
  {
    (v: Value) => v.Text? && StartsWith(v.text, prefix)
  }

  lemma AllValuesConcat(a: seq<Value>, b: seq<Value>, P: Value -> bool)
    ensures AllValues(a + b, P) <==> AllValues(a, P) && AllValues(b, P)
  {
    if AllValues(a + b, P) {
      forall j | 0 <= j < |a|
        ensures P(a[j])
      {
        assert (a + b)[j] == a[j];
      }
      forall j | 0 <= j < |b|
        ensures P(b[j])
      {
        assert (a + b)[|a| + j] == b[j];
      }
    }
  }

  /** When each iteration appends only values satisfying `P` to column `c`, so does a successful loop. */
  lemma {:induction false} FoldLogsValues<T>(xs: seq<T>, f: T -> Result<Log>, c: string, P: Value -> bool)
    requires forall i | 0 <= i < |xs| :: f(xs[i]).Ok? ==> AllValues(Project(f(xs[i]).value, c), P)
    ensures FoldLogs(xs, f).Ok? ==> AllValues(Project(FoldLogs(xs, f).value, c), P)
  {
    if |xs| > 0 {
      var init := xs[..|xs| - 1];
      assert forall i | 0 <= i < |init| :: init[i] == xs[i];
      FoldLogsValues(init, f, c, P);
      if FoldLogs(xs, f).Ok? {
        var a, b := FoldLogs(init, f).value, f(xs[|xs| - 1]).value;
        ProjectConcat(a, b, c);
        AllValuesConcat(Project(a, c), Project(b, c), P);
      }
    }
  }

  lemma TopLevelRulesDistinct()
    ensures forall i, k | 0 <= i < k < |TopLevelRules| :: TopLevelRules[i].1 != TopLevelRules[k].1
  {
  }

  /** A top-level bucket receives at most the entry's own name, and only when the name starts with the bucket's prefix. */
  lemma TopLevelNamed(name: string, k: nat)
    requires k < |TopLevelRules|
    ensures AllValues(Project(TopLevelLog(name), TopLevelRules[k].1), NamedBy(TopLevelRules[k].0))
  {
    TopLevelByRules(name);
    var log := TopLevelLog(name);
    var c := TopLevelRules[k].1;
    if |log| == 1 {
      assert log[1..] == [];
      if log[0].column == c {
        var k' :| 0 <= k' < |TopLevelRules| && StartsWith(name, TopLevelRules[k'].0) && log[0].column == TopLevelRules[k'].1;
        TopLevelRulesDistinct();
        assert k' == k;
        assert Project(log, c) == [Text(name)];
      }
    }
  }

  /** A top-level bucket is neither an imaging, a motor nor a metadata column. */
  lemma TopLevelApart(k: nat)
    requires k < |TopLevelRules|
    ensures TopLevelRules[k].1 in TopLevelColumns
    ensures TopLevelRules[k].1 !in ImagingColumns && TopLevelRules[k].1 !in MotorColumns && TopLevelRules[k].1 !in MetaColumnSet
  {
  }

  /** The override appends "missing" to the ROI and mask columns of the one session lacking them, and nothing else. */
  lemma OverrideProject(path: string, c: string)
    ensures Project(OverrideLog(path), c) ==
      if path == MissingRoiSession && c in {"roi_data", "mask_data"} then [Text("missing")] else []
  {
    var log := OverrideLog(path);
    if path == MissingRoiSession {
      assert log[1..][1..] == [];
      assert Project(log[1..], c) == if c == "mask_data" then [Text("missing")] else [];
    }
  }

  /** One entry appends to a top-level bucket only names with the bucket's prefix. */
  lemma ChildNamed(listing: Listing, path: string, category: string, name: string, k: nat)
    requires k < |TopLevelRules|
    ensures ChildLog(listing, path, category, name).Ok? ==>
      AllValues(Project(ChildLog(listing, path, category, name).value, TopLevelRules[k].1), NamedBy(TopLevelRules[k].0))
  {
    var c := TopLevelRules[k].1;
    TopLevelApart(k);
    ImagingColumnsAll(listing, path);
    MotorColumnsAll(listing, path);
    TopLevelNamed(name, k);
    var im := if Slice(name, 0, 2) == "im" then ImagingLog(listing, path) else Ok([]);
    var top := Ok(TopLevelLog(name));
    var bmi := if category != BehaviorLabel then Then(im, top) else Ok([]);
    var mo := if Slice(name, 0, 2) == "mo" then MotorLog(listing, path) else Ok([]);
    assert ChildLog(listing, path, category, name) == Then(bmi, mo);
    if Then(bmi, mo).Ok? {
      if category != BehaviorLabel {
        ProjectOutside(im.value, ImagingColumns, c);
        ProjectConcat(im.value, top.value, c);
      }
      ProjectOutside(mo.value, MotorColumns, c);
      ProjectConcat(bmi.value, mo.value, c);
    }
  }

  /** Names starting with `prefix`, followed, when `missing`, by one "missing" marker. */
  predicate NamedThenMissing(vs: seq<Value>, prefix: string, missing: bool)
  {
    if missing then |vs| > 0 && vs[|vs| - 1] == Text("missing") && AllValues(vs[..|vs| - 1], NamedBy(prefix))
    else AllValues(vs, NamedBy(prefix))
  }

  /** A top-level bucket of a successful session holds only names with its prefix, followed by "missing" for the one session whose ROI and mask files are absent. */
  lemma SessionNamed(listing: Listing, registry: seq<Row>, category: string, dayIndex: nat, path: string, k: nat)
    requires k < |TopLevelRules|
    requires SessionLog(listing, registry, category, dayIndex, path).Ok?
    ensures NamedThenMissing(
      Project(SessionLog(listing, registry, category, dayIndex, path).value, TopLevelRules[k].1),
      TopLevelRules[k].0,
      path == MissingRoiSession && TopLevelRules[k].1 in {"roi_data", "mask_data"})
  {
    var c := TopLevelRules[k].1;
    var named := NamedBy(TopLevelRules[k].0);
    TopLevelApart(k);
    var meta := MetaEvents(MetaOf(registry, category, dayIndex, path));
    var names := ListDir(listing, path).value;
    var step := ChildStep(listing, path, category);
    var children := FoldLogs(names, step).value;
    assert SessionLog(listing, registry, category, dayIndex, path).value == meta + children + OverrideLog(path);
    MetaEventsColumns(MetaOf(registry, category, dayIndex, path));
    ProjectOutside(meta, MetaColumnSet, c);
    forall i | 0 <= i < |names|
      ensures step(names[i]).Ok? ==> AllValues(Project(step(names[i]).value, c), named)
    {
      ChildNamed(listing, path, category, names[i], k);
    }
    FoldLogsValues(names, step, c, named);
    var own := Project(children, c);
    ProjectConcat(meta, children, c);
    assert [] + own == own;
    assert Project(meta + children, c) == own;
    ProjectConcat(meta + children, OverrideLog(path), c);
    OverrideProject(path, c);
    var vs := own + Project(OverrideLog(path), c);
    if path == MissingRoiSession && c in {"roi_data", "mask_data"} {
      assert vs == own + [Text("missing")];
      assert vs[..|vs| - 1] == own;
    } else {
      assert vs == own;
    }
  }

  /** What a top-level bucket column may hold: names with the rule's prefix, and "missing" in the ROI and mask columns. */
  function BucketValue(rule: (string, string)): Value -> bool
  {
    (v: Value) => NamedBy(rule.0)(v) || (rule.1 in {"roi_data", "mask_data"} && v == Text("missing"))
  }

  lemma NamedAreBucket(vs: seq<Value>, rule: (string, string), missing: bool)
    requires NamedThenMissing(vs, rule.0, missing && rule.1 in {"roi_data", "mask_data"})
    ensures AllValues(vs, BucketValue(rule))
  {
    forall j | 0 <= j < |vs|
      ensures BucketValue(rule)(vs[j])
    {
      if missing && rule.1 in {"roi_data", "mask_data"} && j < |vs| - 1 {
        assert vs[..|vs| - 1][j] == vs[j];
      }
    }
  }

  lemma SessionBucket(listing: Listing, registry: seq<Row>, category: string, dayIndex: nat, path: string, k: nat)
    requires k < |TopLevelRules|
    ensures SessionLog(listing, registry, category, dayIndex, path).Ok? ==>
      AllValues(Project(SessionLog(listing, registry, category, dayIndex, path).value, TopLevelRules[k].1), BucketValue(TopLevelRules[k]))
  {
    if SessionLog(listing, registry, category, dayIndex, path).Ok? {
      SessionNamed(listing, registry, category, dayIndex, path, k);
      var vs := Project(SessionLog(listing, registry, category, dayIndex, path).value, TopLevelRules[k].1);
      NamedAreBucket(vs, TopLevelRules[k], path == MissingRoiSession);
    }
  }

  lemma MouseBucket(listing: Listing, registry: seq<Row>, category: string, paths: seq<string>, k: nat)
    requires k < |TopLevelRules|
    ensures MouseLog(listing, registry, category, paths).Ok? ==>
      AllValues(Project(MouseLog(listing, registry, category, paths).value, TopLevelRules[k].1), BucketValue(TopLevelRules[k]))
  {
    var sessions := Enumerate(paths);
    var step := SessionStep(listing, registry, category);
    forall i | 0 <= i < |sessions|
      ensures step(sessions[i]).Ok? ==> AllValues(Project(step(sessions[i]).value, TopLevelRules[k].1), BucketValue(TopLevelRules[k]))
    {
      SessionBucket(listing, registry, category, i, paths[i], k);
    }
    FoldLogsValues(sessions, step, TopLevelRules[k].1, BucketValue(TopLevelRules[k]));
  }

  /**
   * In a frame that is built, each top-level bucket column holds only
   * file names starting with its rule's prefix, and besides them, in the
   * ROI and mask columns, the "missing" marker of the override.
   */
  lemma FrameBuckets(listing: Listing, registry: seq<Row>, category: string, table: Table, k: nat)
    requires k < |TopLevelRules|
    requires SessionsFrame(listing, registry, category, table).Ok?
    ensures AllValues(Column(SessionsFrame(listing, registry, category, table).value, TopLevelRules[k].1), BucketValue(TopLevelRules[k]))
  {
    var step := MouseStep(listing, registry, category);
    forall m | 0 <= m < |table|
      ensures step(table[m]).Ok? ==> AllValues(Project(step(table[m]).value, TopLevelRules[k].1), BucketValue(TopLevelRules[k]))
    {
      MouseBucket(listing, registry, category, table[m].paths, k);
    }
    FoldLogsValues(table, step, TopLevelRules[k].1, BucketValue(TopLevelRules[k]));
    var log := TableLog(listing, registry, category, table).value;
    assert Column(SessionsFrame(listing, registry, category, table).value, TopLevelRules[k].1) == [] + Project(log, TopLevelRules[k].1);
  }

  // --- what the motor buckets hold ----------------------------------------

  /** A motor recording of four '_'-separated parts whose second and fourth parts are those of `bucket`. */
  function MotorValue(bucket: (string, string, string)): Value -> bool
  {
    (v: Value) =>
      && v.Text? && IsMotorRecording(v.text)
      && var parts := Split(v.text, '_');
      |parts| == 4 && parts[1] == bucket.0 && parts[3] == bucket.1
  }

  lemma MotorBucketsDistinct()
    ensures forall i, k | 0 <= i < k < |MotorBuckets| :: MotorBuckets[i].2 != MotorBuckets[k].2
  {
  }

  /** A motor file appends to a motor column only itself, and only when its parts select that column's bucket. */
  lemma MotorFileValues(file: string, k: nat)
    requires k < |MotorBuckets|
    ensures MotorFileLog(file).Ok? ==> AllValues(Project(MotorFileLog(file).value, MotorBuckets[k].2), MotorValue(MotorBuckets[k]))
  {
    if IsMotorRecording(file) && |Split(file, '_')| == 4 {
      var parts := Split(file, '_');
      var c := MotorBuckets[k].2;
      MotorBucket(file);
      var col := BucketOf(MotorBuckets, parts[1], parts[3]);
      if col.Some? {
        var log := [Append(col.value, Text(file))];
        assert log[1..] == [];
        if col.value == c {
          var k' :| 0 <= k' < |MotorBuckets| && MotorBuckets[k'] == (parts[1], parts[3], col.value);
          MotorBucketsDistinct();
          assert k' == k;
          assert Project(log, c) == [Text(file)];
        } else {
          assert Project(log, c) == [];
        }
      }
    }
  }

  lemma MotorDirValues(listing: Listing, path: string, k: nat)
    requires k < |MotorBuckets|
    ensures MotorLog(listing, path).Ok? ==> AllValues(Project(MotorLog(listing, path).value, MotorBuckets[k].2), MotorValue(MotorBuckets[k]))
  {
    var listed := ListDir(listing, MotorDir(path));
    if listed.Ok? {
      var files := listed.value;
      forall i | 0 <= i < |files|
        ensures MotorFileLog(files[i]).Ok? ==> AllValues(Project(MotorFileLog(files[i]).value, MotorBuckets[k].2), MotorValue(MotorBuckets[k]))
      {
        MotorFileValues(files[i], k);
      }
      FoldLogsValues(files, MotorFileLog, MotorBuckets[k].2, MotorValue(MotorBuckets[k]));
    }
  }

  /** A motor bucket is neither an imaging, a top-level, a metadata nor an overridden column. */
  lemma MotorApart(k: nat)
    requires k < |MotorBuckets|
    ensures MotorBuckets[k].2 in MotorColumns
    ensures MotorBuckets[k].2 !in ImagingColumns && MotorBuckets[k].2 !in TopLevelColumns
    ensures MotorBuckets[k].2 !in MetaColumnSet && MotorBuckets[k].2 !in {"roi_data", "mask_data"}
  {
  }

  lemma ChildMotorValues(listing: Listing, path: string, category: string, name: string, k: nat)
    requires k < |MotorBuckets|
    ensures ChildLog(listing, path, category, name).Ok? ==>
      AllValues(Project(ChildLog(listing, path, category, name).value, MotorBuckets[k].2), MotorValue(MotorBuckets[k]))
  {
    var c := MotorBuckets[k].2;
    MotorApart(k);
    ImagingColumnsAll(listing, path);
    TopLevelColumnsOnly(name);
    MotorDirValues(listing, path, k);
    var im := if Slice(name, 0, 2) == "im" then ImagingLog(listing, path) else Ok([]);
    var top := Ok(TopLevelLog(name));
    var bmi := if category != BehaviorLabel then Then(im, top) else Ok([]);
    var mo := if Slice(name, 0, 2) == "mo" then MotorLog(listing, path) else Ok([]);
    assert ChildLog(listing, path, category, name) == Then(bmi, mo);
    if Then(bmi, mo).Ok? {
      if category != BehaviorLabel {
        ProjectOutside(im.value, ImagingColumns, c);
        ProjectOutside(top.value, TopLevelColumns, c);
        ProjectConcat(im.value, top.value, c);
      }
      ProjectConcat(bmi.value, mo.value, c);
    }
  }

  /** A column outside the metadata and the override holds, for a session, only what its entries append to it. */
  lemma SessionValues(listing: Listing, registry: seq<Row>, category: string, dayIndex: nat, path: string, c: string, P: Value -> bool)
    requires c !in MetaColumnSet && c !in {"roi_data", "mask_data"}
    requires forall name :: ChildLog(listing, path, category, name).Ok? ==> AllValues(Project(ChildLog(listing, path, category, name).value, c), P)
    ensures SessionLog(listing, registry, category, dayIndex, path).Ok? ==>
      AllValues(Project(SessionLog(listing, registry, category, dayIndex, path).value, c), P)
  {
    if SessionLog(listing, registry, category, dayIndex, path).Ok? {
      var meta := MetaEvents(MetaOf(registry, category, dayIndex, path));
      var names := ListDir(listing, path).value;
      var step := ChildStep(listing, path, category);
      var children := FoldLogs(names, step).value;
      assert SessionLog(listing, registry, category, dayIndex, path).value == meta + children + OverrideLog(path);
      MetaEventsColumns(MetaOf(registry, category, dayIndex, path));
      ProjectOutside(meta, MetaColumnSet, c);
      FoldLogsValues(names, step, c, P);
      OverrideProject(path, c);
      ProjectConcat(meta, children, c);
      assert [] + Project(children, c) == Project(children, c);
      ProjectConcat(meta + children, OverrideLog(path), c);
      assert Project(children, c) + [] == Project(children, c);
    }
  }

  lemma FrameValues(listing: Listing, registry: seq<Row>, category: string, table: Table, c: string, P: Value -> bool)
    requires c !in MetaColumnSet && c !in {"roi_data", "mask_data"}
    requires forall path, name :: ChildLog(listing, path, category, name).Ok? ==> AllValues(Project(ChildLog(listing, path, category, name).value, c), P)
    requires SessionsFrame(listing, registry, category, table).Ok?
    ensures AllValues(Column(SessionsFrame(listing, registry, category, table).value, c), P)
  {
    var mouse := MouseStep(listing, registry, category);
    forall m | 0 <= m < |table|
      ensures mouse(table[m]).Ok? ==> AllValues(Project(mouse(table[m]).value, c), P)
    {
      var paths := table[m].paths;
      var sessions := Enumerate(paths);
      var step := SessionStep(listing, registry, category);
      forall i | 0 <= i < |sessions|
        ensures step(sessions[i]).Ok? ==> AllValues(Project(step(sessions[i]).value, c), P)
      {
        SessionValues(listing, registry, category, i, paths[i], c, P);
      }
      FoldLogsValues(sessions, step, c, P);
    }
    FoldLogsValues(table, mouse, c, P);
    var log := TableLog(listing, registry, category, table).value;
    assert Column(SessionsFrame(listing, registry, category, table).value, c) == [] + Project(log, c);
  }

  /**
   * In a frame that is built, each motor bucket column holds only motor
   * recordings of four parts whose second and fourth parts select it.
   */
  lemma FrameMotor(listing: Listing, registry: seq<Row>, category: string, table: Table, k: nat)
    requires k < |MotorBuckets|
    requires SessionsFrame(listing, registry, category, table).Ok?
    ensures AllValues(Column(SessionsFrame(listing, registry, category, table).value, MotorBuckets[k].2), MotorValue(MotorBuckets[k]))
  {
    MotorApart(k);
    forall path, name
      ensures ChildLog(listing, path, category, name).Ok? ==>
        AllValues(Project(ChildLog(listing, path, category, name).value, MotorBuckets[k].2), MotorValue(MotorBuckets[k]))
    {
      ChildMotorValues(listing, path, category, name, k);
    }
    FrameValues(listing, registry, category, table, MotorBuckets[k].2, MotorValue(MotorBuckets[k]));
  }
}
