/**
 * What `get_behav_df` promises: which errors it can stop with, that its
 * metadata columns hold one row per session of the table in table
 * order, and which columns the frame can have.
 */
module BehavFacts {
  import opened PyStrings
  import opened Taxonomy
  import opened StaticFacts
  import opened Outcome
  import opened Columns
  import opened Classify
  import opened Catalog
  import opened CatalogFacts
  import opened MetaFacts
  import opened BehavDf

  /** The categories `get_behav_df` accepts. */
  const BehavCategories: seq<string> := [InitialLabel, BeforeLabel]

  /** A category is accepted exactly when it has a table; the marker of each names the end of its motor files. */
  lemma BehavCategoryCases(category: string)
    ensures BehavCategory(category).Ok? <==> category in BehavCategories
    ensures BehavCategory(category).Err? ==> BehavCategory(category) == Err(UnknownExperimentType(category))
    ensures BehavCategory(category).Ok? ==> |BehavCategory(category).value.1| == 3
    ensures category == InitialLabel ==> EndsWith("behavior.csv", BehavCategory(category).value.1 + ".csv")
    ensures category == BeforeLabel ==> EndsWith("before.csv", BehavCategory(category).value.1 + ".csv")
  {
    assert "behavior.csv"[12 - 7..] == "ior.csv";
    assert "before.csv"[10 - 7..] == "ore.csv";
  }

  // --- errors -------------------------------------------------------------

  lemma BehavMotorErrors(listing: Listing, path: string, marker: string)
    ensures BehavMotorLog(listing, path, marker).Err? ==> FilesystemError(BehavMotorLog(listing, path, marker).error)
  {
    var listed := ListDir(listing, MotorDir(path));
    if listed.Ok? {
      var files := listed.value;
      forall i | 0 <= i < |files|
        ensures BehavMotorStep(marker)(files[i]).Err? ==> FilesystemError(BehavMotorStep(marker)(files[i]).error)
      {
      }
      FoldLogsErrors(files, BehavMotorStep(marker), FilesystemError);
    }
  }

  /** A session fails on its path, or on its files; a session with a three-part path only on its files. */
  lemma BehavSessionErrors(listing: Listing, category: string, marker: string, dayIndex: nat, path: string)
    ensures BehavSessionLog(listing, category, marker, dayIndex, path).Err? ==>
      var e := BehavSessionLog(listing, category, marker, dayIndex, path).error;
      FilesystemError(e) || e == MalformedSessionPath(path)
    ensures BehavSessionLog(listing, category, marker, dayIndex, path).Err? && ThreeParts(path) ==>
      FilesystemError(BehavSessionLog(listing, category, marker, dayIndex, path).error)
  {
    var listed := ListDir(listing, path);
    if listed.Ok? {
      var names := listed.value;
      forall i | 0 <= i < |names|
        ensures BehavChildStep(listing, path, marker)(names[i]).Err? ==> FilesystemError(BehavChildStep(listing, path, marker)(names[i]).error)
      {
        BehavMotorErrors(listing, path, marker);
      }
      FoldLogsErrors(names, BehavChildStep(listing, path, marker), FilesystemError);
    }
  }

  predicate BadPath(e: Error) { FilesystemError(e) || e.MalformedSessionPath? }

  /** Every session of the table has a three-part path. */
  predicate AllThreeParts(table: Table)
  {
    forall k, i | 0 <= k < |table| && 0 <= i < |table[k].paths| :: ThreeParts(table[k].paths[i])
  }

  lemma BehavTableErrors(listing: Listing, category: string, marker: string, table: Table)
    ensures BehavTableLog(listing, category, marker, table).Err? ==> BadPath(BehavTableLog(listing, category, marker, table).error)
    ensures AllThreeParts(table) && BehavTableLog(listing, category, marker, table).Err? ==>
      FilesystemError(BehavTableLog(listing, category, marker, table).error)
  {
    var step := BehavMouseStep(listing, category, marker);
    forall k | 0 <= k < |table|
      ensures step(table[k]).Err? ==> BadPath(step(table[k]).error)
      ensures AllThreeParts(table) && step(table[k]).Err? ==> FilesystemError(step(table[k]).error)
    {
      var paths := table[k].paths;
      var sessions := Enumerate(paths);
      var sstep := BehavSessionStep(listing, category, marker);
      forall i | 0 <= i < |sessions|
        ensures sstep(sessions[i]).Err? ==> BadPath(sstep(sessions[i]).error)
        ensures ThreeParts(paths[i]) && sstep(sessions[i]).Err? ==> FilesystemError(sstep(sessions[i]).error)
      {
        BehavSessionErrors(listing, category, marker, i, paths[i]);
      }
      FoldLogsErrors(sessions, sstep, BadPath);
      if AllThreeParts(table) {
        assert forall i | 0 <= i < |sessions| :: ThreeParts(paths[i]);
        FoldLogsErrors(sessions, sstep, FilesystemError);
      }
    }
    FoldLogsErrors(table, step, BadPath);
    if AllThreeParts(table) {
      FoldLogsErrors(table, step, FilesystemError);
    }
  }

  lemma LaidOutThreeParts(table: Table)
    requires LaidOut(Flatten(table))
    ensures AllThreeParts(table)
  {
    forall k, i | 0 <= k < |table| && 0 <= i < |table[k].paths|
      ensures ThreeParts(table[k].paths[i])
    {
      var j := FlattenIndex(table, k, i);
      LayoutSplit(Flatten(table)[j]);
    }
  }

  lemma InitialThreeParts() ensures AllThreeParts(MotorInitial)
  {
    OtherTablesLaidOut();
    LaidOutThreeParts(MotorInitial);
  }

  lemma BeforeThreeParts() ensures AllThreeParts(MotorBeforeBmi)
  {
    OtherTablesLaidOut();
    LaidOutThreeParts(MotorBeforeBmi);
  }

  /**
   * An unknown category stops at once with its error; for an accepted one
   * the static tables leave only the errors the files on disk cause, or
   * ragged columns.
   */
  lemma BehavDfErrors(listing: Listing, category: string)
    ensures category !in BehavCategories ==> BehavDfOf(listing, category) == Err(UnknownExperimentType(category))
    ensures category in BehavCategories && BehavDfOf(listing, category).Err? ==>
      FilesystemError(BehavDfOf(listing, category).error) || BehavDfOf(listing, category).error == RaggedColumns
  {
    BehavCategoryCases(category);
    if category in BehavCategories {
      var (table, marker) := BehavCategory(category).value;
      if category == InitialLabel {
        InitialThreeParts();
      } else {
        BeforeThreeParts();
      }
      BehavTableErrors(listing, category, marker, table);
      assert BehavDfOf(listing, category) == BehavFrame(listing, category, marker, table);
    }
  }

  // --- the metadata columns -------------------------------------------------

  lemma BehavMetaColumnsDistinct()
    ensures forall i, k | 0 <= i < k < |BehavMetaColumns| :: BehavMetaColumns[i] != BehavMetaColumns[k]
  {
  }

  lemma BehavMetaEventsProject(m: BehavMeta, c: string)
    requires c in BehavMetaColumns
    ensures Project(BehavMetaEvents(m), c) == [BehavMetaCell(m, c)]
  {
    var e := BehavMetaEvents(m);
    assert forall i | 0 <= i < |e| :: e[i] == Append(BehavMetaColumns[i], BehavMetaCell(m, BehavMetaColumns[i]));
    BehavMetaColumnsDistinct();
    var j :| 0 <= j < |BehavMetaColumns| && BehavMetaColumns[j] == c;
    ProjectSingle(e, j, c);
  }

  lemma BehavEntriesColumns(listing: Listing, path: string, marker: string, names: seq<string>)
    ensures FoldLogs(names, BehavChildStep(listing, path, marker)).Ok? ==>
      InColumns(FoldLogs(names, BehavChildStep(listing, path, marker)).value, BehaviorColumns)
  {
    var listed := ListDir(listing, MotorDir(path));
    if listed.Ok? {
      var files := listed.value;
      forall i | 0 <= i < |files|
        ensures BehavMotorStep(marker)(files[i]).Ok? ==> InColumns(BehavMotorStep(marker)(files[i]).value, BehaviorColumns)
      {
      }
      FoldLogsColumns(files, BehavMotorStep(marker), BehaviorColumns);
    }
    forall i | 0 <= i < |names|
      ensures BehavChildStep(listing, path, marker)(names[i]).Ok? ==>
        InColumns(BehavChildStep(listing, path, marker)(names[i]).value, BehaviorColumns)
    {
    }
    FoldLogsColumns(names, BehavChildStep(listing, path, marker), BehaviorColumns);
  }

  lemma BehavMetaNotMotor(c: string)
    requires c in BehavMetaColumns
    ensures c !in BehaviorColumns
  {
  }

  lemma BehavSessionProject(listing: Listing, category: string, marker: string, dayIndex: nat, path: string, c: string)
    requires c in BehavMetaColumns
    requires BehavSessionLog(listing, category, marker, dayIndex, path).Ok?
    ensures ThreeParts(path)
    ensures Project(BehavSessionLog(listing, category, marker, dayIndex, path).value, c) ==
      [BehavMetaCell(BehavMetaOf(category, dayIndex, path), c)]
  {
    var meta := BehavMetaEvents(BehavMetaOf(category, dayIndex, path));
    var names := ListDir(listing, path).value;
    var children := FoldLogs(names, BehavChildStep(listing, path, marker)).value;
    BehavEntriesColumns(listing, path, marker, names);
    BehavMetaNotMotor(c);
    ProjectOutside(children, BehaviorColumns, c);
    ProjectConcat(meta, children, c);
    BehavMetaEventsProject(BehavMetaOf(category, dayIndex, path), c);
  }

  /** The metadata row of the `i`-th session of a mouse, at `p`. */
  function BehavStep(category: string): (nat, string) --> BehavMeta
  {
    (i: nat, p: string) requires ThreeParts(p) => BehavMetaOf(category, i, p)
  }

  function BehavRows(category: string, table: Table): seq<BehavMeta>
    requires AllThreeParts(table)
  {
    Gather(table, BehavStep(category))
  }

  function BehavCellOf(c: string): BehavMeta -> Value
  {
    (m: BehavMeta) => BehavMetaCell(m, c)
  }

  function BehavCellStep(category: string, c: string): ((nat, string)) -> seq<Value>
  {
    (e: (nat, string)) => if ThreeParts(e.1) then [BehavMetaCell(BehavMetaOf(category, e.0, e.1), c)] else []
  }

  function BehavMouseCellStep(category: string, c: string): MouseSessions -> seq<Value>
  {
    (m: MouseSessions) =>
      if forall i | 0 <= i < |m.paths| :: ThreeParts(m.paths[i])
      then MapRows(RowsOf(m.paths, BehavStep(category)), BehavCellOf(c)) else []
  }

  lemma BehavMouseProject(listing: Listing, category: string, marker: string, paths: seq<string>, c: string)
    requires c in BehavMetaColumns && BehavMouseLog(listing, category, marker, paths).Ok?
    ensures forall i | 0 <= i < |paths| :: ThreeParts(paths[i])
    ensures Project(BehavMouseLog(listing, category, marker, paths).value, c) ==
      MapRows(RowsOf(paths, BehavStep(category)), BehavCellOf(c))
  {
    var sessions := Enumerate(paths);
    var step := BehavSessionStep(listing, category, marker);
    FoldLogsOk(sessions, step);
    forall i | 0 <= i < |sessions|
      ensures ThreeParts(paths[i])
      ensures step(sessions[i]).Ok? ==> Project(step(sessions[i]).value, c) == BehavCellStep(category, c)(sessions[i])
    {
      assert step(sessions[i]) == BehavSessionLog(listing, category, marker, i, paths[i]);
      BehavSessionProject(listing, category, marker, i, paths[i], c);
    }
    FoldLogsProject(sessions, step, c, BehavCellStep(category, c));
    RowsConcat(paths, BehavStep(category), BehavCellStep(category, c), BehavCellOf(c));
  }

  lemma BehavTableProject(listing: Listing, category: string, marker: string, table: Table, c: string)
    requires c in BehavMetaColumns && BehavTableLog(listing, category, marker, table).Ok?
    ensures AllThreeParts(table)
    ensures Project(BehavTableLog(listing, category, marker, table).value, c) == MapRows(BehavRows(category, table), BehavCellOf(c))
  {
    var step := BehavMouseStep(listing, category, marker);
    FoldLogsOk(table, step);
    forall k | 0 <= k < |table|
      ensures forall i | 0 <= i < |table[k].paths| :: ThreeParts(table[k].paths[i])
      ensures step(table[k]).Ok? ==> Project(step(table[k]).value, c) == BehavMouseCellStep(category, c)(table[k])
    {
      BehavMouseProject(listing, category, marker, table[k].paths, c);
    }
    FoldLogsProject(table, step, c, BehavMouseCellStep(category, c));
    GatherConcat(table, BehavStep(category), BehavMouseCellStep(category, c), BehavCellOf(c));
  }

  /**
   * A frame that is built has a three-part path for every session, and
   * each metadata column holds the cells of the rows of the table, in
   * order, with the day index counting each mouse's sessions from 0.
   */
  lemma BehavFrameMeta(listing: Listing, category: string, marker: string, table: Table)
    requires BehavFrame(listing, category, marker, table).Ok?
    ensures AllThreeParts(table)
    ensures forall c | c in BehavMetaColumns ::
      Column(BehavFrame(listing, category, marker, table).value, c) == MapRows(BehavRows(category, table), BehavCellOf(c))
  {
    BehavTableProject(listing, category, marker, table, "mice_name");
    forall c | c in BehavMetaColumns
      ensures Column(BehavFrame(listing, category, marker, table).value, c) == MapRows(BehavRows(category, table), BehavCellOf(c))
    {
      BehavTableProject(listing, category, marker, table, c);
    }
  }

  /** The `i`-th session of the `k`-th mouse is the row after the sessions of the mice before it, with day index `i`. */
  lemma BehavRowsAt(category: string, table: Table, k: nat, i: nat)
    requires AllThreeParts(table)
    requires k < |table| && i < |table[k].paths|
    ensures |BehavRows(category, table)| == |Flatten(table)|
    ensures |Flatten(table[..k])| + i < |Flatten(table)|
    ensures BehavRows(category, table)[|Flatten(table[..k])| + i] == BehavMetaOf(category, i, table[k].paths[i])
  {
    GatherLength(table, BehavStep(category));
    GatherAt(table, BehavStep(category), k, i);
  }

  /** A row's mouse, date and day join back to its path. */
  lemma BehavMetaOfFields(category: string, dayIndex: nat, path: string)
    requires ThreeParts(path)
    ensures var m := BehavMetaOf(category, dayIndex, path);
      Join([m.mouse, m.date, m.dayInit], '/') == path && m.path == path && m.dayIndex == dayIndex && m.category == category
  {
    var parts := Split(path, '/');
    JoinSplit(path, '/');
    assert parts == [parts[0], parts[1], parts[2]];
  }

  // --- which columns the frame has ----------------------------------------

  const BehavMetaColumnSet: set<string> := set c | c in BehavMetaColumns

  const BehavFrameColumns: set<string> := BehavMetaColumnSet + BehaviorColumns

  lemma BehavSessionColumns(listing: Listing, category: string, marker: string, dayIndex: nat, path: string)
    ensures BehavSessionLog(listing, category, marker, dayIndex, path).Ok? ==>
      InColumns(BehavSessionLog(listing, category, marker, dayIndex, path).value, BehavFrameColumns)
  {
    if BehavSessionLog(listing, category, marker, dayIndex, path).Ok? {
      var meta := BehavMetaEvents(BehavMetaOf(category, dayIndex, path));
      var names := ListDir(listing, path).value;
      var children := FoldLogs(names, BehavChildStep(listing, path, marker)).value;
      BehavEntriesColumns(listing, path, marker, names);
      forall i | 0 <= i < |meta|
        ensures meta[i].column in BehavFrameColumns
      {
        assert meta[i].column == BehavMetaColumns[i];
        assert BehavMetaColumns[i] in BehavMetaColumnSet;
      }
      InColumnsConcat(meta, children, BehavFrameColumns);
    }
  }

  lemma BehavTableColumns(listing: Listing, category: string, marker: string, table: Table)
    ensures BehavTableLog(listing, category, marker, table).Ok? ==>
      InColumns(BehavTableLog(listing, category, marker, table).value, BehavFrameColumns)
  {
    var step := BehavMouseStep(listing, category, marker);
    forall k | 0 <= k < |table|
      ensures step(table[k]).Ok? ==> InColumns(step(table[k]).value, BehavFrameColumns)
    {
      var sessions := Enumerate(table[k].paths);
      var sstep := BehavSessionStep(listing, category, marker);
      forall i | 0 <= i < |sessions|
        ensures sstep(sessions[i]).Ok? ==> InColumns(sstep(sessions[i]).value, BehavFrameColumns)
      {
        BehavSessionColumns(listing, category, marker, i, table[k].paths[i]);
      }
      FoldLogsColumns(sessions, sstep, BehavFrameColumns);
    }
    FoldLogsColumns(table, step, BehavFrameColumns);
  }

  /**
   * A frame that is built has only the six metadata columns and `XY` and
   * `trigger`; when the table has a session, every column has one value
   * per session.
   */
  lemma BehavShape(listing: Listing, category: string, marker: string, table: Table)
    requires BehavFrame(listing, category, marker, table).Ok?
    ensures BehavFrame(listing, category, marker, table).value.Keys <= BehavFrameColumns
    ensures |Flatten(table)| > 0 ==>
      forall c | c in BehavFrame(listing, category, marker, table).value ::
        |BehavFrame(listing, category, marker, table).value[c]| == |Flatten(table)|
  {
    var log := BehavTableLog(listing, category, marker, table).value;
    var cols := Accumulate(map[], log);
    assert BehavFrame(listing, category, marker, table).value == cols;
    BehavTableColumns(listing, category, marker, table);
    if |Flatten(table)| > 0 {
      BehavTableProject(listing, category, marker, table, "mice_name");
      GatherLength(table, BehavStep(category));
      BuiltShape(log, BehavFrameColumns, "mice_name", |Flatten(table)|);
    } else {
      AccumulateKeys(map[], log);
    }
  }

  // --- what the XY and trigger columns hold -------------------------------

  /** The second part each motor column of `get_behav_df` takes its files by. */
  const BehavRoutes: seq<(string, string)> := [("XY", "XY"), ("Trigger", "trigger")]

  /** A file carrying `marker` that splits into five parts, the second being `kind`. */
  function BehavMotorValue(marker: string, kind: string): Value -> bool
  {
    (v: Value) =>
      && v.Text? && Slice(v.text, -7, -4) == marker
      && var parts := Split(v.text, '_');
      |parts| == 5 && parts[1] == kind
  }

  /** A motor file appends to a route's column only itself, and only when its second part is the route's. */
  lemma BehavFileValues(file: string, marker: string, k: nat)
    requires k < |BehavRoutes|
    ensures BehavMotorFileLog(file, marker).Ok? ==>
      AllValues(Project(BehavMotorFileLog(file, marker).value, BehavRoutes[k].1), BehavMotorValue(marker, BehavRoutes[k].0))
  {
    BehavMotorFileShape(file, marker);
    var r := BehavMotorFileLog(file, marker);
    if r.Ok? && |r.value| == 1 {
      var log := r.value;
      assert log[1..] == [];
      var parts := Split(file, '_');
      if log[0].column == BehavRoutes[k].1 {
        assert log == [Append(BehavRoutes[k].1, Text(file))];
        assert Project(log, BehavRoutes[k].1) == [Text(file)];
      } else {
        assert Project(log, BehavRoutes[k].1) == [];
      }
    } else if r.Ok? {
      assert r.value == [];
    }
  }

  lemma BehavChildValues(listing: Listing, path: string, marker: string, name: string, k: nat)
    requires k < |BehavRoutes|
    ensures BehavChildLog(listing, path, marker, name).Ok? ==>
      AllValues(Project(BehavChildLog(listing, path, marker, name).value, BehavRoutes[k].1), BehavMotorValue(marker, BehavRoutes[k].0))
  {
    var listed := ListDir(listing, MotorDir(path));
    if Slice(name, 0, 2) == "mo" && listed.Ok? {
      var files := listed.value;
      forall i | 0 <= i < |files|
        ensures BehavMotorStep(marker)(files[i]).Ok? ==>
          AllValues(Project(BehavMotorStep(marker)(files[i]).value, BehavRoutes[k].1), BehavMotorValue(marker, BehavRoutes[k].0))
      {
        BehavFileValues(files[i], marker, k);
      }
      FoldLogsValues(files, BehavMotorStep(marker), BehavRoutes[k].1, BehavMotorValue(marker, BehavRoutes[k].0));
    }
  }

  lemma BehavMetaEventsColumns(m: BehavMeta)
    ensures InColumns(BehavMetaEvents(m), BehavMetaColumnSet)
  {
    var meta := BehavMetaEvents(m);
    forall i | 0 <= i < |meta|
      ensures meta[i].column in BehavMetaColumnSet
    {
      assert meta[i].column == BehavMetaColumns[i];
    }
  }

  lemma BehavSessionValues(listing: Listing, category: string, marker: string, dayIndex: nat, path: string, k: nat)
    requires k < |BehavRoutes|
    ensures BehavSessionLog(listing, category, marker, dayIndex, path).Ok? ==>
      AllValues(Project(BehavSessionLog(listing, category, marker, dayIndex, path).value, BehavRoutes[k].1), BehavMotorValue(marker, BehavRoutes[k].0))
  {
    if BehavSessionLog(listing, category, marker, dayIndex, path).Ok? {
      var c, P := BehavRoutes[k].1, BehavMotorValue(marker, BehavRoutes[k].0);
      var meta := BehavMetaEvents(BehavMetaOf(category, dayIndex, path));
      var names := ListDir(listing, path).value;
      var step := BehavChildStep(listing, path, marker);
      var children := FoldLogs(names, step).value;
      assert BehavSessionLog(listing, category, marker, dayIndex, path).value == meta + children;
      forall i | 0 <= i < |names|
        ensures step(names[i]).Ok? ==> AllValues(Project(step(names[i]).value, c), P)
      {
        BehavChildValues(listing, path, marker, names[i], k);
      }
      FoldLogsValues(names, step, c, P);
      BehavMetaEventsColumns(BehavMetaOf(category, dayIndex, path));
      assert c !in BehavMetaColumnSet;
      ProjectOutside(meta, BehavMetaColumnSet, c);
      ProjectConcat(meta, children, c);
      assert [] + Project(children, c) == Project(children, c);
    }
  }

  lemma BehavMouseValues(listing: Listing, category: string, marker: string, paths: seq<string>, k: nat)
    requires k < |BehavRoutes|
    ensures BehavMouseLog(listing, category, marker, paths).Ok? ==>
      AllValues(Project(BehavMouseLog(listing, category, marker, paths).value, BehavRoutes[k].1), BehavMotorValue(marker, BehavRoutes[k].0))
  {
    var sessions := Enumerate(paths);
    var step := BehavSessionStep(listing, category, marker);
    forall i | 0 <= i < |sessions|
      ensures step(sessions[i]).Ok? ==>
        AllValues(Project(step(sessions[i]).value, BehavRoutes[k].1), BehavMotorValue(marker, BehavRoutes[k].0))
    {
      BehavSessionValues(listing, category, marker, i, paths[i], k);
    }
    FoldLogsValues(sessions, step, BehavRoutes[k].1, BehavMotorValue(marker, BehavRoutes[k].0));
  }

  /**
   * In a frame that is built, `XY` holds only files carrying the marker
   * with five parts whose second part is `XY`, and `trigger` only such
   * files whose second part is `Trigger`.
   */
  lemma BehavFrameMotor(listing: Listing, category: string, marker: string, table: Table, k: nat)
    requires k < |BehavRoutes|
    requires BehavFrame(listing, category, marker, table).Ok?
    ensures AllValues(Column(BehavFrame(listing, category, marker, table).value, BehavRoutes[k].1), BehavMotorValue(marker, BehavRoutes[k].0))
  {
    var step := BehavMouseStep(listing, category, marker);
    forall m | 0 <= m < |table|
      ensures step(table[m]).Ok? ==>
        AllValues(Project(step(table[m]).value, BehavRoutes[k].1), BehavMotorValue(marker, BehavRoutes[k].0))
    {
      BehavMouseValues(listing, category, marker, table[m].paths, k);
    }
    FoldLogsValues(table, step, BehavRoutes[k].1, BehavMotorValue(marker, BehavRoutes[k].0));
    var log := BehavTableLog(listing, category, marker, table).value;
    assert Column(BehavFrame(listing, category, marker, table).value, BehavRoutes[k].1) == [] + Project(log, BehavRoutes[k].1);
  }
}
