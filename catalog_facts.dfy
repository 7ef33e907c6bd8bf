/**
 * What `get_sessions_df` promises: which errors it can stop with, that
 * the metadata columns hold one row per session of the table in table
 * order, and which columns the frame can have.
 */
module CatalogFacts {
  import opened PyStrings
  import opened Taxonomy
  import opened Registry
  import opened StaticFacts
  import opened Outcome
  import opened Columns
  import opened Classify
  import opened Catalog

  /** The categories `get_sessions_df` accepts. */
  const Categories: seq<string> := [StimAgoLabel, RandomLabel, LightLabel, AgoLabel, BehaviorLabel]

  // --- errors -------------------------------------------------------------

  predicate Missing(e: Error) { e.MissingDirectory? }

  /** An error the files on disk cause: a missing directory or a motor file name of the wrong shape. */
  predicate FilesystemError(e: Error) { e.MissingDirectory? || e.MalformedMotorFile? }

  /** An error of the session loops: a files error, or a session path that is malformed or not registered. */
  predicate SessionError(e: Error) { FilesystemError(e) || e.MalformedSessionPath? || e.SessionNotRegistered? }

  lemma ImagingDirErrors(listing: Listing, path: string, dir: string)
    ensures ImagingDirLog(listing, path, dir).Err? ==> ImagingDirLog(listing, path, dir).error == MissingDirectory(ImSubDir(path, dir))
  {
    var listed := ListDir(listing, ImSubDir(path, dir));
    if listed.Ok? {
      FoldLogsOk(listed.value, ImagingFileStep(dir));
    }
  }

  /** Descending into `im/` fails only on a missing directory. */
  lemma ImagingErrors(listing: Listing, path: string)
    ensures ImagingLog(listing, path).Err? ==> ImagingLog(listing, path).error.MissingDirectory?
  {
    var listed := ListDir(listing, ImDir(path));
    if listed.Ok? {
      var dirs := listed.value;
      forall i | 0 <= i < |dirs|
        ensures ImagingDirStep(listing, path)(dirs[i]).Err? ==> Missing(ImagingDirStep(listing, path)(dirs[i]).error)
      {
        ImagingDirErrors(listing, path, dirs[i]);
      }
      FoldLogsErrors(dirs, ImagingDirStep(listing, path), Missing);
    }
  }

  /** Descending into `motor/` fails only on a missing directory or a malformed recording name. */
  lemma MotorErrors(listing: Listing, path: string)
    ensures MotorLog(listing, path).Err? ==> FilesystemError(MotorLog(listing, path).error)
  {
    var listed := ListDir(listing, MotorDir(path));
    if listed.Ok? {
      var files := listed.value;
      forall i | 0 <= i < |files|
        ensures MotorFileLog(files[i]).Err? ==> FilesystemError(MotorFileLog(files[i]).error)
      {
      }
      FoldLogsErrors(files, MotorFileLog, FilesystemError);
    }
  }

  lemma ChildErrors(listing: Listing, path: string, category: string, name: string)
    ensures ChildLog(listing, path, category, name).Err? ==> FilesystemError(ChildLog(listing, path, category, name).error)
  {
    ImagingErrors(listing, path);
    MotorErrors(listing, path);
  }

  /** A session fails on its path or lookup, or on its files; a catalogued session only on its files. */
  lemma SessionErrors(listing: Listing, registry: seq<Row>, category: string, dayIndex: nat, path: string)
    ensures SessionLog(listing, registry, category, dayIndex, path).Err? ==>
      SessionError(SessionLog(listing, registry, category, dayIndex, path).error)
    ensures SessionLog(listing, registry, category, dayIndex, path).Err? && Catalogued(registry, path) ==>
      FilesystemError(SessionLog(listing, registry, category, dayIndex, path).error)
  {
    var listed := ListDir(listing, path);
    if listed.Ok? {
      var names := listed.value;
      forall i | 0 <= i < |names|
        ensures ChildStep(listing, path, category)(names[i]).Err? ==> FilesystemError(ChildStep(listing, path, category)(names[i]).error)
      {
        ChildErrors(listing, path, category, names[i]);
      }
      FoldLogsErrors(names, ChildStep(listing, path, category), FilesystemError);
    }
  }

  /**
   * The metadata step fails exactly for a session that is not catalogued:
   * first on a path that does not split in three, then on a path missing
   * from the registry.
   */
  lemma MetaLogCases(registry: seq<Row>, category: string, dayIndex: nat, path: string)
    ensures MetaLog(registry, category, dayIndex, path).Ok? <==> Catalogued(registry, path)
    ensures |Split(path, '/')| != 3 ==> MetaLog(registry, category, dayIndex, path) == Err(MalformedSessionPath(path))
    ensures |Split(path, '/')| == 3 && path !in Paths(registry) ==>
      MetaLog(registry, category, dayIndex, path) == Err(SessionNotRegistered(path))
  {
  }

  /** Every session of every mouse of the table has a three-part path found in the registry. */
  predicate AllCatalogued(registry: seq<Row>, table: Table)
  {
    forall k, i | 0 <= k < |table| && 0 <= i < |table[k].paths| :: Catalogued(registry, table[k].paths[i])
  }

  lemma MouseErrors(listing: Listing, registry: seq<Row>, category: string, paths: seq<string>)
    ensures MouseLog(listing, registry, category, paths).Err? ==> SessionError(MouseLog(listing, registry, category, paths).error)
    ensures (forall i | 0 <= i < |paths| :: Catalogued(registry, paths[i])) && MouseLog(listing, registry, category, paths).Err? ==>
      FilesystemError(MouseLog(listing, registry, category, paths).error)
  {
    var sessions := Enumerate(paths);
    var step := SessionStep(listing, registry, category);
    forall i | 0 <= i < |sessions|
      ensures step(sessions[i]).Err? ==> SessionError(step(sessions[i]).error)
      ensures Catalogued(registry, paths[i]) && step(sessions[i]).Err? ==> FilesystemError(step(sessions[i]).error)
    {
      SessionErrors(listing, registry, category, i, paths[i]);
    }
    FoldLogsErrors(sessions, step, SessionError);
    if forall i | 0 <= i < |paths| :: Catalogued(registry, paths[i]) {
      FoldLogsErrors(sessions, step, FilesystemError);
    }
  }

  lemma TableErrors(listing: Listing, registry: seq<Row>, category: string, table: Table)
    ensures TableLog(listing, registry, category, table).Err? ==> SessionError(TableLog(listing, registry, category, table).error)
    ensures AllCatalogued(registry, table) && TableLog(listing, registry, category, table).Err? ==>
      FilesystemError(TableLog(listing, registry, category, table).error)
  {
    var step := MouseStep(listing, registry, category);
    forall k | 0 <= k < |table|
      ensures step(table[k]).Err? ==> SessionError(step(table[k]).error)
      ensures AllCatalogued(registry, table) && step(table[k]).Err? ==> FilesystemError(step(table[k]).error)
    {
      MouseErrors(listing, registry, category, table[k].paths);
    }
    FoldLogsErrors(table, step, SessionError);
    if AllCatalogued(registry, table) {
      FoldLogsErrors(table, step, FilesystemError);
    }
  }

  /**
   * The frame fails with a session error or with ragged columns; when
   * every session of the table is catalogued, only with a files error or
   * ragged columns.
   */
  lemma SessionsFrameErrors(listing: Listing, registry: seq<Row>, category: string, table: Table)
    ensures SessionsFrame(listing, registry, category, table).Err? ==>
      var e := SessionsFrame(listing, registry, category, table).error;
      SessionError(e) || e == RaggedColumns
    ensures AllCatalogued(registry, table) && SessionsFrame(listing, registry, category, table).Err? ==>
      var e := SessionsFrame(listing, registry, category, table).error;
      FilesystemError(e) || e == RaggedColumns
  {
    TableErrors(listing, registry, category, table);
  }

  // --- the static tables are catalogued ------------------------------------

  /** Where a path of the table sits in its flattening. */
  lemma {:induction false} FlattenIndex(t: Table, k: nat, i: nat) returns (j: nat)
    requires k < |t| && i < |t[k].paths|
    ensures j < |Flatten(t)| && Flatten(t)[j] == t[k].paths[i]
  {
    if k == 0 {
      j := i;
    } else {
      var j' := FlattenIndex(t[1..], k - 1, i);
      j := |t[0].paths| + j';
    }
  }

  lemma CataloguedByLayout(registry: seq<Row>, table: Table)
    requires LaidOut(Flatten(table)) && Within(Flatten(table), Paths(registry))
    ensures AllCatalogued(registry, table)
  {
    forall k, i | 0 <= k < |table| && 0 <= i < |table[k].paths|
      ensures Catalogued(registry, table[k].paths[i])
    {
      var j := FlattenIndex(table, k, i);
      var p := Flatten(table)[j];
      LayoutSplit(p);
    }
  }

  lemma StimAgoCatalogued() ensures AllCatalogued(AllSessions(), BmiStimAgo)
  {
    BmiTablesLaidOut();
    TablesRegistered();
    CataloguedByLayout(AllSessions(), BmiStimAgo);
  }

  lemma RandomCatalogued() ensures AllCatalogued(AllSessions(), BmiRandom)
  {
    BmiTablesLaidOut();
    TablesRegistered();
    CataloguedByLayout(AllSessions(), BmiRandom);
  }

  lemma StimCatalogued() ensures AllCatalogued(AllSessions(), BmiStim)
  {
    BmiTablesLaidOut();
    TablesRegistered();
    CataloguedByLayout(AllSessions(), BmiStim);
  }

  lemma AgoCatalogued() ensures AllCatalogued(AllSessions(), BmiAgo)
  {
    BmiTablesLaidOut();
    TablesRegistered();
    CataloguedByLayout(AllSessions(), BmiAgo);
  }

  lemma BehaviorCatalogued() ensures AllCatalogued(AllSessions(), Behavior)
  {
    OtherTablesLaidOut();
    TablesRegistered();
    CataloguedByLayout(AllSessions(), Behavior);
  }

  /** A category is accepted exactly when it has a table. */
  lemma CategoryAccepted(category: string)
    ensures CategoryTable(category).Ok? <==> category in Categories
    ensures CategoryTable(category).Err? ==> CategoryTable(category) == Err(UnknownExperimentType(category))
  {
  }

  /** Every session of each accepted category's table splits in three and is registered. */
  lemma CategoryTablesCatalogued(category: string)
    requires category in Categories
    ensures CategoryTable(category).Ok? && AllCatalogued(AllSessions(), CategoryTable(category).value)
  {
    CategoryAccepted(category);
    if category == StimAgoLabel {
      StimAgoCatalogued();
    } else if category == RandomLabel {
      RandomCatalogued();
    } else if category == LightLabel {
      StimCatalogued();
    } else if category == AgoLabel {
      AgoCatalogued();
    } else {
      BehaviorCatalogued();
    }
  }

  /**
   * An unknown category stops at once with its error; for an accepted one
   * the static tables leave only the errors the files on disk cause, or
   * ragged columns.
   */
  lemma SessionsDfErrors(listing: Listing, category: string)
    ensures category !in Categories ==> SessionsDf(listing, category) == Err(UnknownExperimentType(category))
    ensures category in Categories && SessionsDf(listing, category).Err? ==>
      FilesystemError(SessionsDf(listing, category).error) || SessionsDf(listing, category).error == RaggedColumns
  {
    CategoryAccepted(category);
    if category in Categories {
      var table := CategoryTable(category).value;
      CategoryTablesCatalogued(category);
      SessionsFrameErrors(listing, AllSessions(), category, table);
      assert SessionsDf(listing, category) == SessionsFrame(listing, AllSessions(), category, table);
    }
  }
}
