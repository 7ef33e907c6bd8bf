/**
 * The pure decisions inside the catalogue loops: the ordinal of a
 * session from its day label, and which bucket column a file name is
 * appended to. Each returns the appends it causes, as a `Log`.
 */
module Classify {
  import opened PyStrings
  import opened Outcome
  import opened Columns

  // --- ordinal of a session ------------------------------------------------

  /** `session_day`: '2nd' for a day label ending in "-2", '3rd' for "-3", '1st' otherwise. */
  function SessionDay(dayInit: string): string
  {
    var tail := Slice(dayInit, -2, |dayInit|);
    if tail == "-2" then "2nd" else if tail == "-3" then "3rd" else "1st"
  }

  lemma SessionDayCases(dayInit: string)
    ensures SessionDay(dayInit) == "2nd" <==> EndsWith(dayInit, "-2")
    ensures SessionDay(dayInit) == "3rd" <==> EndsWith(dayInit, "-3")
    ensures SessionDay(dayInit) == "1st" <==> !EndsWith(dayInit, "-2") && !EndsWith(dayInit, "-3")
  {
    SliceSuffix(dayInit, "-2");
    SliceSuffix(dayInit, "-3");
    if EndsWith(dayInit, "-2") {
      assert !EndsWith(dayInit, "-3") by {
        assert dayInit[|dayInit| - 2..][1] == '2';
      }
    }
  }

  // --- files inside im/<subdir>/ -------------------------------------------

  const VoltageSuffix: string := "_Cycle00001_VoltageRecording_001.csv"

  /** The columns an imaging file can be appended to. */
  const ImagingColumns: set<string> := {"Baseline_im", "Voltage_Baseline", "Voltage_rec", "Experiment_im", "Experiment_dir"}

  /** The appends for file `file` found in the imaging subdirectory `dir`. */
  function ImagingFileLog(dir: string, file: string): Log
  {
    var head := Slice(file, 0, 8);
    if head == "baseline" then
      [Append("Baseline_im", Text(file)), Append("Voltage_Baseline", Text(file + VoltageSuffix))]
    else if head in ["BMI_stim", "RandomDR"] then
      [Append("Voltage_rec", Text(file + VoltageSuffix)), Append("Experiment_im", Text(file)), Append("Experiment_dir", Text(dir))]
    else
      []
  }

  /** A baseline recording adds its name and its companion voltage file. */
  lemma ImagingBaseline(dir: string, file: string)
    requires StartsWith(file, "baseline")
    ensures ImagingFileLog(dir, file) == [Append("Baseline_im", Text(file)), Append("Voltage_Baseline", Text(file + VoltageSuffix))]
  {
    SlicePrefix(file, "baseline");
  }

  /** A stimulation or random recording adds its companion voltage file, its name and its subdirectory. */
  lemma ImagingExperiment(dir: string, file: string)
    requires !StartsWith(file, "baseline")
    requires StartsWith(file, "BMI_stim") || StartsWith(file, "RandomDR")
    ensures ImagingFileLog(dir, file) ==
      [Append("Voltage_rec", Text(file + VoltageSuffix)), Append("Experiment_im", Text(file)), Append("Experiment_dir", Text(dir))]
  {
    SlicePrefix(file, "baseline");
    SlicePrefix(file, "BMI_stim");
    SlicePrefix(file, "RandomDR");
  }

  /** Any other file adds nothing. */
  lemma ImagingOther(dir: string, file: string)
    requires !StartsWith(file, "baseline") && !StartsWith(file, "BMI_stim") && !StartsWith(file, "RandomDR")
    ensures ImagingFileLog(dir, file) == []
  {
    SlicePrefix(file, "baseline");
    SlicePrefix(file, "BMI_stim");
    SlicePrefix(file, "RandomDR");
  }

  lemma ImagingColumnsOnly(dir: string, file: string)
    ensures forall i | 0 <= i < |ImagingFileLog(dir, file)| :: ImagingFileLog(dir, file)[i].column in ImagingColumns
  {
  }

  // --- files at the top of a session directory ----------------------------

  /** The prefix tests of the top-level `if`/`elif` chain, in order, and the column each selects. */
  const TopLevelRules: seq<(string, string)> := [
    ("BaselineOn", "Baseline_online"),
    ("BMI_online", "BMI_online"),
    ("BMI_target", "BMI_target"),
    ("roi_data", "roi_data"),
    ("strcMask", "mask_data"),
    ("target_cal", "target_calibration")
  ]

  const TopLevelColumns: set<string> := {"Baseline_online", "BMI_online", "BMI_target", "roi_data", "mask_data", "target_calibration"}

  /** The appends for a top-level file `name`, as the `if`/`elif` chain on its first 10 or 8 characters makes them. */
  function TopLevelLog(name: string): Log
  {
    if Slice(name, 0, 10) == "BaselineOn" then [Append("Baseline_online", Text(name))]
    else if Slice(name, 0, 10) == "BMI_online" then [Append("BMI_online", Text(name))]
    else if Slice(name, 0, 10) == "BMI_target" then [Append("BMI_target", Text(name))]
    else if Slice(name, 0, 8) == "roi_data" then [Append("roi_data", Text(name))]
    else if Slice(name, 0, 8) == "strcMask" then [Append("mask_data", Text(name))]
    else if Slice(name, 0, 10) == "target_cal" then [Append("target_calibration", Text(name))]
    else []
  }

  /**
   * The first rule whose prefix `name` starts with, or none: at most one
   * append, and only for the first matching rule.
   */
  function FirstMatch(rules: seq<(string, string)>, name: string): (log: Log)
    ensures |log| <= 1
    ensures |log| == 0 <==> forall k | 0 <= k < |rules| :: !StartsWith(name, rules[k].0)
    ensures |log| == 1 ==> log[0].value == Text(name)
    ensures |log| == 1 ==>
      exists k | 0 <= k < |rules| ::
        && StartsWith(name, rules[k].0) && log[0].column == rules[k].1
        && forall j | 0 <= j < k :: !StartsWith(name, rules[j].0)
  {
    if |rules| == 0 then []
    else if StartsWith(name, rules[0].0) then [Append(rules[0].1, Text(name))]
    else
      var log := FirstMatch(rules[1..], name);
      assert |log| == 1 ==>
        exists k | 0 <= k < |rules| ::
          && StartsWith(name, rules[k].0) && log[0].column == rules[k].1
          && forall j | 0 <= j < k :: !StartsWith(name, rules[j].0) by {
        if |log| == 1 {
          var k :| 0 <= k < |rules[1..]| && StartsWith(name, rules[1..][k].0) && log[0].column == rules[1..][k].1
            && forall j | 0 <= j < k :: !StartsWith(name, rules[1..][j].0);
          assert rules[k + 1] == rules[1..][k];
          assert forall j | 0 < j < k + 1 :: rules[j] == rules[1..][j - 1];
        }
      }
      log
  }

  /** The `if`/`elif` chain is the first-match rule over the table of prefixes, in its order. */
  lemma TopLevelByRules(name: string)
    ensures TopLevelLog(name) == FirstMatch(TopLevelRules, name)
  {
    SlicePrefix(name, "BaselineOn");
    SlicePrefix(name, "BMI_online");
    SlicePrefix(name, "BMI_target");
    SlicePrefix(name, "roi_data");
    SlicePrefix(name, "strcMask");
    SlicePrefix(name, "target_cal");
    var r0 := TopLevelRules;
    var r1, r2, r3, r4, r5 := r0[1..], r0[2..], r0[3..], r0[4..], r0[5..];
    assert r1[1..] == r2 && r2[1..] == r3 && r3[1..] == r4 && r4[1..] == r5 && r5[1..] == [];
    FirstMatchCons(r0, name);
    FirstMatchCons(r1, name);
    FirstMatchCons(r2, name);
    FirstMatchCons(r3, name);
    FirstMatchCons(r4, name);
    FirstMatchCons(r5, name);
  }

  lemma FirstMatchCons(rules: seq<(string, string)>, name: string)
    requires |rules| > 0
    ensures FirstMatch(rules, name) ==
      if StartsWith(name, rules[0].0) then [Append(rules[0].1, Text(name))] else FirstMatch(rules[1..], name)
  {
  }

  lemma TopLevelColumnsOnly(name: string)
    ensures forall i | 0 <= i < |TopLevelLog(name)| :: TopLevelLog(name)[i].column in TopLevelColumns
  {
  }

  // --- files inside motor/ -------------------------------------------------

  const MotorColumns: set<string> := {"XY_baseline", "XY_BMI", "trigger_baseline", "trigger_BMI"}

  /** (second part, fourth part, column) for the four motor buckets. */
  const MotorBuckets: seq<(string, string, string)> := [
    ("XY", "baseline.csv", "XY_baseline"),
    ("XY", "BMI.csv", "XY_BMI"),
    ("Trigger", "baseline.csv", "trigger_baseline"),
    ("Trigger", "BMI.csv", "trigger_BMI")
  ]

  /** A motor file ending "ine" or "BMI" before its last four characters is a baseline or BMI trajectory. */
  predicate IsMotorRecording(file: string)
  {
    Slice(file, -7, -4) in ["ine", "BMI"]
  }

  /**
   * The appends for file `file` of a session's motor directory in
   * `get_sessions_df`. A recording must split on '_' into exactly four
   * parts (the unpacking raises otherwise); its second and fourth parts
   * pick the bucket.
   */
  function MotorFileLog(file: string): Result<Log>
  {
    if IsMotorRecording(file) then
      var parts := Split(file, '_');
      if |parts| != 4 then Err(MalformedMotorFile(file))
      else
        var kind, ending := parts[1], parts[3];
        if kind == "XY" then
          if ending == "baseline.csv" then Ok([Append("XY_baseline", Text(file))])
          else if ending == "BMI.csv" then Ok([Append("XY_BMI", Text(file))])
          else Ok([])
        else if kind == "Trigger" then
          if ending == "baseline.csv" then Ok([Append("trigger_baseline", Text(file))])
          else if ending == "BMI.csv" then Ok([Append("trigger_BMI", Text(file))])
          else Ok([])
        else Ok([])
    else Ok([])
  }

  datatype Option<T> = None | Some(value: T)

  /** The bucket the (second, fourth) part pair selects, if any. */
  function BucketOf(buckets: seq<(string, string, string)>, kind: string, ending: string): (col: Option<string>)
    ensures col.None? <==> forall k | 0 <= k < |buckets| :: (buckets[k].0, buckets[k].1) != (kind, ending)
    ensures col.Some? ==> exists k | 0 <= k < |buckets| :: buckets[k] == (kind, ending, col.value)
  {
    if |buckets| == 0 then None
    else if buckets[0].0 == kind && buckets[0].1 == ending then Some(buckets[0].2)
    else
      var col := BucketOf(buckets[1..], kind, ending);
      assert forall k | 0 < k < |buckets| :: buckets[k] == buckets[1..][k - 1];
      if col.Some? then
        var k :| 0 <= k < |buckets[1..]| && buckets[1..][k] == (kind, ending, col.value);
        assert buckets[k + 1] == (kind, ending, col.value);
        col
      else col
  }


  /** A motor file outside the two markers adds nothing. */
  lemma MotorNotRecording(file: string)
    requires !IsMotorRecording(file)
    ensures MotorFileLog(file) == Ok([])
  {
  }

  /** A recording fails exactly when it does not split into four parts, and the error names the file. */
  lemma MotorMalformed(file: string)
    requires IsMotorRecording(file)
    ensures MotorFileLog(file).Err? <==> |Split(file, '_')| != 4
    ensures MotorFileLog(file).Err? ==> MotorFileLog(file) == Err(MalformedMotorFile(file))
  {
  }

  /** A four-part recording adds its name to the bucket its second and fourth parts select, or nothing. */
  lemma MotorBucket(file: string)
    requires IsMotorRecording(file) && |Split(file, '_')| == 4
    ensures var parts := Split(file, '_');
      var col := BucketOf(MotorBuckets, parts[1], parts[3]);
      MotorFileLog(file) == if col.Some? then Ok([Append(col.value, Text(file))]) else Ok([])
  {
    var parts := Split(file, '_');
    MotorBucketTable(parts[1], parts[3]);
  }

  /** The bucket table, read off case by case. */
  lemma MotorBucketTable(kind: string, ending: string)
    ensures BucketOf(MotorBuckets, kind, ending) ==
      if kind == "XY" && ending == "baseline.csv" then Some("XY_baseline")
      else if kind == "XY" && ending == "BMI.csv" then Some("XY_BMI")
      else if kind == "Trigger" && ending == "baseline.csv" then Some("trigger_baseline")
      else if kind == "Trigger" && ending == "BMI.csv" then Some("trigger_BMI")
      else None
  {
    var b := MotorBuckets;
    assert b[1..][1..][1..][1..] == [];
  }

  /**
   * A name made of '_'-free parts whose last part carries a recording
   * marker: it is rejected exactly when there are not four parts, and
   * otherwise lands in the bucket of its second and fourth parts.
   */
  lemma {:induction false} MotorJoined(parts: seq<string>)
    requires |parts| >= 1 && forall i :: 0 <= i < |parts| ==> '_' !in parts[i]
    requires var last := parts[|parts| - 1]; |last| >= 7 && last[|last| - 7..|last| - 4] in ["ine", "BMI"]
    ensures var file := Join(parts, '_');
      && (MotorFileLog(file).Err? <==> |parts| != 4)
      && (|parts| == 4 ==>
            var col := BucketOf(MotorBuckets, parts[1], parts[3]);
            MotorFileLog(file) == if col.Some? then Ok([Append(col.value, Text(file))]) else Ok([]))
  {
    var file := Join(parts, '_');
    SplitJoin(parts, '_');
    JoinSuffix(parts, '_');
    MarkerOfLast(file, parts[|parts| - 1]);
    MotorByParts(file, parts);
  }

  /** A name ending in a part that carries a recording marker is a recording. */
  lemma MarkerOfLast(file: string, last: string)
    requires EndsWith(file, last) && |last| >= 7 && last[|last| - 7..|last| - 4] in ["ine", "BMI"]
    ensures IsMotorRecording(file)
  {
    assert file[|file| - 7..|file| - 4] == last[|last| - 7..|last| - 4];
    assert Slice(file, -7, -4) == file[|file| - 7..|file| - 4];
  }

  lemma MotorByParts(file: string, parts: seq<string>)
    requires IsMotorRecording(file) && Split(file, '_') == parts
    ensures MotorFileLog(file).Err? <==> |parts| != 4
    ensures |parts| == 4 ==>
      var col := BucketOf(MotorBuckets, parts[1], parts[3]);
      MotorFileLog(file) == if col.Some? then Ok([Append(col.value, Text(file))]) else Ok([])
  {
    MotorMalformed(file);
    if |parts| == 4 {
      MotorBucket(file);
    }
  }

  /** "foo_XY_bar_baseline.csv" is an XY baseline trajectory. */
  lemma MotorExampleBucket()
    ensures var file := Join(["foo", "XY", "bar", "baseline.csv"], '_');
      MotorFileLog(file) == Ok([Append("XY_baseline", Text(file))])
  {
    var four: seq<string> := ["foo", "XY", "bar", "baseline.csv"];
    assert "baseline.csv"[5..8] == "ine";
    MotorJoined(four);
    MotorBucketTable("XY", "baseline.csv");
  }

  /** "foo_bar_baseline.csv" carries the marker but has three parts, so the unpacking stops with an error. */
  lemma MotorExampleMalformed()
    ensures var file := Join(["foo", "bar", "baseline.csv"], '_');
      MotorFileLog(file) == Err(MalformedMotorFile(file))
  {
    var three: seq<string> := ["foo", "bar", "baseline.csv"];
    assert "baseline.csv"[5..8] == "ine";
    MotorJoined(three);
    MotorMalformed(Join(three, '_'));
  }

  lemma MotorColumnsOnly(file: string)
    ensures MotorFileLog(file).Ok? ==>
      forall i | 0 <= i < |MotorFileLog(file).value| :: MotorFileLog(file).value[i].column in MotorColumns
  {
  }

  // --- motor files in get_behav_df ----------------------------------------

  const BehaviorColumns: set<string> := {"XY", "trigger"}

  /**
   * The appends for a motor file in `get_behav_df`: a file whose marker
   * before its last four characters is `marker` must split on '_' into
   * five parts, and its second part picks `XY` or `trigger`.
   */
  function BehavMotorFileLog(file: string, marker: string): Result<Log>
  {
    if Slice(file, -7, -4) == marker then
      var parts := Split(file, '_');
      if |parts| != 5 then Err(MalformedMotorFile(file))
      else if parts[1] == "XY" then Ok([Append("XY", Text(file))])
      else if parts[1] == "Trigger" then Ok([Append("trigger", Text(file))])
      else Ok([])
    else Ok([])
  }

  lemma BehavMotorFileCases(file: string, marker: string)
    requires |marker| == 3
    ensures !(|file| >= 7 && file[|file| - 7..|file| - 4] == marker) ==> BehavMotorFileLog(file, marker) == Ok([])
    ensures |file| >= 7 && file[|file| - 7..|file| - 4] == marker ==>
      (BehavMotorFileLog(file, marker).Err? <==> |Split(file, '_')| != 5)
    ensures BehavMotorFileLog(file, marker).Ok? ==>
      var log := BehavMotorFileLog(file, marker).value;
      |log| <= 1 && (|log| == 1 <==> |Split(file, '_')| == 5 && Split(file, '_')[1] in ["XY", "Trigger"] && Slice(file, -7, -4) == marker)
      && forall i | 0 <= i < |log| :: log[i].column in BehaviorColumns && log[i].value == Text(file)
    ensures |file| >= 7 && file[|file| - 7..|file| - 4] == marker && |Split(file, '_')| == 5 ==>
      && (Split(file, '_')[1] == "XY" ==> BehavMotorFileLog(file, marker) == Ok([Append("XY", Text(file))]))
      && (Split(file, '_')[1] == "Trigger" ==> BehavMotorFileLog(file, marker) == Ok([Append("trigger", Text(file))]))
  {
    SliceMarker(file, marker);
    BehavMotorFileShape(file, marker);
  }

  lemma BehavMotorFileShape(file: string, marker: string)
    ensures BehavMotorFileLog(file, marker).Ok? ==>
      var log := BehavMotorFileLog(file, marker).value;
      |log| <= 1 && (|log| == 1 <==> |Split(file, '_')| == 5 && Split(file, '_')[1] in ["XY", "Trigger"] && Slice(file, -7, -4) == marker)
      && forall i | 0 <= i < |log| :: log[i].column in BehaviorColumns && log[i].value == Text(file)
    ensures Slice(file, -7, -4) == marker && |Split(file, '_')| == 5 ==>
      && (Split(file, '_')[1] == "XY" ==> BehavMotorFileLog(file, marker) == Ok([Append("XY", Text(file))]))
      && (Split(file, '_')[1] == "Trigger" ==> BehavMotorFileLog(file, marker) == Ok([Append("trigger", Text(file))]))
  {
    if Slice(file, -7, -4) == marker {
      var parts := Split(file, '_');
      if |parts| == 5 {
        if parts[1] == "XY" {
          assert BehavMotorFileLog(file, marker) == Ok([Append("XY", Text(file))]);
        } else if parts[1] == "Trigger" {
          assert BehavMotorFileLog(file, marker) == Ok([Append("trigger", Text(file))]);
        } else {
          assert parts[1] !in ["XY", "Trigger"];
          assert BehavMotorFileLog(file, marker) == Ok([]);
        }
      }
    }
  }
}
