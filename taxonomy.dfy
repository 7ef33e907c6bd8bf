/**
 * The fixed experiment taxonomy: for each experiment category, the session
 * paths of each mouse, in the order the dictionaries list them. A Python
 * dict iterates in insertion order, so a table is an ordered list of
 * (key, paths) entries rather than a map.
 */
module Taxonomy {
  import opened PyStrings

  /** One `'Dnn': [...]` entry of a category table. */
  datatype MouseSessions = MouseSessions(key: string, paths: seq<string>)

  type Table = seq<MouseSessions>

  /** `np.concatenate(list(table.values()))`: every path of the table, mouse after mouse. */
  function Flatten(t: Table): seq<string>
  {
    if |t| == 0 then [] else t[0].paths + Flatten(t[1..])
  }

  // _BMI_STIM_AGO, preprocess/sessions.py lines 13-47
  const BmiStimAgoD13: seq<string> := ["ago13/221113/D02", "ago13/221114/D03", "ago13/221115/D04-2", "ago13/221116/D05"]
  const BmiStimAgoD15: seq<string> := ["ago15/221113/D02", "ago15/221114/D03", "ago15/221115/D04-2", "ago15/221116/D05", "ago15/221117/D06-2", "ago15/221119/D08", "ago15/221119/D08-2"]
  const BmiStimAgoD16: seq<string> := ["ago16/221113/D02", "ago16/221114/D03", "ago16/221116/D05", "ago16/221118/D07", "ago16/221118/D07-2", "ago16/221119/D08", "ago16/221119/D08-2"]
  const BmiStimAgoD18: seq<string> := ["ago18/221113/D02", "ago18/221114/D03", "ago18/221116/D05", "ago18/221117/D06-2", "ago18/221118/D07", "ago18/221118/D07-2", "ago18/221118/D07-3"]
  const BmiStimAgo: Table := [MouseSessions("D13", BmiStimAgoD13), MouseSessions("D15", BmiStimAgoD15), MouseSessions("D16", BmiStimAgoD16), MouseSessions("D18", BmiStimAgoD18)]

  // _BMI_RANDOM, preprocess/sessions.py lines 49-73
  const BmiRandomD13: seq<string> := ["ago13/221115/D04"]
  const BmiRandomD15: seq<string> := ["ago15/221115/D04", "ago15/221116/D05-2", "ago15/221117/D06", "ago15/221118/D07", "ago15/221118/D07-3"]
  const BmiRandomD16: seq<string> := ["ago16/221115/D04", "ago16/221116/D05-2", "ago16/221117/D06", "ago16/221117/D06-2", "ago16/221119/D08-3"]
  const BmiRandomD18: seq<string> := ["ago18/221115/D04", "ago18/221116/D05-2", "ago18/221117/D06", "ago18/221119/D08", "ago18/221119/D08-2"]
  const BmiRandom: Table := [MouseSessions("D13", BmiRandomD13), MouseSessions("D15", BmiRandomD15), MouseSessions("D16", BmiRandomD16), MouseSessions("D18", BmiRandomD18)]

  // _BMI_STIM, preprocess/sessions.py lines 75-84
  const BmiStimD13: seq<string> := ["ago13/221112/D01"]
  const BmiStimD15: seq<string> := ["ago15/221112/D01"]
  const BmiStimD16: seq<string> := ["ago16/221112/D01"]
  const BmiStimD18: seq<string> := ["ago18/221112/D01"]
  const BmiStim: Table := [MouseSessions("D13", BmiStimD13), MouseSessions("D15", BmiStimD15), MouseSessions("D16", BmiStimD16), MouseSessions("D18", BmiStimD18)]

  // _BMI_AGO, preprocess/sessions.py lines 86-95
  const BmiAgoD13: seq<string> := ["ago13/221117/D06"]
  const BmiAgoD15: seq<string> := ["ago15/221118/D07-2"]
  const BmiAgoD16: seq<string> := ["ago16/221115/D04-2"]
  const BmiAgoD18: seq<string> := ["ago18/221116/D05-3"]
  const BmiAgo: Table := [MouseSessions("D13", BmiAgoD13), MouseSessions("D15", BmiAgoD15), MouseSessions("D16", BmiAgoD16), MouseSessions("D18", BmiAgoD18)]

  // _BEHAVIOR, preprocess/sessions.py lines 97-106
  const BehaviorD13: seq<string> := ["ago13/221113/D02"]
  const BehaviorD15: seq<string> := ["ago15/221113/D02"]
  const BehaviorD16: seq<string> := ["ago16/221113/D02"]
  const BehaviorD18: seq<string> := ["ago18/221113/D02"]
  const Behavior: Table := [MouseSessions("D13", BehaviorD13), MouseSessions("D15", BehaviorD15), MouseSessions("D16", BehaviorD16), MouseSessions("D18", BehaviorD18)]

  // _MOTOR_beh_before_BMI, preprocess/sessions.py lines 108-125
  const MotorBeforeBmiD13: seq<string> := ["ago13/221113/D02", "ago13/221114/D03"]
  const MotorBeforeBmiD15: seq<string> := ["ago15/221113/D02", "ago15/221114/D03"]
  const MotorBeforeBmiD16: seq<string> := ["ago16/221113/D02", "ago16/221114/D03"]
  const MotorBeforeBmiD18: seq<string> := ["ago18/221113/D02", "ago18/221114/D03"]
  const MotorBeforeBmi: Table := [MouseSessions("D13", MotorBeforeBmiD13), MouseSessions("D15", MotorBeforeBmiD15), MouseSessions("D16", MotorBeforeBmiD16), MouseSessions("D18", MotorBeforeBmiD18)]

  // _MOTOR_initial_behavior, preprocess/sessions.py lines 127-140
  const MotorInitialD13: seq<string> := ["ago13/221113/D02"]
  const MotorInitialD15: seq<string> := ["ago15/221113/D02"]
  const MotorInitialD16: seq<string> := ["ago16/221113/D02"]
  const MotorInitialD18: seq<string> := ["ago18/221113/D02"]
  const MotorInitial: Table := [MouseSessions("D13", MotorInitialD13), MouseSessions("D15", MotorInitialD15), MouseSessions("D16", MotorInitialD16), MouseSessions("D18", MotorInitialD18)]

  /** A table with one entry per mouse, in key order D13, D15, D16, D18, flattens to the concatenation of its four path lists. */
  lemma FlattenFour(t: Table)
    requires |t| == 4
    ensures Flatten(t) == t[0].paths + (t[1].paths + (t[2].paths + t[3].paths))
  {
    var t1, t2, t3 := t[1..], t[1..][1..], t[1..][1..][1..];
    assert t1[0] == t[1] && t2[0] == t[2] && t3[0] == t[3] && t3[1..] == [];
    assert Flatten(t3) == t[3].paths + Flatten([]);
    assert Flatten(t2) == t[2].paths + Flatten(t3);
    assert Flatten(t1) == t[1].paths + Flatten(t2);
  }

  // ---------------------------------------------------------------------
  // Facts about the fixed data. The code depends on them without checking
  // them: every path splits into mouse/date/day, no path is listed twice
  // in the registry, and the registry's first path is a first session.
  // Each is checked per mouse, on the mouse's paths in the four tables
  // that `get_all_sessions` concatenates.
  // ---------------------------------------------------------------------

  /** The names in the first component of the paths, one per table entry, in key order. */
  const MouseNames: seq<string> := ["ago13", "ago15", "ago16", "ago18"]

  /** The registry paths of one mouse: its entries in _BMI_STIM_AGO, _BMI_RANDOM, _BMI_STIM and _BMI_AGO. */
  const Group13: seq<string> := BmiStimAgoD13 + BmiRandomD13 + BmiStimD13 + BmiAgoD13
  const Group15: seq<string> := BmiStimAgoD15 + BmiRandomD15 + BmiStimD15 + BmiAgoD15
  const Group16: seq<string> := BmiStimAgoD16 + BmiRandomD16 + BmiStimD16 + BmiAgoD16
  const Group18: seq<string> := BmiStimAgoD18 + BmiRandomD18 + BmiStimD18 + BmiAgoD18

  /** The earliest session of the whole registry. */
  const FirstSession: string := "ago13/221112/D01"

  /** No path is listed twice. */
  predicate Distinct(s: seq<string>)
  {
    forall i, j | 0 <= i < j < |s| :: s[i] != s[j]
  }

  /** A list has no repeated element exactly when each element occurs at most once in its multiset. */
  lemma {:induction false} DistinctCount(s: seq<string>)
    ensures Distinct(s) <==> forall x :: multiset(s)[x] <= 1
  {
    if |s| > 0 {
      var h, t := s[0], s[1..];
      assert s == [h] + t;
      DistinctCount(t);
      if Distinct(s) {
        assert Distinct(t) by {
          forall i, j | 0 <= i < j < |t|
            ensures t[i] != t[j]
          {
            assert t[i] == s[i + 1] && t[j] == s[j + 1];
          }
        }
        assert h !in t;
      }
      if forall x :: multiset(s)[x] <= 1 {
        assert forall x :: multiset(t)[x] <= 1 by {
          forall x
            ensures multiset(t)[x] <= 1
          {
            assert multiset(s)[x] == multiset(t)[x] + (if x == h then 1 else 0);
          }
        }
        assert multiset(s)[h] == multiset(t)[h] + 1;
        forall i, j | 0 <= i < j < |s|
          ensures s[i] != s[j]
        {
          if i == 0 {
            assert s[j] == t[j - 1] && s[j] in t;
          } else {
            assert s[i] == t[i - 1] && s[j] == t[j - 1];
          }
        }
      }
    }
  }

  predicate Unseparated(s: string)
  {
    forall i | 0 <= i < |s| :: s[i] != '/'
  }

  /** `p` has a '/' after its first five characters and after the next six, and none elsewhere. */
  predicate SessionPathLayout(p: string)
  {
    |p| >= 13 && p[5] == '/' && p[12] == '/'
    && '/' !in p[..5] && '/' !in p[6..12] && '/' !in p[13..]
  }

  /** A path "mouse/yymmdd/day" splits on '/' into exactly its three components. */
  lemma LayoutSplit(p: string)
    requires SessionPathLayout(p)
    ensures Split(p, '/') == [p[..5], p[6..12], p[13..]]
  {
    var parts := [p[..5], p[6..12], p[13..]];
    assert Join(parts[1..], '/') == p[6..12] + ['/'] + p[13..];
    assert Join(parts, '/') == p;
    SplitJoin(parts, '/');
  }

  /** The checks made per mouse group give the layout for each of its paths. */
  predicate GroupChecked(g: seq<string>, mouse: string)
  {
    && (forall i | 0 <= i < |g| :: StartsWith(g[i], mouse + "/"))
    && (forall i | 0 <= i < |g| :: |g[i]| >= 13 && g[i][12] == '/' && Unseparated(g[i][6..12]))
    && (forall i | 0 <= i < |g| :: |g[i]| >= 13 && Unseparated(g[i][13..]))
  }

  lemma {:induction false} GroupLayout(g: seq<string>, mouse: string)
    requires |mouse| == 5 && Unseparated(mouse)
    requires GroupChecked(g, mouse)
    ensures forall i | 0 <= i < |g| :: SessionPathLayout(g[i])
  {
    forall i | 0 <= i < |g|
      ensures SessionPathLayout(g[i])
    {
      var p := g[i];
      assert p[..6] == mouse + "/";
      assert p[..5] == mouse;
      assert p[5] == '/';
      assert Unseparated(p[6..12]) && Unseparated(p[13..]);
    }
  }

  /** The date of `p` sits between its first two slashes' places and has no '/' itself. */
  predicate DatedPath(p: string)
  {
    |p| >= 13 && p[12] == '/' && Unseparated(p[6..12])
  }

  /** The day label of `p`, after its thirteenth character, has no '/'. */
  predicate DayPath(p: string)
  {
    |p| >= 13 && Unseparated(p[13..])
  }

  /** A fact about every path of four lists holds for every path of their concatenation. */
  lemma EveryPathOfFour(a: seq<string>, b: seq<string>, c: seq<string>, d: seq<string>, P: string -> bool)
    requires forall i | 0 <= i < |a| :: P(a[i])
    requires forall i | 0 <= i < |b| :: P(b[i])
    requires forall i | 0 <= i < |c| :: P(c[i])
    requires forall i | 0 <= i < |d| :: P(d[i])
    ensures forall i | 0 <= i < |a + b + c + d| :: P((a + b + c + d)[i])
  {
    forall i | 0 <= i < |a + b + c + d|
      ensures P((a + b + c + d)[i])
    {
      if i < |a| {
        assert (a + b + c + d)[i] == a[i];
      } else if i < |a| + |b| {
        assert (a + b + c + d)[i] == b[i - |a|];
      } else if i < |a| + |b| + |c| {
        assert (a + b + c + d)[i] == c[i - |a| - |b|];
      } else {
        assert (a + b + c + d)[i] == d[i - |a| - |b| - |c|];
      }
    }
  }

  lemma G13Mouse() ensures forall i | 0 <= i < |Group13| :: StartsWith(Group13[i], "ago13/") {}
  lemma G13Date()
    ensures forall i | 0 <= i < |Group13| :: |Group13[i]| >= 13 && Group13[i][12] == '/' && Unseparated(Group13[i][6..12])
  {
    forall i | 0 <= i < |BmiStimAgoD13| ensures DatedPath(BmiStimAgoD13[i]) { }
    forall i | 0 <= i < |BmiRandomD13| ensures DatedPath(BmiRandomD13[i]) { }
    forall i | 0 <= i < |BmiStimD13| ensures DatedPath(BmiStimD13[i]) { }
    forall i | 0 <= i < |BmiAgoD13| ensures DatedPath(BmiAgoD13[i]) { }
    EveryPathOfFour(BmiStimAgoD13, BmiRandomD13, BmiStimD13, BmiAgoD13, DatedPath);
  }
  lemma G13Day()
    ensures forall i | 0 <= i < |Group13| :: |Group13[i]| >= 13 && Unseparated(Group13[i][13..])
  {
    forall i | 0 <= i < |BmiStimAgoD13| ensures DayPath(BmiStimAgoD13[i]) { }
    forall i | 0 <= i < |BmiRandomD13| ensures DayPath(BmiRandomD13[i]) { }
    forall i | 0 <= i < |BmiStimD13| ensures DayPath(BmiStimD13[i]) { }
    forall i | 0 <= i < |BmiAgoD13| ensures DayPath(BmiAgoD13[i]) { }
    EveryPathOfFour(BmiStimAgoD13, BmiRandomD13, BmiStimD13, BmiAgoD13, DayPath);
  }
  lemma G13Distinct() ensures Distinct(Group13) {}

  lemma G15Mouse() ensures forall i | 0 <= i < |Group15| :: StartsWith(Group15[i], "ago15/") {}
  lemma G15Date()
    ensures forall i | 0 <= i < |Group15| :: |Group15[i]| >= 13 && Group15[i][12] == '/' && Unseparated(Group15[i][6..12])
  {
    forall i | 0 <= i < |BmiStimAgoD15| ensures DatedPath(BmiStimAgoD15[i]) { }
    forall i | 0 <= i < |BmiRandomD15| ensures DatedPath(BmiRandomD15[i]) { }
    forall i | 0 <= i < |BmiStimD15| ensures DatedPath(BmiStimD15[i]) { }
    forall i | 0 <= i < |BmiAgoD15| ensures DatedPath(BmiAgoD15[i]) { }
    EveryPathOfFour(BmiStimAgoD15, BmiRandomD15, BmiStimD15, BmiAgoD15, DatedPath);
  }
  lemma G15Day()
    ensures forall i | 0 <= i < |Group15| :: |Group15[i]| >= 13 && Unseparated(Group15[i][13..])
  {
    forall i | 0 <= i < |BmiStimAgoD15| ensures DayPath(BmiStimAgoD15[i]) { }
    forall i | 0 <= i < |BmiRandomD15| ensures DayPath(BmiRandomD15[i]) { }
    forall i | 0 <= i < |BmiStimD15| ensures DayPath(BmiStimD15[i]) { }
    forall i | 0 <= i < |BmiAgoD15| ensures DayPath(BmiAgoD15[i]) { }
    EveryPathOfFour(BmiStimAgoD15, BmiRandomD15, BmiStimD15, BmiAgoD15, DayPath);
  }
  lemma G15Distinct() ensures Distinct(Group15) {}

  lemma G16Mouse() ensures forall i | 0 <= i < |Group16| :: StartsWith(Group16[i], "ago16/") {}
  lemma G16Date()
    ensures forall i | 0 <= i < |Group16| :: |Group16[i]| >= 13 && Group16[i][12] == '/' && Unseparated(Group16[i][6..12])
  {
    forall i | 0 <= i < |BmiStimAgoD16| ensures DatedPath(BmiStimAgoD16[i]) { }
    forall i | 0 <= i < |BmiRandomD16| ensures DatedPath(BmiRandomD16[i]) { }
    forall i | 0 <= i < |BmiStimD16| ensures DatedPath(BmiStimD16[i]) { }
    forall i | 0 <= i < |BmiAgoD16| ensures DatedPath(BmiAgoD16[i]) { }
    EveryPathOfFour(BmiStimAgoD16, BmiRandomD16, BmiStimD16, BmiAgoD16, DatedPath);
  }
  lemma G16Day()
    ensures forall i | 0 <= i < |Group16| :: |Group16[i]| >= 13 && Unseparated(Group16[i][13..])
  {
    forall i | 0 <= i < |BmiStimAgoD16| ensures DayPath(BmiStimAgoD16[i]) { }
    forall i | 0 <= i < |BmiRandomD16| ensures DayPath(BmiRandomD16[i]) { }
    forall i | 0 <= i < |BmiStimD16| ensures DayPath(BmiStimD16[i]) { }
    forall i | 0 <= i < |BmiAgoD16| ensures DayPath(BmiAgoD16[i]) { }
    EveryPathOfFour(BmiStimAgoD16, BmiRandomD16, BmiStimD16, BmiAgoD16, DayPath);
  }
  lemma G16Distinct() ensures Distinct(Group16) {}

  lemma G18Mouse() ensures forall i | 0 <= i < |Group18| :: StartsWith(Group18[i], "ago18/") {}
  lemma G18Date()
    ensures forall i | 0 <= i < |Group18| :: |Group18[i]| >= 13 && Group18[i][12] == '/' && Unseparated(Group18[i][6..12])
  {
    forall i | 0 <= i < |BmiStimAgoD18| ensures DatedPath(BmiStimAgoD18[i]) { }
    forall i | 0 <= i < |BmiRandomD18| ensures DatedPath(BmiRandomD18[i]) { }
    forall i | 0 <= i < |BmiStimD18| ensures DatedPath(BmiStimD18[i]) { }
    forall i | 0 <= i < |BmiAgoD18| ensures DatedPath(BmiAgoD18[i]) { }
    EveryPathOfFour(BmiStimAgoD18, BmiRandomD18, BmiStimD18, BmiAgoD18, DatedPath);
  }
  lemma G18Day()
    ensures forall i | 0 <= i < |Group18| :: |Group18[i]| >= 13 && Unseparated(Group18[i][13..])
  {
    forall i | 0 <= i < |BmiStimAgoD18| ensures DayPath(BmiStimAgoD18[i]) { }
    forall i | 0 <= i < |BmiRandomD18| ensures DayPath(BmiRandomD18[i]) { }
    forall i | 0 <= i < |BmiStimD18| ensures DayPath(BmiStimD18[i]) { }
    forall i | 0 <= i < |BmiAgoD18| ensures DayPath(BmiAgoD18[i]) { }
    EveryPathOfFour(BmiStimAgoD18, BmiRandomD18, BmiStimD18, BmiAgoD18, DayPath);
  }
  lemma G18Distinct() ensures Distinct(Group18) {}

  /** Every ago13 path other than the first is from a later date: the same up to the date's last digit, which is above '2'. */
  lemma G13AfterFirst()
    ensures forall i | 0 <= i < |Group13| :: Group13[i] == FirstSession || (|Group13[i]| >= 12 && Group13[i][..11] == "ago13/22111" && Group13[i][11] > '2')
  {}

  lemma MouseNamesChecked()
    ensures forall k | 0 <= k < |MouseNames| :: |MouseNames[k]| == 5 && Unseparated(MouseNames[k]) && MouseNames[k][..4] == "ago1"
    ensures MouseNames[0][4] == '3' && MouseNames[1][4] == '5' && MouseNames[2][4] == '6' && MouseNames[3][4] == '8'
  {}

  /** The behaviour and motor sessions are sessions of _BMI_STIM_AGO. */
  lemma SessionsAmongStimAgo()
    ensures BehaviorD13 == MotorInitialD13 == BmiStimAgoD13[..1] && MotorBeforeBmiD13 == BmiStimAgoD13[..2]
    ensures BehaviorD15 == MotorInitialD15 == BmiStimAgoD15[..1] && MotorBeforeBmiD15 == BmiStimAgoD15[..2]
    ensures BehaviorD16 == MotorInitialD16 == BmiStimAgoD16[..1] && MotorBeforeBmiD16 == BmiStimAgoD16[..2]
    ensures BehaviorD18 == MotorInitialD18 == BmiStimAgoD18[..1] && MotorBeforeBmiD18 == BmiStimAgoD18[..2]
  {}
}
