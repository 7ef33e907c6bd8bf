/**
 * `get_all_sessions`: the registry of every BMI session. The four BMI
 * tables are flattened, each path is tagged with its category label, the
 * four tagged lists are concatenated and the result is sorted by path.
 */
module Registry {
  import opened PyStrings
  import opened Taxonomy

  /** One row of the registry frame: the path (its index) and its `experiment_type`. */
  datatype Row = Row(path: string, experimentType: string)

  const StimAgoLabel: string := "BMI_STIM_AGO"
  const RandomLabel: string := "BMI_CONTROL_RANDOM"
  const LightLabel: string := "BMI_CONTROL_LIGHT"
  const AgoLabel: string := "BMI_CONTROL_AGO"

  /** A frame indexed by `paths` whose `experiment_type` column is `category` throughout. */
  function Tag(paths: seq<string>, category: string): (rows: seq<Row>)
    ensures Paths(rows) == paths
    ensures forall i | 0 <= i < |rows| :: rows[i].experimentType == category
  {
    if |paths| == 0 then [] else [Row(paths[0], category)] + Tag(paths[1..], category)
  }

  function Paths(rows: seq<Row>): (paths: seq<string>)
    ensures |paths| == |rows|
    ensures forall i | 0 <= i < |rows| :: paths[i] == rows[i].path
  {
    if |rows| == 0 then [] else [rows[0].path] + Paths(rows[1..])
  }

  /**
   * The frame before sorting: the four categories in the order they are
   * concatenated. The tables are parameters so that the properties below
   * are proved for any contents; `AllSessions` applies it to the fixed ones.
   */
  function Concatenated(stimAgo: Table, random: Table, stim: Table, ago: Table): seq<Row>
  {
    Tag(Flatten(stimAgo), StimAgoLabel) + Tag(Flatten(random), RandomLabel)
    + (Tag(Flatten(stim), LightLabel) + Tag(Flatten(ago), AgoLabel))
  }

  /** Ascending by path in Python's string order. */
  predicate SortedByPath(rows: seq<Row>)
  {
    forall i, j | 0 <= i < j < |rows| :: LexLe(rows[i].path, rows[j].path)
  }

  predicate DistinctPaths(rows: seq<Row>)
  {
    forall i, j | 0 <= i < j < |rows| :: rows[i].path != rows[j].path
  }

  lemma DistinctIndex(rows: seq<Row>)
    requires Distinct(Paths(rows))
    ensures DistinctPaths(rows)
  {
    var paths := Paths(rows);
    forall i, j | 0 <= i < j < |rows|
      ensures rows[i].path != rows[j].path
    {
      assert paths[i] != paths[j];
    }
  }

  /** Places `r` before the first row whose path is not smaller than its own. */
  function Insert(r: Row, rows: seq<Row>): seq<Row>
  {
    if |rows| == 0 then [r]
    else if LexLe(r.path, rows[0].path) then [r] + rows
    else [rows[0]] + Insert(r, rows[1..])
  }

  /** Every row of `rows` has a path no smaller than `x`. */
  predicate LowerBound(x: string, rows: seq<Row>)
  {
    forall j | 0 <= j < |rows| :: LexLe(x, rows[j].path)
  }

  lemma {:induction false} InsertLowerBound(x: string, r: Row, rows: seq<Row>)
    requires LowerBound(x, rows) && LexLe(x, r.path)
    ensures LowerBound(x, Insert(r, rows))
  {
    if |rows| > 0 && !LexLe(r.path, rows[0].path) {
      InsertLowerBound(x, r, rows[1..]);
    }
  }

  /** Inserting adds exactly `r`. */
  lemma {:induction false} InsertMultiset(r: Row, rows: seq<Row>)
    ensures multiset(Insert(r, rows)) == multiset(rows) + multiset{r}
  {
    if |rows| > 0 && !LexLe(r.path, rows[0].path) {
      InsertMultiset(r, rows[1..]);
      assert rows == [rows[0]] + rows[1..];
    }
  }

  lemma {:induction false} InsertPaths(r: Row, rows: seq<Row>)
    ensures multiset(Paths(Insert(r, rows))) == multiset(Paths(rows)) + multiset{r.path}
  {
    if |rows| > 0 && !LexLe(r.path, rows[0].path) {
      InsertPaths(r, rows[1..]);
      assert Paths(rows) == [rows[0].path] + Paths(rows[1..]);
      assert Paths(Insert(r, rows)) == [rows[0].path] + Paths(Insert(r, rows[1..]));
    } else {
      assert Paths(Insert(r, rows)) == [r.path] + Paths(rows);
    }
  }

  /** Inserting into an ordered frame keeps it ordered. */
  lemma {:induction false} InsertSorted(r: Row, rows: seq<Row>)
    requires SortedByPath(rows)
    ensures SortedByPath(Insert(r, rows))
  {
    if |rows| == 0 {
    } else if LexLe(r.path, rows[0].path) {
      forall j | 0 <= j < |rows|
        ensures LexLe(r.path, rows[j].path)
      {
        if j > 0 {
          LexLeTransitive(r.path, rows[0].path, rows[j].path);
        }
      }
    } else {
      InsertSorted(r, rows[1..]);
      LexLeTotal(r.path, rows[0].path);
      assert LowerBound(rows[0].path, rows[1..]);
      InsertLowerBound(rows[0].path, r, rows[1..]);
    }
  }

  /** `sort_index()`: the rows ordered by path. */
  function SortByPath(rows: seq<Row>): seq<Row>
  {
    if |rows| == 0 then [] else Insert(rows[0], SortByPath(rows[1..]))
  }

  /** Sorting orders the rows. */
  lemma {:induction false} SortByPathSorted(rows: seq<Row>)
    ensures SortedByPath(SortByPath(rows))
  {
    if |rows| > 0 {
      SortByPathSorted(rows[1..]);
      InsertSorted(rows[0], SortByPath(rows[1..]));
    }
  }

  /** Sorting neither adds nor loses a row. */
  lemma {:induction false} SortByPathMultiset(rows: seq<Row>)
    ensures multiset(SortByPath(rows)) == multiset(rows)
  {
    if |rows| > 0 {
      SortByPathMultiset(rows[1..]);
      InsertMultiset(rows[0], SortByPath(rows[1..]));
      assert rows == [rows[0]] + rows[1..];
    }
  }

  lemma {:induction false} SortByPathPaths(rows: seq<Row>)
    ensures multiset(Paths(SortByPath(rows))) == multiset(Paths(rows))
  {
    if |rows| > 0 {
      SortByPathPaths(rows[1..]);
      InsertPaths(rows[0], SortByPath(rows[1..]));
      assert Paths(rows) == [rows[0].path] + Paths(rows[1..]);
    }
  }

  lemma {:induction false} PathsConcat(a: seq<Row>, b: seq<Row>)
    ensures Paths(a + b) == Paths(a) + Paths(b)
  {
    if |a| > 0 {
      assert (a + b)[1..] == a[1..] + b;
      PathsConcat(a[1..], b);
    }
  }

  /** The index of the concatenated frame is the four tables' paths, in order. */
  lemma ConcatenatedPaths(stimAgo: Table, random: Table, stim: Table, ago: Table)
    ensures Paths(Concatenated(stimAgo, random, stim, ago))
         == Flatten(stimAgo) + Flatten(random) + (Flatten(stim) + Flatten(ago))
  {
    var a, r := Tag(Flatten(stimAgo), StimAgoLabel), Tag(Flatten(random), RandomLabel);
    var s, g := Tag(Flatten(stim), LightLabel), Tag(Flatten(ago), AgoLabel);
    PathsConcat(a, r);
    PathsConcat(s, g);
    PathsConcat(a + r, s + g);
  }

  /** The registry: the concatenated frame sorted by path. */
  function Registry(stimAgo: Table, random: Table, stim: Table, ago: Table): (rows: seq<Row>)
    ensures SortedByPath(rows)
    ensures multiset(rows) == multiset(Concatenated(stimAgo, random, stim, ago))
  {
    SortByPathSorted(Concatenated(stimAgo, random, stim, ago));
    SortByPathMultiset(Concatenated(stimAgo, random, stim, ago));
    SortByPath(Concatenated(stimAgo, random, stim, ago))
  }

  /** The registry's index holds the four tables' paths, each as often as the tables list it. */
  lemma RegistryPaths(stimAgo: Table, random: Table, stim: Table, ago: Table)
    ensures multiset(Paths(Registry(stimAgo, random, stim, ago)))
         == multiset(Flatten(stimAgo) + Flatten(random) + (Flatten(stim) + Flatten(ago)))
  {
    ConcatenatedPaths(stimAgo, random, stim, ago);
    SortByPathPaths(Concatenated(stimAgo, random, stim, ago));
  }

  /** The frame `get_all_sessions` returns. */
  function AllSessions(): seq<Row>
  {
    Registry(BmiStimAgo, BmiRandom, BmiStim, BmiAgo)
  }

  /** Of two ordered frames with the same rows and no repeated path, the first rows agree. */
  lemma SortedHeads(a: seq<Row>, b: seq<Row>)
    requires |a| > 0 && |b| > 0
    requires SortedByPath(a) && SortedByPath(b)
    requires multiset(a) == multiset(b)
    requires DistinctPaths(a)
    ensures a[0] == b[0]
  {
    assert a[0] in multiset(b) && b[0] in multiset(a);
    var i :| 0 <= i < |a| && a[i] == b[0];
    var j :| 0 <= j < |b| && b[j] == a[0];
    assert LexLe(b[0].path, a[0].path) by {
      if j == 0 {
        LexLeReflexive(b[0].path);
      }
    }
    assert LexLe(a[0].path, b[0].path) by {
      if i == 0 {
        LexLeReflexive(a[0].path);
      }
    }
    LexLeAntisymmetric(a[0].path, b[0].path);
    assert a[i].path == a[0].path;
  }

  lemma MultisetTail(a: seq<Row>)
    requires |a| > 0
    ensures multiset(a[1..]) == multiset(a) - multiset{a[0]}
  {
    assert a == [a[0]] + a[1..];
  }

  /** Two ordered frames with the same rows and no repeated path are the same frame: the order does not depend on the sorting algorithm. */
  lemma {:induction false} SortedUnique(a: seq<Row>, b: seq<Row>)
    requires SortedByPath(a) && SortedByPath(b)
    requires multiset(a) == multiset(b)
    requires DistinctPaths(a)
    ensures a == b
    decreases |a|
  {
    assert |a| == |multiset(a)| == |multiset(b)| == |b|;
    if |a| > 0 {
      SortedHeads(a, b);
      MultisetTail(a);
      MultisetTail(b);
      SortedUnique(a[1..], b[1..]);
    }
  }

  /** `Row(p, c)` is in the registry exactly when `p` is listed in the table labelled `c`. */
  lemma RegistryCategories(stimAgo: Table, random: Table, stim: Table, ago: Table, p: string, c: string)
    ensures Row(p, c) in Registry(stimAgo, random, stim, ago) <==>
      || (c == StimAgoLabel && p in Flatten(stimAgo))
      || (c == RandomLabel && p in Flatten(random))
      || (c == LightLabel && p in Flatten(stim))
      || (c == AgoLabel && p in Flatten(ago))
  {
    var a, r := Tag(Flatten(stimAgo), StimAgoLabel), Tag(Flatten(random), RandomLabel);
    var s, g := Tag(Flatten(stim), LightLabel), Tag(Flatten(ago), AgoLabel);
    var x := Row(p, c);
    assert Concatenated(stimAgo, random, stim, ago) == a + r + (s + g);
    assert x in Registry(stimAgo, random, stim, ago) <==> x in multiset(a + r + (s + g));
    assert x in a + r + (s + g) <==> x in a || x in r || x in s || x in g;
    TagMember(p, c, Flatten(stimAgo), StimAgoLabel);
    TagMember(p, c, Flatten(random), RandomLabel);
    TagMember(p, c, Flatten(stim), LightLabel);
    TagMember(p, c, Flatten(ago), AgoLabel);
  }

  lemma {:induction false} TagMember(p: string, c: string, paths: seq<string>, category: string)
    ensures Row(p, c) in Tag(paths, category) <==> c == category && p in paths
  {
    var rows := Tag(paths, category);
    if Row(p, c) in rows {
      var i :| 0 <= i < |rows| && rows[i] == Row(p, c);
      assert paths[i] == p;
    }
    if c == category && p in paths {
      var i :| 0 <= i < |paths| && paths[i] == p;
      assert rows[i].path == p && rows[i].experimentType == c;
    }
  }

  /** The registry holds one row per path of the four tables. */
  lemma RegistrySize(stimAgo: Table, random: Table, stim: Table, ago: Table)
    ensures |Registry(stimAgo, random, stim, ago)| == |Flatten(stimAgo)| + |Flatten(random)| + |Flatten(stim)| + |Flatten(ago)|
  {
    var rows := Registry(stimAgo, random, stim, ago);
    var cat := Concatenated(stimAgo, random, stim, ago);
    assert |rows| == |multiset(rows)| == |multiset(cat)| == |cat|;
  }

  /** `np.where(df["index"] == p)[0][0]`: the first row whose path is `p`, or -1 when there is none. */
  function IndexOf(rows: seq<Row>, p: string): (k: int)
    ensures -1 <= k < |rows|
    ensures k == -1 <==> p !in Paths(rows)
    ensures k >= 0 ==> rows[k].path == p && forall i | 0 <= i < k :: rows[i].path != p
  {
    if |rows| == 0 then -1
    else if rows[0].path == p then 0
    else
      var k := IndexOf(rows[1..], p);
      assert Paths(rows) == [rows[0].path] + Paths(rows[1..]);
      if k < 0 then -1 else k + 1
  }

  /** `df.iloc[loc - 1]`: the row before `loc`, where -1 wraps round to the last row. */
  function PrevRow(rows: seq<Row>, loc: nat): Row
    requires loc < |rows|
  {
    if loc == 0 then rows[|rows| - 1] else rows[loc - 1]
  }
}
