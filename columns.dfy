/**
 * What the catalogue can fail with, and the `defaultdict(list)` it
 * fills: a map from column name to the values appended to that column,
 * a missing column reading as the empty list.
 */
module Outcome {

  /** The exceptions the catalogue functions raise. */
  datatype Error =
    | UnknownExperimentType(name: string)   // ValueError: a category outside the accepted names
    | MalformedSessionPath(path: string)    // ValueError: the path does not split into three parts
    | SessionNotRegistered(path: string)    // IndexError: `np.where(...)[0][0]` on an empty match
    | MissingDirectory(dir: string)         // FileNotFoundError or NotADirectoryError from `os.listdir`
    | MalformedMotorFile(name: string)      // ValueError: the motor file name has the wrong number of '_' parts
    | RaggedColumns                         // ValueError from `pd.DataFrame`: columns of different lengths

  datatype Result<T> = Ok(value: T) | Err(error: Error)
  {
    predicate IsFailure() { Err? }

    function PropagateFailure<U>(): Result<U>
      requires Err?
    {
      Err(error)
    }

    function Extract(): T
      requires Ok?
    {
      value
    }
  }
}

module Columns {
  import opened Outcome

  /** A cell of the frame: a string, or the integer `day_index`. */
  datatype Value = Text(text: string) | Index(index: nat)

  /** One `ret[column].append(value)`. */
  datatype Append = Append(column: string, value: Value)

  type Columns = map<string, seq<Value>>

  /** The events a computation would perform, in order. */
  type Log = seq<Append>

  /** `ret[c]` of a `defaultdict(list)`: the values appended so far, none for a column never touched. */
  function Column(m: Columns, c: string): seq<Value>
  {
    if c in m then m[c] else []
  }

  /** `ret[c].append(v)`: `v` is added at the end of column `c`, which is created if missing; no other column changes. */
  function Push(m: Columns, c: string, v: Value): Columns
  {
    m[c := Column(m, c) + [v]]
  }

  lemma PushColumns(m: Columns, c: string, v: Value)
    ensures Column(Push(m, c, v), c) == Column(m, c) + [v]
    ensures forall d | d != c :: Column(Push(m, c, v), d) == Column(m, d)
    ensures Push(m, c, v).Keys == m.Keys + {c}
  {
  }

  /** Performs the appends of `log` in order. */
  function Accumulate(m: Columns, log: Log): Columns
    decreases |log|
  {
    if |log| == 0 then m else Accumulate(Push(m, log[0].column, log[0].value), log[1..])
  }

  lemma AccumulateOne(m: Columns, e: Append)
    ensures Accumulate(m, [e]) == Push(m, e.column, e.value)
  {
  }

  lemma AccumulateTwo(m: Columns, e1: Append, e2: Append)
    ensures Accumulate(m, [e1, e2]) == Push(Push(m, e1.column, e1.value), e2.column, e2.value)
  {
    assert [e1, e2][1..] == [e2];
    AccumulateOne(Push(m, e1.column, e1.value), e2);
  }

  /** Appending one more event is one more `Push` after the others. */
  lemma AccumulateSnoc(m: Columns, log: Log, e: Append)
    ensures Accumulate(m, log + [e]) == Push(Accumulate(m, log), e.column, e.value)
  {
    AccumulateConcat(m, log, [e]);
    AccumulateOne(Accumulate(m, log), e);
  }

  /** After the first `k` events of `e`, pushing event `k` gives the first `k + 1`. */
  lemma PushNext(m: Columns, e: Log, k: nat, cur: Columns)
    requires k < |e| && cur == Accumulate(m, e[..k])
    ensures Push(cur, e[k].column, e[k].value) == Accumulate(m, e[..k + 1])
  {
    assert e[..k + 1] == e[..k] + [e[k]];
    AccumulateSnoc(m, e[..k], e[k]);
  }

  /** The values `log` appends to column `c`, in order. */
  function Project(log: Log, c: string): seq<Value>
  {
    if |log| == 0 then []
    else (if log[0].column == c then [log[0].value] else []) + Project(log[1..], c)
  }

  /** After the appends of `log`, column `c` holds its old values followed by those `log` appends to it. */
  lemma {:induction false} AccumulateColumn(m: Columns, log: Log, c: string)
    ensures Column(Accumulate(m, log), c) == Column(m, c) + Project(log, c)
    decreases |log|
  {
    if |log| > 0 {
      AccumulateColumn(Push(m, log[0].column, log[0].value), log[1..], c);
    }
  }

  /** The columns present after the appends are the old ones and those `log` touches. */
  lemma {:induction false} AccumulateKeys(m: Columns, log: Log)
    ensures Accumulate(m, log).Keys == m.Keys + set i | 0 <= i < |log| :: log[i].column
    decreases |log|
  {
    if |log| > 0 {
      AccumulateKeys(Push(m, log[0].column, log[0].value), log[1..]);
      var rest := set i | 0 <= i < |log[1..]| :: log[1..][i].column;
      var all := set i | 0 <= i < |log| :: log[i].column;
      assert all == {log[0].column} + rest by {
        forall x | x in all
          ensures x in {log[0].column} + rest
        {
          var i :| 0 <= i < |log| && log[i].column == x;
          if i > 0 {
            assert log[1..][i - 1].column == x;
          }
        }
        forall x | x in rest
          ensures x in all
        {
          var i :| 0 <= i < |log[1..]| && log[1..][i].column == x;
          assert log[i + 1].column == x;
        }
      }
    }
  }

  lemma {:induction false} AccumulateConcat(m: Columns, a: Log, b: Log)
    ensures Accumulate(m, a + b) == Accumulate(Accumulate(m, a), b)
    decreases |a|
  {
    if |a| > 0 {
      assert (a + b)[0] == a[0] && (a + b)[1..] == a[1..] + b;
      AccumulateConcat(Push(m, a[0].column, a[0].value), a[1..], b);
    } else {
      assert a + b == b;
    }
  }

  lemma {:induction false} ProjectConcat(a: Log, b: Log, c: string)
    ensures Project(a + b, c) == Project(a, c) + Project(b, c)
  {
    if |a| > 0 {
      assert (a + b)[0] == a[0] && (a + b)[1..] == a[1..] + b;
      ProjectConcat(a[1..], b, c);
    } else {
      assert a + b == b;
    }
  }

  /** Runs `a`, then `b`: the first error stops, otherwise the events of both, in order. */
  function Then(a: Result<Log>, b: Result<Log>): (r: Result<Log>)
    ensures r.Ok? <==> a.Ok? && b.Ok?
    ensures a.Err? ==> r == a
    ensures a.Ok? && b.Err? ==> r == b
    ensures r.Ok? ==> r.value == a.value + b.value
  {
    if a.Err? then a else if b.Err? then b else Ok(a.value + b.value)
  }

  /** A `for` loop over `xs` whose body's events are `f(x)`, stopping at the first error. */
  function FoldLogs<T>(xs: seq<T>, f: T -> Result<Log>): Result<Log>
  {
    if |xs| == 0 then Ok([]) else Then(FoldLogs(xs[..|xs| - 1], f), f(xs[|xs| - 1]))
  }

  /** One more iteration of the loop. */
  lemma FoldLogsStep<T>(xs: seq<T>, i: nat, f: T -> Result<Log>)
    requires i < |xs|
    ensures FoldLogs(xs[..i + 1], f) == Then(FoldLogs(xs[..i], f), f(xs[i]))
  {
    assert xs[..i + 1][..i] == xs[..i];
  }

  /** Once an iteration fails, the whole loop fails with that error. */
  lemma {:induction false} FoldLogsStops<T>(xs: seq<T>, k: nat, f: T -> Result<Log>)
    requires k <= |xs| && FoldLogs(xs[..k], f).Err?
    ensures FoldLogs(xs, f) == FoldLogs(xs[..k], f)
    decreases |xs| - k
  {
    if k < |xs| {
      FoldLogsStep(xs, k, f);
      FoldLogsStops(xs, k + 1, f);
    } else {
      assert xs[..k] == xs;
    }
  }

  /** The loop succeeds exactly when every iteration does. */
  lemma {:induction false} FoldLogsOk<T>(xs: seq<T>, f: T -> Result<Log>)
    ensures FoldLogs(xs, f).Ok? <==> forall i | 0 <= i < |xs| :: f(xs[i]).Ok?
  {
    if |xs| > 0 {
      var init := xs[..|xs| - 1];
      FoldLogsOk(init, f);
      assert forall i | 0 <= i < |init| :: init[i] == xs[i];
    }
  }

  /** A loop fails only with an error some iteration fails with. */
  lemma {:induction false} FoldLogsErrors<T>(xs: seq<T>, f: T -> Result<Log>, allowed: Error -> bool)
    requires forall i | 0 <= i < |xs| :: f(xs[i]).Err? ==> allowed(f(xs[i]).error)
    ensures FoldLogs(xs, f).Err? ==> allowed(FoldLogs(xs, f).error)
  {
    if |xs| > 0 {
      var init := xs[..|xs| - 1];
      assert forall i | 0 <= i < |init| :: init[i] == xs[i];
      FoldLogsErrors(init, f, allowed);
    }
  }

  /** Every append of `log` goes to a column of `cs`. */
  predicate InColumns(log: Log, cs: set<string>)
  {
    forall i | 0 <= i < |log| :: log[i].column in cs
  }

  lemma {:induction false} ProjectOutside(log: Log, cs: set<string>, c: string)
    requires InColumns(log, cs) && c !in cs
    ensures Project(log, c) == []
  {
    if |log| > 0 {
      assert forall i | 0 <= i < |log[1..]| :: log[1..][i] == log[i + 1];
      ProjectOutside(log[1..], cs, c);
    }
  }

  lemma InColumnsConcat(a: Log, b: Log, cs: set<string>)
    ensures InColumns(a + b, cs) <==> InColumns(a, cs) && InColumns(b, cs)
  {
    if InColumns(a, cs) && InColumns(b, cs) {
      forall i | 0 <= i < |a + b|
        ensures (a + b)[i].column in cs
      {
        if i >= |a| {
          assert (a + b)[i] == b[i - |a|];
        }
      }
    }
    if InColumns(a + b, cs) {
      forall i | 0 <= i < |a|
        ensures a[i].column in cs
      {
        assert (a + b)[i] == a[i];
      }
      forall i | 0 <= i < |b|
        ensures b[i].column in cs
      {
        assert (a + b)[|a| + i] == b[i];
      }
    }
  }

  /** A successful loop appends only to columns its iterations append to. */
  lemma {:induction false} FoldLogsColumns<T>(xs: seq<T>, f: T -> Result<Log>, cs: set<string>)
    requires forall i | 0 <= i < |xs| :: f(xs[i]).Ok? ==> InColumns(f(xs[i]).value, cs)
    ensures FoldLogs(xs, f).Ok? ==> InColumns(FoldLogs(xs, f).value, cs)
  {
    if |xs| > 0 {
      var init := xs[..|xs| - 1];
      assert forall i | 0 <= i < |init| :: init[i] == xs[i];
      FoldLogsColumns(init, f, cs);
      if FoldLogs(xs, f).Ok? {
        InColumnsConcat(FoldLogs(init, f).value, f(xs[|xs| - 1]).value, cs);
      }
    }
  }

  /** `Concat(xs, g)`: the lists `g(x)` of the elements of `xs`, one after the other. */
  function Concat<T>(xs: seq<T>, g: T -> seq<Value>): seq<Value>
  {
    if |xs| == 0 then [] else Concat(xs[..|xs| - 1], g) + g(xs[|xs| - 1])
  }

  /** When each iteration appends `g(x)` to column `c`, a successful loop appends their concatenation. */
  lemma {:induction false} FoldLogsProject<T>(xs: seq<T>, f: T -> Result<Log>, c: string, g: T -> seq<Value>)
    requires FoldLogs(xs, f).Ok?
    requires forall i | 0 <= i < |xs| :: f(xs[i]).Ok? ==> Project(f(xs[i]).value, c) == g(xs[i])
    ensures Project(FoldLogs(xs, f).value, c) == Concat(xs, g)
  {
    if |xs| > 0 {
      var init, last := xs[..|xs| - 1], xs[|xs| - 1];
      assert forall i | 0 <= i < |init| :: init[i] == xs[i];
      FoldLogsProject(init, f, c, g);
      ProjectConcat(FoldLogs(init, f).value, f(last).value, c);
    }
  }

  /** The columns after running `r` from `m`, or the error that stopped it. */
  function Extend(m: Columns, r: Result<Log>): (out: Result<Columns>)
    ensures out.Ok? <==> r.Ok?
    ensures out.Err? ==> out.error == r.error
    ensures out.Ok? ==> forall c :: Column(out.value, c) == Column(m, c) + Project(r.value, c)
  {
    if r.Err? then Err(r.error)
    else
      assert forall c :: Column(Accumulate(m, r.value), c) == Column(m, c) + Project(r.value, c) by {
        forall c {
          AccumulateColumn(m, r.value, c);
        }
      }
      Ok(Accumulate(m, r.value))
  }

  /** Running `a` and then `b` from `m` is running `b` from where `a` left off. */
  lemma ExtendThen(m: Columns, a: Result<Log>, b: Result<Log>, cur: Columns)
    requires Extend(m, a) == Ok(cur)
    ensures Extend(m, Then(a, b)) == Extend(cur, b)
  {
    if b.Ok? {
      AccumulateConcat(m, a.value, b.value);
    }
  }

  /** One more iteration of a loop whose first `i` iterations took `m` to `cur`. */
  lemma LoopStep<T>(m: Columns, xs: seq<T>, i: nat, f: T -> Result<Log>, cur: Columns)
    requires i < |xs| && Extend(m, FoldLogs(xs[..i], f)) == Ok(cur)
    ensures Extend(m, FoldLogs(xs[..i + 1], f)) == Extend(cur, f(xs[i]))
  {
    FoldLogsStep(xs, i, f);
    ExtendThen(m, FoldLogs(xs[..i], f), f(xs[i]), cur);
  }

  /** A loop whose first `i` iterations failed fails with their error. */
  lemma LoopStops<T>(m: Columns, xs: seq<T>, i: nat, f: T -> Result<Log>)
    requires i <= |xs| && FoldLogs(xs[..i], f).Err?
    ensures Extend(m, FoldLogs(xs, f)) == Extend(m, FoldLogs(xs[..i], f))
  {
    FoldLogsStops(xs, i, f);
  }

  /** All columns have the same length, as `pd.DataFrame(ret)` demands. */
  predicate Rectangular(m: Columns)
  {
    forall c, d | c in m && d in m :: |m[c]| == |m[d]|
  }

  /** `pd.DataFrame(ret)`: the columns as a frame, or the error for columns of unequal length. */
  function Frame(m: Columns): (r: Result<Columns>)
    ensures r.Ok? <==> Rectangular(m)
    ensures r.Ok? ==> r.value == m
  {
    if Rectangular(m) then Ok(m) else Err(RaggedColumns)
  }

  /**
   * Rectangular columns built from `log` have only columns of `cs`, and
   * all have the length of column `anchor`.
   */
  lemma BuiltShape(log: Log, cs: set<string>, anchor: string, n: nat)
    requires InColumns(log, cs) && Rectangular(Accumulate(map[], log))
    requires |Project(log, anchor)| == n > 0
    ensures Accumulate(map[], log).Keys <= cs
    ensures forall c | c in Accumulate(map[], log) :: |Accumulate(map[], log)[c]| == n
  {
    var cols := Accumulate(map[], log);
    AccumulateKeys(map[], log);
    AccumulateColumn(map[], log, anchor);
    assert Column(cols, anchor) == Project(log, anchor);
    assert anchor in cols;
  }
}
