/**
 * What the fixed tables guarantee to the code that reads them: the
 * registry lists every path once, its first row is a first session
 * (so the wrap-around of `iloc[-1]` is never taken), and every path
 * the catalogue looks up is registered and splits into three parts.
 */
module StaticFacts {
  import opened PyStrings
  import opened Taxonomy
  import opened Registry

  lemma FlattenStimAgo()
    ensures Flatten(BmiStimAgo) == BmiStimAgoD13 + (BmiStimAgoD15 + (BmiStimAgoD16 + BmiStimAgoD18))
  {
    FlattenFour(BmiStimAgo);
  }

  lemma FlattenRandom()
    ensures Flatten(BmiRandom) == BmiRandomD13 + (BmiRandomD15 + (BmiRandomD16 + BmiRandomD18))
  {
    FlattenFour(BmiRandom);
  }

  lemma FlattenStim()
    ensures Flatten(BmiStim) == BmiStimD13 + (BmiStimD15 + (BmiStimD16 + BmiStimD18))
  {
    FlattenFour(BmiStim);
  }

  lemma FlattenAgo()
    ensures Flatten(BmiAgo) == BmiAgoD13 + (BmiAgoD15 + (BmiAgoD16 + BmiAgoD18))
  {
    FlattenFour(BmiAgo);
  }

  /** Regrouping sixteen lists table by table into lists mouse by mouse keeps every element's count. */
  lemma Regroup(a1: seq<string>, a2: seq<string>, a3: seq<string>, a4: seq<string>,
                r1: seq<string>, r2: seq<string>, r3: seq<string>, r4: seq<string>,
                s1: seq<string>, s2: seq<string>, s3: seq<string>, s4: seq<string>,
                g1: seq<string>, g2: seq<string>, g3: seq<string>, g4: seq<string>)
    ensures multiset((a1 + (a2 + (a3 + a4))) + (r1 + (r2 + (r3 + r4))) + ((s1 + (s2 + (s3 + s4))) + (g1 + (g2 + (g3 + g4)))))
         == multiset(a1 + r1 + s1 + g1) + multiset(a2 + r2 + s2 + g2) + multiset(a3 + r3 + s3 + g3) + multiset(a4 + r4 + s4 + g4)
  {
  }

  /** The registry's paths, regrouped mouse by mouse. */
  lemma RegistryGroups()
    ensures multiset(Paths(AllSessions())) == multiset(Group13) + multiset(Group15) + multiset(Group16) + multiset(Group18)
  {
    RegistryPaths(BmiStimAgo, BmiRandom, BmiStim, BmiAgo);
    FlattenStimAgo();
    FlattenRandom();
    FlattenStim();
    FlattenAgo();
    Regroup(BmiStimAgoD13, BmiStimAgoD15, BmiStimAgoD16, BmiStimAgoD18,
            BmiRandomD13, BmiRandomD15, BmiRandomD16, BmiRandomD18,
            BmiStimD13, BmiStimD15, BmiStimD16, BmiStimD18,
            BmiAgoD13, BmiAgoD15, BmiAgoD16, BmiAgoD18);
  }

  /** A path belongs to the group of at most one mouse: the groups' paths begin with different names. */
  lemma GroupsApart(x: string)
    ensures x in Group13 ==> x !in Group15 && x !in Group16 && x !in Group18
    ensures x in Group15 ==> x !in Group16 && x !in Group18
    ensures x in Group16 ==> x !in Group18
  {
    G13Mouse();
    G15Mouse();
    G16Mouse();
    G18Mouse();
  }

  /** No element is in two of the four lists. */
  predicate Disjoint4(g1: seq<string>, g2: seq<string>, g3: seq<string>, g4: seq<string>)
  {
    && (forall x | x in g1 :: x !in g2 && x !in g3 && x !in g4)
    && (forall x | x in g2 :: x !in g3 && x !in g4)
    && (forall x | x in g3 :: x !in g4)
  }

  lemma GroupsDisjoint()
    ensures Disjoint4(Group13, Group15, Group16, Group18)
  {
    forall x
      ensures x in Group13 ==> x !in Group15 && x !in Group16 && x !in Group18
      ensures x in Group15 ==> x !in Group16 && x !in Group18
      ensures x in Group16 ==> x !in Group18
    {
      GroupsApart(x);
    }
  }

  /** A list made of four pairwise disjoint lists without repetitions has no repetitions. */
  lemma DistinctUnion(paths: seq<string>, g1: seq<string>, g2: seq<string>, g3: seq<string>, g4: seq<string>)
    requires multiset(paths) == multiset(g1) + multiset(g2) + multiset(g3) + multiset(g4)
    requires Distinct(g1) && Distinct(g2) && Distinct(g3) && Distinct(g4)
    requires Disjoint4(g1, g2, g3, g4)
    ensures Distinct(paths)
  {
    DistinctCount(g1);
    DistinctCount(g2);
    DistinctCount(g3);
    DistinctCount(g4);
    forall x
      ensures multiset(paths)[x] <= 1
    {
      assert multiset(paths)[x] == multiset(g1)[x] + multiset(g2)[x] + multiset(g3)[x] + multiset(g4)[x];
      assert multiset(g1)[x] <= 1 && multiset(g2)[x] <= 1 && multiset(g3)[x] <= 1 && multiset(g4)[x] <= 1;
      if x in g1 {
        assert x !in multiset(g2) && x !in multiset(g3) && x !in multiset(g4);
      } else if x in g2 {
        assert x !in multiset(g1) && x !in multiset(g3) && x !in multiset(g4);
      } else if x in g3 {
        assert x !in multiset(g1) && x !in multiset(g2) && x !in multiset(g4);
      } else {
        assert x !in multiset(g1) && x !in multiset(g2) && x !in multiset(g3);
      }
    }
    DistinctCount(paths);
  }

  /** No path is listed twice across _BMI_STIM_AGO, _BMI_RANDOM, _BMI_STIM and _BMI_AGO. */
  lemma RegistryDistinct()
    ensures DistinctPaths(AllSessions())
  {
    RegistryGroups();
    G13Distinct();
    G15Distinct();
    G16Distinct();
    G18Distinct();
    GroupsDisjoint();
    var rows := AllSessions();
    DistinctUnion(Paths(rows), Group13, Group15, Group16, Group18);
    DistinctIndex(rows);
  }

  // --- every path has the layout mouse/date/day -------------------------

  /** Every path of the list has the three-part layout. */
  predicate LaidOut(g: seq<string>)
  {
    forall i | 0 <= i < |g| :: SessionPathLayout(g[i])
  }

  lemma LaidOutConcat(a: seq<string>, b: seq<string>)
    ensures LaidOut(a + b) <==> LaidOut(a) && LaidOut(b)
  {
    if LaidOut(a + b) {
      forall i | 0 <= i < |a|
        ensures SessionPathLayout(a[i])
      {
        assert a[i] == (a + b)[i];
      }
      forall i | 0 <= i < |b|
        ensures SessionPathLayout(b[i])
      {
        assert b[i] == (a + b)[|a| + i];
      }
    }
  }

  lemma LaidOutPrefix(a: seq<string>, n: nat)
    requires n <= |a| && LaidOut(a)
    ensures LaidOut(a[..n])
  {
  }

  lemma Group13LaidOut() ensures LaidOut(Group13) { G13Mouse(); G13Date(); G13Day(); MouseNamesChecked(); GroupLayout(Group13, "ago13"); }
  lemma Group15LaidOut() ensures LaidOut(Group15) { G15Mouse(); G15Date(); G15Day(); MouseNamesChecked(); GroupLayout(Group15, "ago15"); }
  lemma Group16LaidOut() ensures LaidOut(Group16) { G16Mouse(); G16Date(); G16Day(); MouseNamesChecked(); GroupLayout(Group16, "ago16"); }
  lemma Group18LaidOut() ensures LaidOut(Group18) { G18Mouse(); G18Date(); G18Day(); MouseNamesChecked(); GroupLayout(Group18, "ago18"); }

  /** Splits a group's layout fact into the facts for the four tables' entries it is made of. */
  lemma GroupParts(a: seq<string>, r: seq<string>, s: seq<string>, g: seq<string>)
    requires LaidOut(a + r + s + g)
    ensures LaidOut(a) && LaidOut(r) && LaidOut(s) && LaidOut(g)
  {
    LaidOutConcat(a + r + s, g);
    LaidOutConcat(a + r, s);
    LaidOutConcat(a, r);
  }

  lemma FourLaidOut(l1: seq<string>, l2: seq<string>, l3: seq<string>, l4: seq<string>)
    requires LaidOut(l1) && LaidOut(l2) && LaidOut(l3) && LaidOut(l4)
    ensures LaidOut(l1 + (l2 + (l3 + l4)))
  {
    LaidOutConcat(l3, l4);
    LaidOutConcat(l2, l3 + l4);
    LaidOutConcat(l1, l2 + (l3 + l4));
  }

  /** Every path of the five tables `get_sessions_df` reads splits on '/' into three parts. */
  lemma BmiTablesLaidOut()
    ensures LaidOut(Flatten(BmiStimAgo)) && LaidOut(Flatten(BmiRandom))
    ensures LaidOut(Flatten(BmiStim)) && LaidOut(Flatten(BmiAgo))
  {
    Group13LaidOut();
    Group15LaidOut();
    Group16LaidOut();
    Group18LaidOut();
    GroupParts(BmiStimAgoD13, BmiRandomD13, BmiStimD13, BmiAgoD13);
    GroupParts(BmiStimAgoD15, BmiRandomD15, BmiStimD15, BmiAgoD15);
    GroupParts(BmiStimAgoD16, BmiRandomD16, BmiStimD16, BmiAgoD16);
    GroupParts(BmiStimAgoD18, BmiRandomD18, BmiStimD18, BmiAgoD18);
    FlattenStimAgo();
    FlattenRandom();
    FlattenStim();
    FlattenAgo();
    FourLaidOut(BmiStimAgoD13, BmiStimAgoD15, BmiStimAgoD16, BmiStimAgoD18);
    FourLaidOut(BmiRandomD13, BmiRandomD15, BmiRandomD16, BmiRandomD18);
    FourLaidOut(BmiStimD13, BmiStimD15, BmiStimD16, BmiStimD18);
    FourLaidOut(BmiAgoD13, BmiAgoD15, BmiAgoD16, BmiAgoD18);
  }

  lemma FlattenBehavior()
    ensures Flatten(Behavior) == BehaviorD13 + (BehaviorD15 + (BehaviorD16 + BehaviorD18))
  {
    FlattenFour(Behavior);
  }

  lemma FlattenMotorBeforeBmi()
    ensures Flatten(MotorBeforeBmi) == MotorBeforeBmiD13 + (MotorBeforeBmiD15 + (MotorBeforeBmiD16 + MotorBeforeBmiD18))
  {
    FlattenFour(MotorBeforeBmi);
  }

  lemma FlattenMotorInitial()
    ensures Flatten(MotorInitial) == MotorInitialD13 + (MotorInitialD15 + (MotorInitialD16 + MotorInitialD18))
  {
    FlattenFour(MotorInitial);
  }

  /** The behaviour table and the two motor tables re-list sessions of _BMI_STIM_AGO, so they share its layout. */
  lemma OtherTablesLaidOut()
    ensures LaidOut(Flatten(Behavior)) && LaidOut(Flatten(MotorBeforeBmi)) && LaidOut(Flatten(MotorInitial))
  {
    Group13LaidOut();
    Group15LaidOut();
    Group16LaidOut();
    Group18LaidOut();
    GroupParts(BmiStimAgoD13, BmiRandomD13, BmiStimD13, BmiAgoD13);
    GroupParts(BmiStimAgoD15, BmiRandomD15, BmiStimD15, BmiAgoD15);
    GroupParts(BmiStimAgoD16, BmiRandomD16, BmiStimD16, BmiAgoD16);
    GroupParts(BmiStimAgoD18, BmiRandomD18, BmiStimD18, BmiAgoD18);
    SessionsAmongStimAgo();
    LaidOutPrefix(BmiStimAgoD13, 1);
    LaidOutPrefix(BmiStimAgoD15, 1);
    LaidOutPrefix(BmiStimAgoD16, 1);
    LaidOutPrefix(BmiStimAgoD18, 1);
    LaidOutPrefix(BmiStimAgoD13, 2);
    LaidOutPrefix(BmiStimAgoD15, 2);
    LaidOutPrefix(BmiStimAgoD16, 2);
    LaidOutPrefix(BmiStimAgoD18, 2);
    FlattenBehavior();
    FlattenMotorBeforeBmi();
    FlattenMotorInitial();
    FourLaidOut(BehaviorD13, BehaviorD15, BehaviorD16, BehaviorD18);
    FourLaidOut(MotorBeforeBmiD13, MotorBeforeBmiD15, MotorBeforeBmiD16, MotorBeforeBmiD18);
    FourLaidOut(MotorInitialD13, MotorInitialD15, MotorInitialD16, MotorInitialD18);
  }

  // --- the registry's first row -----------------------------------------

  /** `p` is the first session or sorts after it. */
  predicate NotBeforeFirst(p: string)
  {
    p == FirstSession || LexLt(FirstSession, p)
  }

  /** Every path of the list is the first session or sorts after it. */
  predicate AfterFirst(g: seq<string>)
  {
    forall i | 0 <= i < |g| :: NotBeforeFirst(g[i])
  }

  /** The paths of a mouse numbered above 13 sort after every ago13 path: they differ first at the fifth character. */
  lemma AfterFirstByMouse(g: seq<string>, mouse: string)
    requires |mouse| == 5 && mouse[..4] == "ago1" && mouse[4] > '3'
    requires forall i | 0 <= i < |g| :: StartsWith(g[i], mouse + "/")
    ensures AfterFirst(g)
  {
    forall i | 0 <= i < |g|
      ensures LexLt(FirstSession, g[i])
    {
      var p := g[i];
      assert p[..6] == mouse + "/";
      assert p[..4] == p[..6][..4] == (mouse + "/")[..4] == mouse[..4];
      assert p[4] == p[..6][4] == (mouse + "/")[4] == mouse[4];
      assert FirstSession[..4] == "ago1" && FirstSession[4] == '3';
      LexLtAt(FirstSession, p, 4);
    }
  }

  /** The other ago13 paths have later dates: they differ from the first session first at the date's last digit. */
  lemma Group13AfterFirst()
    ensures AfterFirst(Group13)
  {
    G13AfterFirst();
    assert FirstSession[..11] == "ago13/22111" && FirstSession[11] == '2';
    forall i | 0 <= i < |Group13| && Group13[i] != FirstSession
      ensures LexLt(FirstSession, Group13[i])
    {
      LexLtAt(FirstSession, Group13[i], 11);
    }
  }

  lemma Group15AfterFirst() ensures AfterFirst(Group15) { MouseNamesChecked(); G15Mouse(); AfterFirstByMouse(Group15, "ago15"); }
  lemma Group16AfterFirst() ensures AfterFirst(Group16) { MouseNamesChecked(); G16Mouse(); AfterFirstByMouse(Group16, "ago16"); }
  lemma Group18AfterFirst() ensures AfterFirst(Group18) { MouseNamesChecked(); G18Mouse(); AfterFirstByMouse(Group18, "ago18"); }

  lemma AfterFirstAll(p: string, g1: seq<string>, g2: seq<string>, g3: seq<string>, g4: seq<string>)
    requires AfterFirst(g1) && AfterFirst(g2) && AfterFirst(g3) && AfterFirst(g4)
    requires p in multiset(g1) + multiset(g2) + multiset(g3) + multiset(g4)
    ensures NotBeforeFirst(p)
  {
    if p in g1 {
      var i :| 0 <= i < |g1| && g1[i] == p;
    } else if p in g2 {
      var i :| 0 <= i < |g2| && g2[i] == p;
    } else if p in g3 {
      var i :| 0 <= i < |g3| && g3[i] == p;
    } else {
      var i :| 0 <= i < |g4| && g4[i] == p;
    }
  }

  /** A registered path is a path of one of the four mouse groups. */
  lemma RegisteredInGroups(p: string)
    requires p in Paths(AllSessions())
    ensures p in multiset(Group13) + multiset(Group15) + multiset(Group16) + multiset(Group18)
  {
    RegistryGroups();
  }

  lemma GroupMemberNotBeforeFirst(p: string)
    requires p in multiset(Group13) + multiset(Group15) + multiset(Group16) + multiset(Group18)
    ensures NotBeforeFirst(p)
  {
    Group13AfterFirst();
    Group15AfterFirst();
    Group16AfterFirst();
    Group18AfterFirst();
    AfterFirstAll(p, Group13, Group15, Group16, Group18);
  }

  /** Every registered path other than "ago13/221112/D01" sorts after it. */
  lemma FirstSessionSmallest(p: string)
    requires p in Paths(AllSessions())
    ensures NotBeforeFirst(p)
  {
    RegisteredInGroups(p);
    GroupMemberNotBeforeFirst(p);
  }

  /** The first session is listed only in _BMI_STIM. */
  lemma FirstSessionOnlyInStim()
    ensures FirstSession in Flatten(BmiStim)
    ensures FirstSession !in Flatten(BmiStimAgo) && FirstSession !in Flatten(BmiRandom) && FirstSession !in Flatten(BmiAgo)
  {
    FlattenStimAgo();
    FlattenRandom();
    FlattenStim();
    FlattenAgo();
    G13Distinct();
    assert Group13[|BmiStimAgoD13| + |BmiRandomD13|] == FirstSession;
    GroupsApart(FirstSession);
  }

  /** The registry's first row is "ago13/221112/D01", a BMI_CONTROL_LIGHT session. */
  lemma FirstRow()
    ensures |AllSessions()| > 0 && AllSessions()[0] == Row(FirstSession, LightLabel)
  {
    var rows := AllSessions();
    FirstSessionOnlyInStim();
    RegistryCategories(BmiStimAgo, BmiRandom, BmiStim, BmiAgo, FirstSession, LightLabel);
    assert Row(FirstSession, LightLabel) in rows;
    var k :| 0 <= k < |rows| && rows[k] == Row(FirstSession, LightLabel);
    assert LexLe(rows[0].path, FirstSession) by {
      if k == 0 {
        LexLeReflexive(FirstSession);
      }
    }
    assert rows[0].path in Paths(rows);
    FirstSessionSmallest(rows[0].path);
    if rows[0].path != FirstSession {
      LexLeAntisymmetric(rows[0].path, FirstSession);
    }
    RegistryCategories(BmiStimAgo, BmiRandom, BmiStim, BmiAgo, FirstSession, rows[0].experimentType);
  }

  // --- every looked-up path is registered -------------------------------

  /** Every element of `xs` is an element of `ys`. */
  predicate Within(xs: seq<string>, ys: seq<string>)
  {
    forall p | p in xs :: p in ys
  }

  lemma WithinPermutation(paths: seq<string>, f1: seq<string>, f2: seq<string>, f3: seq<string>, f4: seq<string>)
    requires multiset(paths) == multiset(f1 + f2 + (f3 + f4))
    ensures Within(f1, paths) && Within(f2, paths) && Within(f3, paths) && Within(f4, paths)
  {
    forall p | p in f1 + f2 + (f3 + f4)
      ensures p in paths
    {
      assert p in multiset(f1 + f2 + (f3 + f4));
    }
  }

  lemma WithinFour(l1: seq<string>, l2: seq<string>, l3: seq<string>, l4: seq<string>,
                   a1: seq<string>, a2: seq<string>, a3: seq<string>, a4: seq<string>)
    requires |a1| >= 1 && |a2| >= 1 && |a3| >= 1 && |a4| >= 1
    requires l1 == a1[..1] && l2 == a2[..1] && l3 == a3[..1] && l4 == a4[..1]
    ensures Within(l1 + (l2 + (l3 + l4)), a1 + (a2 + (a3 + a4)))
  {
  }

  lemma WithinTrans(xs: seq<string>, ys: seq<string>, zs: seq<string>)
    requires Within(xs, ys) && Within(ys, zs)
    ensures Within(xs, zs)
  {
  }

  /** Every path of the five tables `get_sessions_df` reads is a path of the registry. */
  lemma TablesRegistered()
    ensures Within(Flatten(BmiStimAgo), Paths(AllSessions()))
    ensures Within(Flatten(BmiRandom), Paths(AllSessions()))
    ensures Within(Flatten(BmiStim), Paths(AllSessions()))
    ensures Within(Flatten(BmiAgo), Paths(AllSessions()))
    ensures Within(Flatten(Behavior), Paths(AllSessions()))
  {
    var paths := Paths(AllSessions());
    RegistryPaths(BmiStimAgo, BmiRandom, BmiStim, BmiAgo);
    WithinPermutation(paths, Flatten(BmiStimAgo), Flatten(BmiRandom), Flatten(BmiStim), Flatten(BmiAgo));
    SessionsAmongStimAgo();
    FlattenBehavior();
    FlattenStimAgo();
    WithinFour(BehaviorD13, BehaviorD15, BehaviorD16, BehaviorD18, BmiStimAgoD13, BmiStimAgoD15, BmiStimAgoD16, BmiStimAgoD18);
    WithinTrans(Flatten(Behavior), Flatten(BmiStimAgo), paths);
  }

  /** Only the first session sits at index 0 of the registry, so the row before any other registered path is at index `loc - 1 >= 0`. */
  lemma NoWrapAround(p: string)
    requires p in Paths(AllSessions()) && p != FirstSession
    ensures IndexOf(AllSessions(), p) >= 1
  {
    FirstRow();
  }

  /** The registry has 49 rows. */
  lemma RegistryCount()
    ensures |AllSessions()| == 49
  {
    RegistrySize(BmiStimAgo, BmiRandom, BmiStim, BmiAgo);
    FlattenStimAgo();
    FlattenRandom();
    FlattenStim();
    FlattenAgo();
  }
}
