/**
 * What the optimizer's discovery and run lifecycle guarantee: every builder
 * carrying a prefix runs exactly once, nothing else is invoked, the steps
 * come in their fixed order, the objective is the sum of the terms in any
 * order, and result objects are asked for only after an optimal solve.
 */
module Lifecycle {
  import opened Optimizer

  // ------------------------------------------------------------------------
  // Discovery

  /** Discovery keeps exactly the names that carry the prefix. */
  lemma {:induction false} MatchingNames<C, V, K>(ms: seq<Member<C, V, K>>, prefix: string)
    ensures forall n :: n in Names(Matching(ms, prefix)) <==> n in Names(ms) && StartsWith(n, prefix)
  {
    if |ms| > 0 {
      var init := ms[..|ms| - 1];
      MatchingNames(init, prefix);
      assert Names(ms) == Names(init) + [ms[|ms| - 1].name];
      if StartsWith(ms[|ms| - 1].name, prefix) {
        assert Names(Matching(ms, prefix)) == Names(Matching(init, prefix)) + [ms[|ms| - 1].name];
      } else {
        assert Names(Matching(ms, prefix)) == Names(Matching(init, prefix));
      }
    }
  }

  /** A call of a name that discovery did not keep is not among its invocations. */
  lemma NotInvokedUnlessMatched<C, V, K>(ms: seq<Member<C, V, K>>, prefix: string, n: string)
    requires !(n in Names(ms) && StartsWith(n, prefix))
    ensures multiset(Invocations(Matching(ms, prefix)))[Call(n)] == 0
  {
    MatchingNames(ms, prefix);
    var bs := Matching(ms, prefix);
    forall k | 0 <= k < |bs|
      ensures Invocations(bs)[k] != Call(n)
    {
      assert Names(bs)[k] == bs[k].name;
    }
  }

  /** In a table of distinct names, one aggregation step invokes each matching member exactly once. */
  lemma {:induction false} MatchingInvokesOnce<C, V, K>(ms: seq<Member<C, V, K>>, prefix: string, j: nat)
    requires Distinct(Names(ms))
    requires j < |ms|
    ensures multiset(Invocations(Matching(ms, prefix)))[Call(ms[j].name)]
            == if StartsWith(ms[j].name, prefix) then 1 else 0
  {
    var k := |ms| - 1;
    var init := ms[..k];
    var last := ms[k];
    assert Names(init) == Names(ms)[..k];
    assert Distinct(Names(init));
    assert Invocations(Matching(ms, prefix))
        == Invocations(Matching(init, prefix)) + (if StartsWith(last.name, prefix) then [Call(last.name)] else []);
    if j == k {
      forall i | 0 <= i < k
        ensures Names(init)[i] != ms[j].name
      {
        assert Names(ms)[i] != Names(ms)[k];
      }
      NotInvokedUnlessMatched(init, prefix, ms[j].name);
    } else {
      assert init[j] == ms[j];
      MatchingInvokesOnce(init, prefix, j);
      assert Names(ms)[j] != Names(ms)[k];
    }
  }

  // ------------------------------------------------------------------------
  // The run trace

  /** The lifecycle steps in a trace, in the order they were called. */
  function LifecycleCalls(t: seq<Event>): seq<string>
  {
    if |t| == 0 then []
    else (if t[0].Call? && t[0].name in LifecycleSteps then [t[0].name] else []) + LifecycleCalls(t[1..])
  }

  lemma {:induction false} LifecycleCallsAppend(a: seq<Event>, b: seq<Event>)
    ensures LifecycleCalls(a + b) == LifecycleCalls(a) + LifecycleCalls(b)
  {
    if |a| > 0 {
      assert (a + b)[0] == a[0];
      assert (a + b)[1..] == a[1..] + b;
      LifecycleCallsAppend(a[1..], b);
    } else {
      assert a + b == b;
    }
  }

  /** A trace made only of builder invocations calls no lifecycle step. */
  lemma {:induction false} LifecycleCallsOfBuilders<C, V, K>(bs: seq<Member<C, V, K>>, prefix: string)
    requires prefix == VarPrefix || prefix == ObjectivePrefix || prefix == ConstraintsPrefix
    requires forall j :: 0 <= j < |bs| ==> StartsWith(bs[j].name, prefix)
    ensures LifecycleCalls(Invocations(bs)) == []
  {
    if |bs| > 0 {
      ReservedNamesAreNotBuilders();
      assert bs[0].name !in LifecycleSteps + AccessorNames;
      assert Invocations(bs)[1..] == Invocations(bs[1..]);
      LifecycleCallsOfBuilders(bs[1..], prefix);
    }
  }

  lemma LifecycleCallsOfLogs(lines: seq<LogLine>)
    ensures LifecycleCalls(Logs(lines)) == []
  {
    if |lines| > 0 {
      assert Logs(lines)[1..] == Logs(lines[1..]);
      LifecycleCallsOfLogs(lines[1..]);
    }
  }

  lemma ConstantsCalls(startTime: int)
    ensures LifecycleCalls(ConstantsTrace(startTime)) == ["set_constants"]
  {
    var cs := ConstantsTrace(startTime);
    assert cs == [ClockRead(startTime)] + ([Call("set_constants")] + [Logged(Info("Constants are set"))]);
    LifecycleCallsAppend([ClockRead(startTime)], [Call("set_constants")] + [Logged(Info("Constants are set"))]);
    LifecycleCallsAppend([Call("set_constants")], [Logged(Info("Constants are set"))]);
  }

  /** An aggregation step contributes exactly its own name to the lifecycle calls. */
  lemma StepCalls<C, V, K>(step: string, bs: seq<Member<C, V, K>>, prefix: string, line: string)
    requires step in LifecycleSteps
    requires prefix == VarPrefix || prefix == ObjectivePrefix || prefix == ConstraintsPrefix
    requires forall j :: 0 <= j < |bs| ==> StartsWith(bs[j].name, prefix)
    ensures LifecycleCalls(StepTrace(step, bs, line)) == [step]
  {
    LifecycleCallsOfBuilders(bs, prefix);
    LifecycleCallsAppend([Call(step)], Invocations(bs));
    LifecycleCallsAppend([Call(step)] + Invocations(bs), [Logged(Info(line))]);
  }

  lemma LifecycleCallsOfSteps<C, V, K>(ms: seq<Member<C, V, K>>, startTime: int)
    ensures LifecycleCalls(BuildTrace(ms, startTime))
            == ["set_constants", "set_decision_variables", "set_objective_function", "set_constraints"]
  {
    var cs := ConstantsTrace(startTime);
    var s1 := StepTrace("set_decision_variables", Matching(ms, VarPrefix), "Decision variables are set");
    var s2 := StepTrace("set_objective_function", Matching(ms, ObjectivePrefix), "Objective function is set");
    var s3 := StepTrace("set_constraints", Matching(ms, ConstraintsPrefix), "Constraints are set");
    ConstantsCalls(startTime);
    StepCalls("set_decision_variables", Matching(ms, VarPrefix), VarPrefix, "Decision variables are set");
    StepCalls("set_objective_function", Matching(ms, ObjectivePrefix), ObjectivePrefix, "Objective function is set");
    StepCalls("set_constraints", Matching(ms, ConstraintsPrefix), ConstraintsPrefix, "Constraints are set");
    LifecycleCallsAppend(cs, s1);
    LifecycleCallsAppend(cs + s1, s2);
    LifecycleCallsAppend(cs + s1 + s2, s3);
  }

  lemma SolveCalls(endTime: int)
    ensures LifecycleCalls(SolveTrace(endTime)) == ["solve"]
  {
    var tail := [Logged(Info("End solving problem.")), ClockRead(endTime)];
    LifecycleCallsAppend([Logged(Info("Start solving problem."))], [Call("solve")]);
    LifecycleCallsAppend([Logged(Info("Start solving problem."))] + [Call("solve")], tail);
    LifecycleCallsAppend([tail[0]], [tail[1]]);
    assert tail == [tail[0]] + [tail[1]];
  }

  lemma AccessorCallsAreNotSteps(isOpt: bool)
    ensures LifecycleCalls(AccessorCalls(isOpt)) == []
  {
    var opt: seq<Event> := if isOpt then [Call("make_result_objects")] else [];
    var tail := [Call("result_status"), Call("sol_objective")];
    LifecycleCallsAppend([Call("is_opt")], opt);
    LifecycleCallsAppend([Call("is_opt")] + opt, tail);
    LifecycleCallsAppend([tail[0]], [tail[1]]);
    assert tail == [tail[0]] + [tail[1]];
  }

  lemma ReportCalls<C, R>(r: OptimizedResult<C, R>)
    ensures LifecycleCalls(ReportTrace(r)) == ["make_result", "display_result_solve"]
  {
    var mr := MakeResultTrace(r.isOpt);
    var logs := Logs(r.DisplayResultSolve(r.DisplayResultDetail()));
    AccessorCallsAreNotSteps(r.isOpt);
    LifecycleCallsAppend([Call("make_result")], AccessorCalls(r.isOpt));
    LifecycleCallsOfLogs(r.DisplayResultSolve(r.DisplayResultDetail()));
    LifecycleCallsAppend(mr, [Call("display_result_solve")]);
    LifecycleCallsAppend(mr + [Call("display_result_solve")], logs);
  }

  /** `run` performs the seven lifecycle steps in their fixed order, each once. */
  lemma RunFollowsLifecycle<C, V, K, R>(ms: seq<Member<C, V, K>>, startTime: int, endTime: int,
                                        r: OptimizedResult<C, R>)
    ensures LifecycleCalls(RunTrace(ms, startTime, endTime, r)) == LifecycleSteps
  {
    var b := BuildTrace(ms, startTime);
    var s := SolveTrace(endTime);
    LifecycleCallsOfSteps(ms, startTime);
    SolveCalls(endTime);
    ReportCalls(r);
    LifecycleCallsAppend(b, s);
    LifecycleCallsAppend(b + s, ReportTrace(r));
  }

  /** Calls of `n` in an aggregation step other than `n` itself are its builder invocations. */
  lemma StepCount<C, V, K>(step: string, bs: seq<Member<C, V, K>>, line: string, n: string)
    requires n != step
    ensures multiset(StepTrace(step, bs, line))[Call(n)] == multiset(Invocations(bs))[Call(n)]
  {
  }

  /** Outside the lifecycle steps, the report calls only the accessors. */
  lemma ReportCount<C, R>(r: OptimizedResult<C, R>, n: string)
    requires n !in LifecycleSteps
    ensures multiset(ReportTrace(r))[Call(n)] == multiset(AccessorCalls(r.isOpt))[Call(n)]
  {
    var logs := Logs(r.DisplayResultSolve(r.DisplayResultDetail()));
    assert Call(n) !in logs;
  }

  lemma BuildCount<C, V, K>(ms: seq<Member<C, V, K>>, startTime: int, n: string)
    requires n !in LifecycleSteps
    ensures multiset(BuildTrace(ms, startTime))[Call(n)]
            == multiset(Invocations(Matching(ms, VarPrefix)))[Call(n)]
               + multiset(Invocations(Matching(ms, ObjectivePrefix)))[Call(n)]
               + multiset(Invocations(Matching(ms, ConstraintsPrefix)))[Call(n)]
  {
    var c0 := ConstantsTrace(startTime);
    var s1 := StepTrace("set_decision_variables", Matching(ms, VarPrefix), "Decision variables are set");
    var s2 := StepTrace("set_objective_function", Matching(ms, ObjectivePrefix), "Objective function is set");
    var s3 := StepTrace("set_constraints", Matching(ms, ConstraintsPrefix), "Constraints are set");
    ConstantsCount(startTime, n);
    StepCount("set_decision_variables", Matching(ms, VarPrefix), "Decision variables are set", n);
    StepCount("set_objective_function", Matching(ms, ObjectivePrefix), "Objective function is set", n);
    StepCount("set_constraints", Matching(ms, ConstraintsPrefix), "Constraints are set", n);
    assert BuildTrace(ms, startTime) == c0 + s1 + s2 + s3;
    assert multiset(c0 + s1 + s2 + s3) == multiset(c0) + multiset(s1) + multiset(s2) + multiset(s3);
  }

  lemma ConstantsCount(startTime: int, n: string)
    requires n != "set_constants"
    ensures multiset(ConstantsTrace(startTime))[Call(n)] == 0
  {
  }

  /** Outside the lifecycle steps, `run` calls the builders its three steps invoke and the accessors. */
  lemma RunCount<C, V, K, R>(ms: seq<Member<C, V, K>>, startTime: int, endTime: int,
                             r: OptimizedResult<C, R>, n: string)
    requires n !in LifecycleSteps
    ensures multiset(RunTrace(ms, startTime, endTime, r))[Call(n)]
            == multiset(Invocations(Matching(ms, VarPrefix)))[Call(n)]
               + multiset(Invocations(Matching(ms, ObjectivePrefix)))[Call(n)]
               + multiset(Invocations(Matching(ms, ConstraintsPrefix)))[Call(n)]
               + multiset(AccessorCalls(r.isOpt))[Call(n)]
  {
    BuildCount(ms, startTime, n);
    ReportCount(r, n);
    SolveCount(endTime, n);
    var b, sv, rp := BuildTrace(ms, startTime), SolveTrace(endTime), ReportTrace(r);
    assert RunTrace(ms, startTime, endTime, r) == b + sv + rp;
    assert multiset(b + sv + rp) == multiset(b) + multiset(sv) + multiset(rp);
  }

  lemma SolveCount(endTime: int, n: string)
    requires n != "solve"
    ensures multiset(SolveTrace(endTime))[Call(n)] == 0
  {
  }

  /**
   * Every member of a well-formed table carrying a builder prefix is invoked
   * exactly once by `run`; every other member is never invoked.
   */
  lemma RunInvokesEachBuilderOnce<C, V, K, R>(ms: seq<Member<C, V, K>>, startTime: int, endTime: int,
                                              r: OptimizedResult<C, R>, j: nat)
    requires WellFormedTable(ms)
    requires j < |ms|
    ensures multiset(RunTrace(ms, startTime, endTime, r))[Call(ms[j].name)]
            == if IsBuilderName(ms[j].name) then 1 else 0
  {
    var n := ms[j].name;
    assert n !in LifecycleSteps + AccessorNames;
    RunCount(ms, startTime, endTime, r, n);
    MatchingInvokesOnce(ms, VarPrefix, j);
    MatchingInvokesOnce(ms, ObjectivePrefix, j);
    MatchingInvokesOnce(ms, ConstraintsPrefix, j);
    PrefixesExclusive(n);
  }

  /** `make_result_objects` is called once when the outcome is optimal and never otherwise. */
  lemma RunAsksForObjectsOnlyWhenOptimal<C, V, K, R>(ms: seq<Member<C, V, K>>, startTime: int, endTime: int,
                                                    r: OptimizedResult<C, R>)
    ensures multiset(RunTrace(ms, startTime, endTime, r))[Call("make_result_objects")]
            == if r.isOpt then 1 else 0
  {
    var n := "make_result_objects";
    assert !StartsWith(n, VarPrefix) && !StartsWith(n, ObjectivePrefix) && !StartsWith(n, ConstraintsPrefix) by {
      NotBuilderByLetters(n);
    }
    NotInvokedUnlessMatched(ms, VarPrefix, n);
    NotInvokedUnlessMatched(ms, ObjectivePrefix, n);
    NotInvokedUnlessMatched(ms, ConstraintsPrefix, n);
    ObjectsAccessorCount(r.isOpt);
    RunCount(ms, startTime, endTime, r, n);
  }

  lemma ObjectsAccessorCount(isOpt: bool)
    ensures multiset(AccessorCalls(isOpt))[Call("make_result_objects")] == if isOpt then 1 else 0
  {
  }

  /**
   * The first clock reading is taken right before `set_constants`, the second
   * after `solve` and right before `make_result`.
   */
  lemma RunTimesBuildAndSolve<C, V, K, R>(ms: seq<Member<C, V, K>>, startTime: int, endTime: int,
                                          r: OptimizedResult<C, R>)
    ensures var t := RunTrace(ms, startTime, endTime, r);
            var k := |BuildTrace(ms, startTime)| + 3;
            k + 1 < |t| && t[0] == ClockRead(startTime) && t[1] == Call("set_constants")
            && t[k - 2] == Call("solve") && t[k] == ClockRead(endTime) && t[k + 1] == Call("make_result")
  {
    var t := RunTrace(ms, startTime, endTime, r);
    var b := BuildTrace(ms, startTime);
    assert t == b + (SolveTrace(endTime) + ReportTrace(r));
    assert b[..3] == ConstantsTrace(startTime);
  }

  /** The report at the end of `run` always logs the status label and the objective value. */
  lemma RunReportsOutcome<C, V, K, R>(ms: seq<Member<C, V, K>>, startTime: int, endTime: int,
                                      r: OptimizedResult<C, R>)
    ensures Logged(Info(StatusLabel + r.resultStatus)) in RunTrace(ms, startTime, endTime, r)
    ensures Logged(InfoValue(ObjectiveLabel, r.solObjective)) in RunTrace(ms, startTime, endTime, r)
  {
    var lines := r.DisplayResultSolve(r.DisplayResultDetail());
    var basic := r.DisplayBasicInformation();
    assert Logs(lines)[3] == Logged(basic[3]);
    assert Logs(lines)[4] == Logged(basic[4]);
  }

  // ------------------------------------------------------------------------
  // The objective

  lemma {:induction false} SumAppend(a: seq<int>, b: seq<int>)
    ensures Sum(a + b) == Sum(a) + Sum(b)
  {
    if |b| > 0 {
      assert (a + b)[..|a + b| - 1] == a + b[..|b| - 1];
      SumAppend(a, b[..|b| - 1]);
    } else {
      assert a + b == a;
    }
  }

  /** Removing one element takes exactly that element off the sum. */
  lemma SumSplit(a: seq<int>, x: int, b: seq<int>)
    ensures Sum(a + [x] + b) == Sum(a + b) + x
  {
    SumAppend(a + [x], b);
    SumAppend(a, [x]);
    SumAppend(a, b);
    SumSingle(x);
  }

  lemma SumSingle(x: int)
    ensures Sum([x]) == x
  {
    assert [x][..0] == [];
  }

  /** Summing the objective terms in any enumeration order gives the same objective. */
  lemma {:induction false} SumOrderIndependent(xs: seq<int>, ys: seq<int>)
    requires multiset(xs) == multiset(ys)
    ensures Sum(xs) == Sum(ys)
    decreases |xs|
  {
    if |xs| > 0 {
      var k := PickMatch(xs, ys);
      var x := xs[|xs| - 1];
      assert xs == xs[..|xs| - 1] + [x];
      assert ys == ys[..k] + [x] + ys[k + 1..];
      var rest := ys[..k] + ys[k + 1..];
      SumOrderIndependent(xs[..|xs| - 1], rest);
      SumSplit(ys[..k], x, ys[k + 1..]);
    } else {
      assert ys == [];
    }
  }

  lemma {:induction false} MatchingAppend<C, V, K>(a: seq<Member<C, V, K>>, b: seq<Member<C, V, K>>, prefix: string)
    ensures Matching(a + b, prefix) == Matching(a, prefix) + Matching(b, prefix)
  {
    if |b| > 0 {
      var b' := b[..|b| - 1];
      assert (a + b)[..|a + b| - 1] == a + b';
      MatchingAppend(a, b', prefix);
    } else {
      assert a + b == a;
    }
  }

  /**
   * What discovery keeps: each member as many times as the table lists it
   * when its name carries the prefix, and never otherwise.
   */
  lemma {:induction false} MatchingCount<C, V, K>(ms: seq<Member<C, V, K>>, prefix: string, x: Member<C, V, K>)
    ensures multiset(Matching(ms, prefix))[x] == if StartsWith(x.name, prefix) then multiset(ms)[x] else 0
    decreases |ms|
  {
    if |ms| > 0 {
      var init := ms[..|ms| - 1];
      assert ms == init + [ms[|ms| - 1]];
      MatchingCount(init, prefix, x);
    }
  }

  /** The members a step discovers do not depend on the order the table lists them in. */
  lemma MatchingPermutation<C, V, K>(ms: seq<Member<C, V, K>>, ms': seq<Member<C, V, K>>, prefix: string)
    requires multiset(ms) == multiset(ms')
    ensures multiset(Matching(ms, prefix)) == multiset(Matching(ms', prefix))
  {
    forall x
      ensures multiset(Matching(ms, prefix))[x] == multiset(Matching(ms', prefix))[x]
    {
      MatchingCount(ms, prefix, x);
      MatchingCount(ms', prefix, x);
    }
  }

  /** Discovery keeps the table's order: over a table sorted by name, the matches are sorted too. */
  lemma {:induction false} MatchingSorted<C, V, K>(ms: seq<Member<C, V, K>>, prefix: string)
    requires SortedByName(ms)
    ensures SortedByName(Matching(ms, prefix))
    decreases |ms|
  {
    if |ms| > 0 {
      var init := ms[..|ms| - 1];
      var last := ms[|ms| - 1];
      assert SortedByName(init);
      MatchingSorted(init, prefix);
      var r := Matching(init, prefix);
      forall i | 0 <= i < |r|
        ensures NameBefore(r[i].name, last.name)
      {
        assert r[i] in multiset(r);
        MatchingCount(init, prefix, r[i]);
        assert r[i] in multiset(init);
        var k :| 0 <= k < |init| && init[k] == r[i];
        assert ms[k] == r[i];
      }
    }
  }

  /**
   * The order `dir()` imposes decides which builder runs first. A problem
   * whose only method is `add_constraints_x` has it called after
   * `add_constraints_template`, whose name sorts first.
   */
  lemma TemplateSortsFirst<C, V, K>(x: Member<C, V, K>, ms: seq<Member<C, V, K>>)
    requires x.name == "add_constraints_x"
    requires multiset(ms) == multiset(Table([x])) && SortedByName(ms)
    ensures Matching(ms, ConstraintsPrefix) == [AddConstraintsTemplate(), x]
  {
    TableOfOneMethod(x);
    ConstraintsOfOneMethod(x, ms);
    TemplateNameSortsFirst<C, V, K>(x.name);
    MatchingSorted(ms, ConstraintsPrefix);
    SortedPair(Matching(ms, ConstraintsPrefix), AddConstraintsTemplate(), x);
  }

  lemma TemplateNameSortsFirst<C, V, K>(n: string)
    requires n == "add_constraints_x"
    ensures NameBefore(AddConstraintsTemplate<C, V, K>().name, n)
    ensures !NameBefore(n, AddConstraintsTemplate<C, V, K>().name)
  {
    var t := AddConstraintsTemplate<C, V, K>().name;
    TemplatesNamed<C, V, K>();
    assert StartsWith(n, ConstraintsPrefix);
    NameBeforeAfterCommonPrefix(ConstraintsPrefix, t, n);
    NameBeforeAfterCommonPrefix(ConstraintsPrefix, n, t);
    assert t[|ConstraintsPrefix|..][0] == 't' && n[|ConstraintsPrefix|..][0] == 'x';
  }

  /** A problem whose only method is `add_constraints_x` overrides no template. */
  lemma TableOfOneMethod<C, V, K>(x: Member<C, V, K>)
    requires x.name == "add_constraints_x"
    ensures multiset(Table([x])) == multiset{x, SetVarTemplate(), ObjectiveFunctionTemplate(), AddConstraintsTemplate()}
  {
    assert Names([x]) == [x.name];
    assert Missing([x], SetVarTemplate<C, V, K>()) == [SetVarTemplate()];
    assert Missing([x], ObjectiveFunctionTemplate<C, V, K>()) == [ObjectiveFunctionTemplate()];
    assert Missing([x], AddConstraintsTemplate<C, V, K>()) == [AddConstraintsTemplate()];
  }

  lemma ConstraintsOfOneMethod<C, V, K>(x: Member<C, V, K>, ms: seq<Member<C, V, K>>)
    requires x.name == "add_constraints_x"
    requires multiset(ms) == multiset{x, SetVarTemplate(), ObjectiveFunctionTemplate(), AddConstraintsTemplate()}
    ensures multiset(Matching(ms, ConstraintsPrefix)) == multiset{x, AddConstraintsTemplate()}
  {
    var both := multiset{x, AddConstraintsTemplate<C, V, K>()};
    var others := multiset{SetVarTemplate<C, V, K>(), ObjectiveFunctionTemplate<C, V, K>()};
    OneMethodGroups(x);
    assert multiset(ms) == both + others;
    MatchingOfGroups(ms, both, others, ConstraintsPrefix);
  }

  lemma OneMethodGroups<C, V, K>(x: Member<C, V, K>)
    requires x.name == "add_constraints_x"
    ensures forall z :: z in multiset{x, AddConstraintsTemplate<C, V, K>()} ==> StartsWith(z.name, ConstraintsPrefix)
    ensures forall z :: z in multiset{SetVarTemplate<C, V, K>(), ObjectiveFunctionTemplate<C, V, K>()} ==> !StartsWith(z.name, ConstraintsPrefix)
  {
    TemplatesNamed<C, V, K>();
    assert StartsWith(x.name, ConstraintsPrefix);
  }

  /** Discovery over members that split into those carrying the prefix and those lacking it keeps the first. */
  lemma MatchingOfGroups<C, V, K>(ms: seq<Member<C, V, K>>, both: multiset<Member<C, V, K>>, others: multiset<Member<C, V, K>>, prefix: string)
    requires multiset(ms) == both + others
    requires forall z :: z in both ==> StartsWith(z.name, prefix)
    requires forall z :: z in others ==> !StartsWith(z.name, prefix)
    ensures multiset(Matching(ms, prefix)) == both
  {
    forall y
      ensures multiset(Matching(ms, prefix))[y] == both[y]
    {
      MatchingCount(ms, prefix, y);
      if StartsWith(y.name, prefix) {
        assert y !in others;
      } else {
        assert y !in both;
      }
    }
  }

  /** Two members listed sorted by name, the one whose name sorts first leading. */
  lemma SortedPair<C, V, K>(r: seq<Member<C, V, K>>, t: Member<C, V, K>, x: Member<C, V, K>)
    requires multiset(r) == multiset{x, t} && SortedByName(r)
    requires NameBefore(t.name, x.name) && !NameBefore(x.name, t.name)
    ensures r == [t, x]
  {
    assert |r| == |multiset(r)| == 2;
    assert r[0] in multiset(r) && r[1] in multiset(r);
    NameBeforeIrreflexive(r[0].name);
    assert NameBefore(r[0].name, r[1].name);
  }

  /** Summing what the members return does not depend on the order they are listed in. */
  lemma {:induction false} TermsPermutation<C, V, K>(bs: seq<Member<C, V, K>>, bs': seq<Member<C, V, K>>, c: Option<C>)
    requires multiset(bs) == multiset(bs')
    ensures multiset(Terms(bs, c)) == multiset(Terms(bs', c))
    decreases |bs|
  {
    if |bs| > 0 {
      var k := PickMatch(bs, bs');
      var x := bs[|bs| - 1];
      var init := bs[..|bs| - 1];
      var a, b := bs'[..k], bs'[k + 1..];
      TermsPermutation(init, a + b, c);
      assert bs == init + [x];
      assert bs' == a + [x] + b;
      TermsSnoc(init, x, c);
      TermsSplit(a, x, b, c);
    } else {
      assert bs' == [];
    }
  }

  /** Where the last element of one listing sits in a permutation of it, and what is left on both sides. */
  lemma PickMatch<T>(xs: seq<T>, ys: seq<T>) returns (k: nat)
    requires multiset(xs) == multiset(ys) && |xs| > 0
    ensures k < |ys| && ys[k] == xs[|xs| - 1]
    ensures multiset(xs[..|xs| - 1]) == multiset(ys[..k] + ys[k + 1..])
  {
    var x := xs[|xs| - 1];
    assert xs == xs[..|xs| - 1] + [x];
    assert x in multiset(ys);
    k :| 0 <= k < |ys| && ys[k] == x;
    assert ys == ys[..k] + [x] + ys[k + 1..];
    var rest := ys[..k] + ys[k + 1..];
    assert multiset(ys) == multiset(rest) + multiset{x};
    assert multiset(xs) == multiset(xs[..|xs| - 1]) + multiset{x};
    assert multiset(rest) == multiset(ys) - multiset{x};
    assert multiset(xs[..|xs| - 1]) == multiset(xs) - multiset{x};
  }

  /** Taking one member out of a listing takes its return value out of the terms. */
  lemma TermsSplit<C, V, K>(a: seq<Member<C, V, K>>, x: Member<C, V, K>, b: seq<Member<C, V, K>>, c: Option<C>)
    ensures multiset(Terms(a + [x] + b, c)) == multiset(Terms(a + b, c)) + multiset{x.body(c).value}
  {
    TermsAppend(a, [x], c);
    TermsAppend(a + [x], b, c);
    TermsAppend(a, b, c);
  }

  lemma TermsSnoc<C, V, K>(init: seq<Member<C, V, K>>, x: Member<C, V, K>, c: Option<C>)
    ensures multiset(Terms(init + [x], c)) == multiset(Terms(init, c)) + multiset{x.body(c).value}
  {
    TermsAppend(init, [x], c);
  }

  /** A table none of whose names carries the prefix contributes nothing to its step. */
  lemma {:induction false} NothingMatches<C, V, K>(ms: seq<Member<C, V, K>>, prefix: string)
    requires forall j :: 0 <= j < |ms| ==> !StartsWith(ms[j].name, prefix)
    ensures Matching(ms, prefix) == []
  {
    if |ms| > 0 {
      NothingMatches(ms[..|ms| - 1], prefix);
    }
  }

  lemma TermsAppend<C, V, K>(a: seq<Member<C, V, K>>, b: seq<Member<C, V, K>>, c: Option<C>)
    ensures Terms(a + b, c) == Terms(a, c) + Terms(b, c)
  {
  }

  /** A template the problem does not override is discovered by exactly the steps whose prefix it carries. */
  lemma MatchingMissing<C, V, K>(own: seq<Member<C, V, K>>, t: Member<C, V, K>, prefix: string)
    ensures Matching(Missing(own, t), prefix)
            == if t.name !in Names(own) && StartsWith(t.name, prefix) then [t] else []
  {
    if t.name !in Names(own) {
      assert [t][..0] == [];
    }
  }

  /**
   * Discovery over the canonical listing `Table(own)` of the instance's members.
   * Only its multiset matters; the instance lists the same members sorted by name.
   */
  lemma MatchingTable<C, V, K>(own: seq<Member<C, V, K>>, prefix: string)
    ensures Matching(Table(own), prefix)
            == Matching(own, prefix)
               + Matching(Missing(own, SetVarTemplate()), prefix)
               + Matching(Missing(own, ObjectiveFunctionTemplate()), prefix)
               + Matching(Missing(own, AddConstraintsTemplate()), prefix)
  {
    var s1 := Missing(own, SetVarTemplate());
    var s2 := Missing(own, ObjectiveFunctionTemplate());
    var s3 := Missing(own, AddConstraintsTemplate());
    MatchingAppend(own, s1, prefix);
    MatchingAppend(own + s1, s2, prefix);
    MatchingAppend(own + s1 + s2, s3, prefix);
  }

  /** Without an override, discovery over the canonical listing `Table(own)` finds the problem's own terms and the template. */
  lemma ObjectiveMatchingOfTable<C, V, K>(own: seq<Member<C, V, K>>)
    requires "objective_function_template" !in Names(own)
    ensures Matching(Table(own), ObjectivePrefix) == Matching(own, ObjectivePrefix) + [ObjectiveFunctionTemplate()]
  {
    MatchingTable(own, ObjectivePrefix);
    ObjectiveStepFindsOnlyItsTemplate(own);
    AppendEmpties(Matching(own, ObjectivePrefix), [ObjectiveFunctionTemplate<C, V, K>()]);
  }

  lemma ObjectiveStepFindsOnlyItsTemplate<C, V, K>(own: seq<Member<C, V, K>>)
    requires "objective_function_template" !in Names(own)
    ensures Matching(Missing(own, SetVarTemplate<C, V, K>()), ObjectivePrefix) == []
    ensures Matching(Missing(own, ObjectiveFunctionTemplate<C, V, K>()), ObjectivePrefix) == [ObjectiveFunctionTemplate()]
    ensures Matching(Missing(own, AddConstraintsTemplate<C, V, K>()), ObjectivePrefix) == []
  {
    TemplatesNamed<C, V, K>();
    MatchingMissing(own, SetVarTemplate<C, V, K>(), ObjectivePrefix);
    MatchingMissing(own, ObjectiveFunctionTemplate<C, V, K>(), ObjectivePrefix);
    MatchingMissing(own, AddConstraintsTemplate<C, V, K>(), ObjectivePrefix);
  }

  lemma AppendEmpties<T>(a: seq<T>, x: seq<T>)
    ensures a + [] + x + [] == a + x
  {
  }

  /**
   * The installed objective is 0 plus the sum of the problem's own
   * `objective_function_*` terms, in whatever order the instance's members are
   * listed. When the problem overrides `objective_function_template`, the
   * override is one of its own terms; otherwise the template adds 0.
   */
  lemma ObjectiveIsSumOfOwnTerms<C, V, K>(own: seq<Member<C, V, K>>, ms: seq<Member<C, V, K>>, c: Option<C>)
    requires multiset(ms) == multiset(Table(own))
    ensures ObjectiveOf(ms, c) == Sum(Terms(Matching(own, ObjectivePrefix), c))
  {
    ObjectiveOfTable(own, c);
    MatchingPermutation(ms, Table(own), ObjectivePrefix);
    TermsPermutation(Matching(ms, ObjectivePrefix), Matching(Table(own), ObjectivePrefix), c);
    SumOrderIndependent(Terms(Matching(ms, ObjectivePrefix), c), Terms(Matching(Table(own), ObjectivePrefix), c));
  }

  lemma ObjectiveOfTable<C, V, K>(own: seq<Member<C, V, K>>, c: Option<C>)
    ensures ObjectiveOf(Table(own), c) == Sum(Terms(Matching(own, ObjectivePrefix), c))
  {
    if "objective_function_template" in Names(own) {
      ObjectiveOfOverriddenTable(own);
    } else {
      ObjectiveOfBaseTable(own, c);
    }
  }

  /** An overriding problem's objective step discovers only the problem's own terms. */
  lemma ObjectiveOfOverriddenTable<C, V, K>(own: seq<Member<C, V, K>>)
    requires "objective_function_template" in Names(own)
    ensures Matching(Table(own), ObjectivePrefix) == Matching(own, ObjectivePrefix)
  {
    TemplatesNamed<C, V, K>();
    MatchingTable(own, ObjectivePrefix);
    MatchingMissing(own, SetVarTemplate<C, V, K>(), ObjectivePrefix);
    MatchingMissing(own, ObjectiveFunctionTemplate<C, V, K>(), ObjectivePrefix);
    MatchingMissing(own, AddConstraintsTemplate<C, V, K>(), ObjectivePrefix);
    AppendEmpties(Matching(own, ObjectivePrefix), []);
  }

  lemma ObjectiveOfBaseTable<C, V, K>(own: seq<Member<C, V, K>>, c: Option<C>)
    requires "objective_function_template" !in Names(own)
    ensures ObjectiveOf(Table(own), c) == Sum(Terms(Matching(own, ObjectivePrefix), c))
  {
    ObjectiveMatchingOfTable(own);
    var ownTerms := Terms(Matching(own, ObjectivePrefix), c);
    TermsAppend(Matching(own, ObjectivePrefix), [ObjectiveFunctionTemplate<C, V, K>()], c);
    assert Terms([ObjectiveFunctionTemplate<C, V, K>()], c) == [0];
    SumAppend(ownTerms, [0]);
    assert Sum([0]) == 0 by { assert [0][..0] == []; }
  }

  /** Which prefix each template name carries. */
  lemma TemplatesNamed<C, V, K>()
    ensures StartsWith(SetVarTemplate<C, V, K>().name, VarPrefix)
    ensures !StartsWith(SetVarTemplate<C, V, K>().name, ObjectivePrefix)
    ensures !StartsWith(SetVarTemplate<C, V, K>().name, ConstraintsPrefix)
    ensures !StartsWith(ObjectiveFunctionTemplate<C, V, K>().name, VarPrefix)
    ensures StartsWith(ObjectiveFunctionTemplate<C, V, K>().name, ObjectivePrefix)
    ensures !StartsWith(ObjectiveFunctionTemplate<C, V, K>().name, ConstraintsPrefix)
    ensures !StartsWith(AddConstraintsTemplate<C, V, K>().name, VarPrefix)
    ensures !StartsWith(AddConstraintsTemplate<C, V, K>().name, ObjectivePrefix)
    ensures StartsWith(AddConstraintsTemplate<C, V, K>().name, ConstraintsPrefix)
  {
    PrefixesExclusive("set_var_template");
    PrefixesExclusive("objective_function_template");
    PrefixesExclusive("add_constraints_template");
  }

  /**
   * A problem with no builders of its own: each step discovers its template
   * and nothing else, in whatever order the instance's members are listed.
   */
  lemma TemplateOnlyMatching<C, V, K>(own: seq<Member<C, V, K>>, ms: seq<Member<C, V, K>>)
    requires forall j :: 0 <= j < |own| ==> !IsBuilderName(own[j].name)
    requires multiset(ms) == multiset(Table(own))
    ensures Matching(ms, VarPrefix) == [SetVarTemplate()]
    ensures Matching(ms, ObjectivePrefix) == [ObjectiveFunctionTemplate()]
    ensures Matching(ms, ConstraintsPrefix) == [AddConstraintsTemplate()]
  {
    TemplateOnlyMatchingOfTable(own);
    MatchingPermutation(ms, Table(own), VarPrefix);
    MatchingPermutation(ms, Table(own), ObjectivePrefix);
    MatchingPermutation(ms, Table(own), ConstraintsPrefix);
    OnlyElement(Matching(ms, VarPrefix), SetVarTemplate());
    OnlyElement(Matching(ms, ObjectivePrefix), ObjectiveFunctionTemplate());
    OnlyElement(Matching(ms, ConstraintsPrefix), AddConstraintsTemplate());
  }

  /** A sequence holding exactly one element is that element alone. */
  lemma OnlyElement<T>(s: seq<T>, x: T)
    requires multiset(s) == multiset{x}
    ensures s == [x]
  {
    assert |s| == |multiset(s)| == 1;
    assert s[0] in multiset(s);
  }

  lemma TemplateOnlyMatchingOfTable<C, V, K>(own: seq<Member<C, V, K>>)
    requires forall j :: 0 <= j < |own| ==> !IsBuilderName(own[j].name)
    ensures Matching(Table(own), VarPrefix) == [SetVarTemplate()]
    ensures Matching(Table(own), ObjectivePrefix) == [ObjectiveFunctionTemplate()]
    ensures Matching(Table(own), ConstraintsPrefix) == [AddConstraintsTemplate()]
  {
    TemplatesNamed<C, V, K>();
    assert SetVarTemplate<C, V, K>().name !in Names(own);
    assert ObjectiveFunctionTemplate<C, V, K>().name !in Names(own);
    assert AddConstraintsTemplate<C, V, K>().name !in Names(own);
    TemplateOnlyMatchingFor(own, VarPrefix);
    TemplateOnlyMatchingFor(own, ObjectivePrefix);
    TemplateOnlyMatchingFor(own, ConstraintsPrefix);
  }

  lemma TemplateOnlyMatchingFor<C, V, K>(own: seq<Member<C, V, K>>, prefix: string)
    requires forall j :: 0 <= j < |own| ==> !StartsWith(own[j].name, prefix)
    requires SetVarTemplate<C, V, K>().name !in Names(own)
    requires ObjectiveFunctionTemplate<C, V, K>().name !in Names(own)
    requires AddConstraintsTemplate<C, V, K>().name !in Names(own)
    ensures Matching(Table(own), prefix)
            == (if StartsWith(SetVarTemplate<C, V, K>().name, prefix) then [SetVarTemplate()] else [])
               + (if StartsWith(ObjectiveFunctionTemplate<C, V, K>().name, prefix) then [ObjectiveFunctionTemplate()] else [])
               + (if StartsWith(AddConstraintsTemplate<C, V, K>().name, prefix) then [AddConstraintsTemplate()] else [])
  {
    NothingMatches(own, prefix);
    MatchingTable(own, prefix);
    MatchingMissing(own, SetVarTemplate<C, V, K>(), prefix);
    MatchingMissing(own, ObjectiveFunctionTemplate<C, V, K>(), prefix);
    MatchingMissing(own, AddConstraintsTemplate<C, V, K>(), prefix);
  }

  /**
   * A problem with no builders of its own: the variable step changes
   * nothing, the objective is 0 and the constraint step adds one empty batch.
   */
  lemma TemplateOnlyProblem<C, V, K>(own: seq<Member<C, V, K>>, ms: seq<Member<C, V, K>>, m: SolverModel<V, K>, c: Option<C>)
    requires forall j :: 0 <= j < |own| ==> !IsBuilderName(own[j].name)
    requires multiset(ms) == multiset(Table(own))
    ensures Built(m, ms, c) == m.(objective := Some(0), constraints := m.constraints + [[]])
  {
    TemplateOnlyMatching(own, ms);
    var sv: seq<Member<C, V, K>> := [SetVarTemplate()];
    var ac: seq<Member<C, V, K>> := [AddConstraintsTemplate()];
    var ob: seq<Member<C, V, K>> := [ObjectiveFunctionTemplate()];
    SingleTemplateEffects(m, c);
    SingleTemplateEffects(m.(objective := Some(0)), c);
    assert ObjectiveOf(ms, c) == Sum(Terms(ob, c));
  }

  /** What each template does when it is the only builder its step invokes. */
  lemma SingleTemplateEffects<C, V, K>(m: SolverModel<V, K>, c: Option<C>)
    ensures RunBuilders(m, [SetVarTemplate<C, V, K>()], c) == m
    ensures RunBuilders(m, [ObjectiveFunctionTemplate<C, V, K>()], c) == m
    ensures Sum(Terms([ObjectiveFunctionTemplate<C, V, K>()], c)) == 0
    ensures RunBuilders(m, [AddConstraintsTemplate<C, V, K>()], c) == m.(constraints := m.constraints + [[]])
  {
    var sv: seq<Member<C, V, K>> := [SetVarTemplate()];
    var ob: seq<Member<C, V, K>> := [ObjectiveFunctionTemplate()];
    var ac: seq<Member<C, V, K>> := [AddConstraintsTemplate()];
    assert sv[..0] == [] && ob[..0] == [] && ac[..0] == [];
    assert Terms(ob, c) == [0];
    SumSingle(0);
    assert ApplyOps(m, [AddConstraints([])]) == ApplyOps(ApplyOp(m, AddConstraints([])), []);
  }

}
