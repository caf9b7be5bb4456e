/**
 * The optimizer interface: a fixed build-and-solve lifecycle over extension
 * points that a concrete problem supplies as prefix-named methods.
 *
 * Discovery by reflection is modelled by an explicit method table
 * (`members`, in enumeration order); every builder is a name and a body that
 * says what the builder does to the solver model and what it returns.
 */
module Optimizer {

  datatype Option<T> = None | Some(value: T)

  // ------------------------------------------------------------------------
  // Parameters

  /** Run settings handed to the backend solver. */
  datatype OptimizationParameters = OptimizationParameters(numThreads: int, maxSeconds: int)

  /** The bundle built when no arguments are given. */
  function DefaultParameters(): (p: OptimizationParameters)
    ensures p.numThreads == 4 && p.maxSeconds == 1800
    ensures p.numThreads > 0 && p.maxSeconds > 0
  {
    OptimizationParameters(4, 1800)
  }

  // ------------------------------------------------------------------------
  // Log lines and the result record

  /**
   * One line given to the logger. `InfoValue` is a label followed by a
   * formatted number; the float formatting itself is not modelled.
   */
  datatype LogLine = Info(text: string) | InfoValue(text: string, value: real)

  const Rule: string := "********"
  const Title: string := "計算結果 "
  const StatusLabel: string := "最適性 = "
  const ObjectiveLabel: string := "Objective value = "

  datatype OptimizedResult<C, R> = OptimizedResult(
    resultStatus: string,
    isOpt: bool,
    elapsedTime: int,
    constants: C,
    solObjective: real,
    resultObjects: seq<R>)
  {
    /** Result objects are reported only for an optimal outcome. */
    predicate Valid()
    {
      |resultObjects| > 0 ==> isOpt
    }

    /** The banner: three fixed lines, the status, the objective value, a rule. */
    function DisplayBasicInformation(): (lines: seq<LogLine>)
      ensures |lines| == 6
      ensures Info(StatusLabel + resultStatus) in lines
      ensures InfoValue(ObjectiveLabel, solObjective) in lines
      ensures lines[0] == lines[2] == lines[5] == Info(Rule) && lines[1] == Info(Title)
    {
      [Info(Rule), Info(Title), Info(Rule),
       Info(StatusLabel + resultStatus), InfoValue(ObjectiveLabel, solObjective),
       Info(Rule)]
    }

    /** The detail hook of the base record prints nothing, so its full report is the banner alone. */
    function DisplayResultDetail(): (lines: seq<LogLine>)
      ensures lines == []
      ensures DisplayResultSolve(lines) == DisplayBasicInformation()
    {
      []
    }

    /**
     * The full report, given the lines the record's detail hook emits: the
     * banner always, the detail only for an optimal outcome.
     */
    function DisplayResultSolve(detail: seq<LogLine>): (lines: seq<LogLine>)
      ensures |lines| >= 6 && lines[..6] == DisplayBasicInformation()
      ensures isOpt ==> lines[6..] == detail
      ensures !isOpt ==> |lines| == 6
    {
      DisplayBasicInformation() + (if isOpt then detail else [])
    }
  }

  // ------------------------------------------------------------------------
  // The solver model handle and the builders

  /** The one operation of each kind that a builder performs on the model. */
  datatype ModelOp<V, K> = AddVariable(variable: V) | AddConstraints(batch: seq<K>)

  /** What a builder does when invoked: model operations, then a return value. */
  datatype Effect<V, K> = Effect(ops: seq<ModelOp<V, K>>, value: int)

  /**
   * A zero-argument method of the optimizer. Its body sees the constants the
   * optimizer currently holds (None before any were set).
   */
  datatype Member<!C, V, K> = Member(name: string, body: Option<C> -> Effect<V, K>)

  /** What has been handed to the backend model: variables, objective, constraint batches. */
  datatype SolverModel<V, K> = SolverModel(variables: seq<V>, objective: Option<int>, constraints: seq<seq<K>>)

  /** What the backend accessors report once `solve` has run. */
  datatype Outcome<R> = Outcome(status: string, isOpt: bool, objective: real, objects: seq<R>)

  function ApplyOp<V, K>(m: SolverModel<V, K>, op: ModelOp<V, K>): SolverModel<V, K>
  {
    match op
    case AddVariable(v) => m.(variables := m.variables + [v])
    case AddConstraints(b) => m.(constraints := m.constraints + [b])
  }

  function ApplyOps<V, K>(m: SolverModel<V, K>, ops: seq<ModelOp<V, K>>): SolverModel<V, K>
    decreases |ops|
  {
    if |ops| == 0 then m else ApplyOps(ApplyOp(m, ops[0]), ops[1..])
  }

  // ------------------------------------------------------------------------
  // Naming conventions

  const VarPrefix: string := "set_var_"
  const ObjectivePrefix: string := "objective_function_"
  const ConstraintsPrefix: string := "add_constraints_"

  predicate StartsWith(s: string, prefix: string)
  {
    |prefix| <= |s| && s[..|prefix|] == prefix
  }

  predicate IsBuilderName(s: string)
  {
    StartsWith(s, VarPrefix) || StartsWith(s, ObjectivePrefix) || StartsWith(s, ConstraintsPrefix)
  }

  /** The lifecycle steps `run` performs, in the order it performs them. */
  const LifecycleSteps: seq<string> := [
    "set_constants", "set_decision_variables", "set_objective_function",
    "set_constraints", "solve", "make_result", "display_result_solve"]

  /** The backend accessors `make_result` reads. */
  const AccessorNames: seq<string> := ["is_opt", "make_result_objects", "result_status", "sol_objective"]

  /** No builder prefix begins the name of a lifecycle step, an accessor or `run`. */
  lemma ReservedNamesAreNotBuilders()
    ensures forall n :: n in LifecycleSteps + AccessorNames ==> !IsBuilderName(n)
    ensures !IsBuilderName("run")
  {
    forall n | n in LifecycleSteps + AccessorNames
      ensures !IsBuilderName(n)
    {
      NotBuilderByLetters(n);
    }
  }

  /** A name whose first (or, after `s`, fifth) letter differs from every prefix carries none. */
  lemma NotBuilderByLetters(n: string)
    requires |n| > 4 && n[0] != 'o' && n[0] != 'a' && (n[0] == 's' ==> n[4] != 'v')
    ensures !IsBuilderName(n)
  {
  }

  /** A name carries at most one builder prefix. */
  lemma PrefixesExclusive(s: string)
    ensures !(StartsWith(s, VarPrefix) && StartsWith(s, ObjectivePrefix))
    ensures !(StartsWith(s, VarPrefix) && StartsWith(s, ConstraintsPrefix))
    ensures !(StartsWith(s, ObjectivePrefix) && StartsWith(s, ConstraintsPrefix))
  {
    if StartsWith(s, VarPrefix) { assert s[0] == 's'; }
    if StartsWith(s, ObjectivePrefix) { assert s[0] == 'o'; }
    if StartsWith(s, ConstraintsPrefix) { assert s[0] == 'a'; }
  }

  // ------------------------------------------------------------------------
  // Discovery and aggregation as functions over the method table

  function Names<C, V, K>(ms: seq<Member<C, V, K>>): (ns: seq<string>)
    ensures |ns| == |ms| && forall j :: 0 <= j < |ms| ==> ns[j] == ms[j].name
  {
    seq(|ms|, j requires 0 <= j < |ms| => ms[j].name)
  }

  predicate Distinct(ns: seq<string>)
  {
    forall i, j :: 0 <= i < j < |ns| ==> ns[i] != ns[j]
  }

  /**
   * A method table as reflection would see it: every name once, and no
   * problem method named like a lifecycle step or accessor.
   */
  predicate WellFormedTable<C, V, K>(ms: seq<Member<C, V, K>>)
  {
    Distinct(Names(ms)) && forall j :: 0 <= j < |ms| ==> ms[j].name !in LifecycleSteps + AccessorNames
  }

  /** The members whose name carries `prefix`, in table order. */
  function Matching<C, V, K>(ms: seq<Member<C, V, K>>, prefix: string): (r: seq<Member<C, V, K>>)
    ensures |r| <= |ms|
    ensures forall j :: 0 <= j < |r| ==> StartsWith(r[j].name, prefix)
  {
    if |ms| == 0 then []
    else Matching(ms[..|ms| - 1], prefix)
         + (if StartsWith(ms[|ms| - 1].name, prefix) then [ms[|ms| - 1]] else [])
  }

  /** The model after invoking `bs` one after the other. */
  function RunBuilders<C, V, K>(m: SolverModel<V, K>, bs: seq<Member<C, V, K>>, c: Option<C>): SolverModel<V, K>
  {
    if |bs| == 0 then m
    else ApplyOps(RunBuilders(m, bs[..|bs| - 1], c), bs[|bs| - 1].body(c).ops)
  }

  /** What each of `bs` returns. */
  function Terms<C, V, K>(bs: seq<Member<C, V, K>>, c: Option<C>): (ts: seq<int>)
    ensures |ts| == |bs| && forall j :: 0 <= j < |bs| ==> ts[j] == bs[j].body(c).value
  {
    seq(|bs|, j requires 0 <= j < |bs| => bs[j].body(c).value)
  }

  function Sum(xs: seq<int>): int
  {
    if |xs| == 0 then 0 else Sum(xs[..|xs| - 1]) + xs[|xs| - 1]
  }

  /** The objective installed by `set_objective_function`: 0 plus every term. */
  function ObjectiveOf<C, V, K>(ms: seq<Member<C, V, K>>, c: Option<C>): int
  {
    Sum(Terms(Matching(ms, ObjectivePrefix), c))
  }

  /** The model after the variable, objective and constraint steps. */
  function Built<C, V, K>(m: SolverModel<V, K>, ms: seq<Member<C, V, K>>, c: Option<C>): SolverModel<V, K>
  {
    var afterVariables := RunBuilders(m, Matching(ms, VarPrefix), c);
    var afterObjective := RunBuilders(afterVariables, Matching(ms, ObjectivePrefix), c);
    RunBuilders(afterObjective.(objective := Some(ObjectiveOf(ms, c))), Matching(ms, ConstraintsPrefix), c)
  }

  // ------------------------------------------------------------------------
  // The templates of the base class

  /** `set_var_template`: the variable step discovers it; it changes nothing. */
  function SetVarTemplate<C, V, K>(): (t: Member<C, V, K>)
    ensures t.name == "set_var_template"
    ensures StartsWith(t.name, VarPrefix)
  {
    assert StartsWith("set_var_template", VarPrefix);
    Member("set_var_template", (c: Option<C>) => Effect([], 0))
  }

  /** `objective_function_template`: the objective step discovers it; it changes nothing and contributes 0. */
  function ObjectiveFunctionTemplate<C, V, K>(): (t: Member<C, V, K>)
    ensures t.name == "objective_function_template"
    ensures StartsWith(t.name, ObjectivePrefix)
  {
    assert StartsWith("objective_function_template", ObjectivePrefix);
    Member("objective_function_template", (c: Option<C>) => Effect([], 0))
  }

  /** `add_constraints_template`: the constraints step discovers it; it hands the model one empty batch. */
  function AddConstraintsTemplate<C, V, K>(): (t: Member<C, V, K>)
    ensures t.name == "add_constraints_template"
    ensures StartsWith(t.name, ConstraintsPrefix)
  {
    assert StartsWith("add_constraints_template", ConstraintsPrefix);
    Member("add_constraints_template", (c: Option<C>) => Effect([AddConstraints([])], 0))
  }

  /**
   * The members an instance has: the problem's own methods and the templates
   * it does not override. Only the collection matters; reflection lists it
   * sorted by name (`SortedByName`).
   */
  function Table<C, V, K>(own: seq<Member<C, V, K>>): seq<Member<C, V, K>>
  {
    own + Missing(own, SetVarTemplate()) + Missing(own, ObjectiveFunctionTemplate())
    + Missing(own, AddConstraintsTemplate())
  }

  /** The template `t`, unless the problem overrides it by defining a method of the same name. */
  function Missing<C, V, K>(own: seq<Member<C, V, K>>, t: Member<C, V, K>): seq<Member<C, V, K>>
  {
    if t.name in Names(own) then [] else [t]
  }

  /** Python's `<` on strings: code point by code point, a proper prefix first. */
  predicate NameBefore(a: string, b: string)
    decreases |a|
  {
    |b| > 0 && (|a| == 0 || a[0] < b[0] || (a[0] == b[0] && NameBefore(a[1..], b[1..])))
  }

  /** The order in which `dir()` lists an instance's names: strictly ascending. */
  predicate SortedByName<C, V, K>(ms: seq<Member<C, V, K>>)
  {
    forall i, j :: 0 <= i < j < |ms| ==> NameBefore(ms[i].name, ms[j].name)
  }

  /** A shared beginning does not change which of two names comes first. */
  lemma {:induction false} NameBeforeAfterCommonPrefix(p: string, a: string, b: string)
    requires StartsWith(a, p) && StartsWith(b, p)
    ensures NameBefore(a, b) == NameBefore(a[|p|..], b[|p|..])
    decreases |p|
  {
    if |p| > 0 {
      assert a[0] == a[..|p|][0] == p[0] == b[..|p|][0] == b[0];
      assert a[1..][..|p| - 1] == a[..|p|][1..];
      assert b[1..][..|p| - 1] == b[..|p|][1..];
      NameBeforeAfterCommonPrefix(p[1..], a[1..], b[1..]);
      assert a[1..][|p| - 1..] == a[|p|..];
      assert b[1..][|p| - 1..] == b[|p|..];
    }
  }

  /** No name comes before itself. */
  lemma NameBeforeIrreflexive(a: string)
    ensures !NameBefore(a, a)
  {
  }

  // ------------------------------------------------------------------------
  // The run trace

  /** One observable step: a method call, a clock reading or a logged line. */
  datatype Event = Call(name: string) | ClockRead(time: int) | Logged(line: LogLine)

  function Invocations<C, V, K>(bs: seq<Member<C, V, K>>): (es: seq<Event>)
    ensures |es| == |bs| && forall j :: 0 <= j < |bs| ==> es[j] == Call(bs[j].name)
  {
    seq(|bs|, j requires 0 <= j < |bs| => Call(bs[j].name))
  }

  function Logs(lines: seq<LogLine>): (es: seq<Event>)
    ensures |es| == |lines| && forall j :: 0 <= j < |lines| ==> es[j] == Logged(lines[j])
  {
    seq(|lines|, j requires 0 <= j < |lines| => Logged(lines[j]))
  }

  /** The accessor calls of `make_result`; `make_result_objects` only when optimal. */
  function AccessorCalls(isOpt: bool): seq<Event>
  {
    [Call("is_opt")] + (if isOpt then [Call("make_result_objects")] else [])
    + [Call("result_status"), Call("sol_objective")]
  }

  function ResultOf<C, R>(o: Outcome<R>, constants: C, elapsedTime: int): (r: OptimizedResult<C, R>)
    ensures r.Valid()
    ensures r.resultStatus == o.status && r.isOpt == o.isOpt && r.solObjective == o.objective
    ensures r.elapsedTime == elapsedTime && r.constants == constants
    ensures o.isOpt ==> r.resultObjects == o.objects
    ensures !o.isOpt ==> r.resultObjects == []
  {
    OptimizedResult(o.status, o.isOpt, elapsedTime, constants, o.objective,
                    if o.isOpt then o.objects else [])
  }

  /** `set_constants` preceded by the first clock reading and followed by its log line. */
  function ConstantsTrace(startTime: int): seq<Event>
  {
    [ClockRead(startTime), Call("set_constants"), Logged(Info("Constants are set"))]
  }

  /** An aggregation step: its own call, the builders it invokes, its log line. */
  function StepTrace<C, V, K>(step: string, bs: seq<Member<C, V, K>>, line: string): seq<Event>
  {
    [Call(step)] + Invocations(bs) + [Logged(Info(line))]
  }

  /** `solve` between its two log lines, followed by the second clock reading. */
  function SolveTrace(endTime: int): seq<Event>
  {
    [Logged(Info("Start solving problem."))] + [Call("solve")]
    + [Logged(Info("End solving problem.")), ClockRead(endTime)]
  }

  /** `make_result` and the accessor calls it makes. */
  function MakeResultTrace(isOpt: bool): seq<Event>
  {
    [Call("make_result")] + AccessorCalls(isOpt)
  }

  /** `make_result`, then the record's report. */
  function ReportTrace<C, R>(r: OptimizedResult<C, R>): seq<Event>
  {
    MakeResultTrace(r.isOpt) + [Call("display_result_solve")] + Logs(r.DisplayResultSolve(r.DisplayResultDetail()))
  }

  /** The constants and the three aggregation steps, as `run` performs them. */
  function BuildTrace<C, V, K>(ms: seq<Member<C, V, K>>, startTime: int): seq<Event>
  {
    ConstantsTrace(startTime)
    + StepTrace("set_decision_variables", Matching(ms, VarPrefix), "Decision variables are set")
    + StepTrace("set_objective_function", Matching(ms, ObjectivePrefix), "Objective function is set")
    + StepTrace("set_constraints", Matching(ms, ConstraintsPrefix), "Constraints are set")
  }

  /** Everything `run` does, in order, given the table, the two clock readings and the record. */
  function RunTrace<C, V, K, R>(ms: seq<Member<C, V, K>>, startTime: int, endTime: int,
                                r: OptimizedResult<C, R>): seq<Event>
  {
    BuildTrace(ms, startTime) + SolveTrace(endTime) + ReportTrace(r)
  }

  // ------------------------------------------------------------------------
  // The optimizer

  class OptimizerInterface<C, V, K, R> {
    const parameters: OptimizationParameters
    /** What reflection enumerates on the instance, in enumeration order. */
    const members: seq<Member<C, V, K>>
    /** The backend's `solve`: what its accessors report for a built model. */
    const solver: (OptimizationParameters, SolverModel<V, K>) -> Outcome<R>

    var constants: Option<C>
    var model: SolverModel<V, K>
    var outcome: Option<Outcome<R>>
    var trace: seq<Event>

    ghost predicate Valid()
    {
      WellFormedTable(members)
    }

    /**
     * `own` are the problem's methods; `members` is what `dir()` lists on
     * the instance: those and the templates not overridden, sorted by name.
     */
    constructor (own: seq<Member<C, V, K>>, members: seq<Member<C, V, K>>,
                 solver: (OptimizationParameters, SolverModel<V, K>) -> Outcome<R>,
                 model: SolverModel<V, K>,
                 parameters: OptimizationParameters := DefaultParameters())
      requires WellFormedTable(own)
      requires multiset(members) == multiset(Table(own)) && SortedByName(members)
      ensures Valid()
      ensures this.parameters == parameters && this.members == members && this.solver == solver
      ensures constants == None && this.model == model && outcome == None && trace == []
    {
      this.parameters := parameters;
      this.members := members;
      this.solver := solver;
      constants := None;
      this.model := model;
      outcome := None;
      trace := [];
      new;
      EnumerationWellFormed(own, members);
    }

    method SetConstants(c: C)
      modifies this
      ensures model == old(model) && outcome == old(outcome)
      ensures constants == Some(c)
      ensures trace == old(trace) + [Call("set_constants")]
    {
      trace := trace + [Call("set_constants")];
      constants := Some(c);
    }

    /** Invokes every member whose name carries `prefix`, once each, in table order. */
    method InvokeAll(prefix: string) returns (total: int)
      modifies this
      ensures constants == old(constants) && outcome == old(outcome)
      ensures model == RunBuilders(old(model), Matching(members, prefix), constants)
      ensures trace == old(trace) + Invocations(Matching(members, prefix))
      ensures total == Sum(Terms(Matching(members, prefix), constants))
    {
      var ms, c := members, constants;
      var m, t := model, trace;
      total := 0;
      var i := 0;
      while i < |ms|
        invariant 0 <= i <= |ms|
        invariant unchanged(this)
        invariant Progress(m, t, total) == Scan(Progress(model, trace, 0), ms[..i], prefix, c)
      {
        var b := ms[i];
        assert ms[..i + 1][..i] == ms[..i];
        if StartsWith(b.name, prefix) {
          var effect := b.body(c);
          t := t + [Call(b.name)];
          m := ApplyOps(m, effect.ops);
          total := total + effect.value;
        }
        i := i + 1;
      }
      assert ms[..i] == ms;
      ScanAggregates(model, trace, ms, prefix, c);
      model, trace := m, t;
    }

    method SetDecisionVariables()
      modifies this
      ensures constants == old(constants) && outcome == old(outcome)
      ensures model == RunBuilders(old(model), Matching(members, VarPrefix), constants)
      ensures trace == old(trace) + [Call("set_decision_variables")] + Invocations(Matching(members, VarPrefix))
    {
      trace := trace + [Call("set_decision_variables")];
      var ignored := InvokeAll(VarPrefix);
    }

    method SetObjectiveFunction()
      modifies this
      ensures constants == old(constants) && outcome == old(outcome)
      ensures model == RunBuilders(old(model), Matching(members, ObjectivePrefix), constants)
                         .(objective := Some(ObjectiveOf(members, constants)))
      ensures trace == old(trace) + [Call("set_objective_function")] + Invocations(Matching(members, ObjectivePrefix))
    {
      trace := trace + [Call("set_objective_function")];
      var obj := InvokeAll(ObjectivePrefix);
      model := model.(objective := Some(obj));
    }

    method SetConstraints()
      modifies this
      ensures constants == old(constants) && outcome == old(outcome)
      ensures model == RunBuilders(old(model), Matching(members, ConstraintsPrefix), constants)
      ensures trace == old(trace) + [Call("set_constraints")] + Invocations(Matching(members, ConstraintsPrefix))
    {
      trace := trace + [Call("set_constraints")];
      var ignored := InvokeAll(ConstraintsPrefix);
    }

    method Solve()
      modifies this
      ensures constants == old(constants) && model == old(model)
      ensures outcome == Some(solver(parameters, model))
      ensures trace == old(trace) + [Call("solve")]
    {
      trace := trace + [Call("solve")];
      outcome := Some(solver(parameters, model));
    }

    method MakeResult(elapsedTime: int) returns (r: OptimizedResult<C, R>)
      requires outcome.Some? && constants.Some?
      modifies this
      ensures constants == old(constants) && model == old(model) && outcome == old(outcome)
      ensures r == ResultOf(outcome.value, constants.value, elapsedTime)
      ensures trace == old(trace) + MakeResultTrace(outcome.value.isOpt)
    {
      trace := trace + [Call("make_result"), Call("is_opt")];
      var isOpt := outcome.value.isOpt;
      var objects: seq<R>;
      if isOpt {
        trace := trace + [Call("make_result_objects")];
        objects := outcome.value.objects;
      } else {
        objects := [];
      }
      trace := trace + [Call("result_status"), Call("sol_objective")];
      r := OptimizedResult(outcome.value.status, isOpt, elapsedTime, constants.value,
                           outcome.value.objective, objects);
    }

    /**
     * The first half of `run`: the clock reading taken at the start, then
     * the constants and the three aggregation steps, each followed by its log line.
     */
    method BuildProblem(c: C, startTime: int)
      modifies this
      ensures constants == Some(c) && outcome == old(outcome)
      ensures model == Built(old(model), members, Some(c))
      ensures trace == old(trace) + BuildTrace(members, startTime)
    {
      ghost var t0 := trace;
      trace := trace + [ClockRead(startTime)];
      SetConstants(c);
      trace := trace + [Logged(Info("Constants are set"))];
      assert trace == t0 + ConstantsTrace(startTime);
      ghost var t1 := trace;
      SetDecisionVariables();
      trace := trace + [Logged(Info("Decision variables are set"))];
      ghost var s1 := StepTrace("set_decision_variables", Matching(members, VarPrefix), "Decision variables are set");
      Regroup(t1, [Call("set_decision_variables")], Invocations(Matching(members, VarPrefix)), [Logged(Info("Decision variables are set"))]);
      ghost var t2 := trace;
      SetObjectiveFunction();
      trace := trace + [Logged(Info("Objective function is set"))];
      ghost var s2 := StepTrace("set_objective_function", Matching(members, ObjectivePrefix), "Objective function is set");
      Regroup(t2, [Call("set_objective_function")], Invocations(Matching(members, ObjectivePrefix)), [Logged(Info("Objective function is set"))]);
      ghost var t3 := trace;
      SetConstraints();
      trace := trace + [Logged(Info("Constraints are set"))];
      ghost var s3 := StepTrace("set_constraints", Matching(members, ConstraintsPrefix), "Constraints are set");
      Regroup(t3, [Call("set_constraints")], Invocations(Matching(members, ConstraintsPrefix)), [Logged(Info("Constraints are set"))]);
      Regroup(t0, ConstantsTrace(startTime), s1, s2);
      Regroup(t0, ConstantsTrace(startTime) + s1 + s2, s3, []);
      assert ConstantsTrace(startTime) + s1 + s2 + s3 + [] == BuildTrace(members, startTime);
    }

    /**
     * The whole lifecycle. `startTime` and `endTime` are the clock readings
     * taken before `set_constants` and after `solve`.
     */
    method Run(c: C, startTime: int, endTime: int) returns (r: OptimizedResult<C, R>)
      modifies this
      ensures constants == Some(c)
      ensures model == Built(old(model), members, Some(c))
      ensures outcome == Some(solver(parameters, model))
      ensures r == ResultOf(outcome.value, c, endTime - startTime)
      ensures startTime <= endTime ==> r.elapsedTime >= 0
      ensures trace == old(trace) + RunTrace(members, startTime, endTime, r)
    {
      ghost var t0 := trace;
      BuildProblem(c, startTime);
      ghost var t1 := trace;
      trace := trace + [Logged(Info("Start solving problem."))];
      Solve();
      trace := trace + [Logged(Info("End solving problem.")), ClockRead(endTime)];
      Regroup(t1, [Logged(Info("Start solving problem."))], [Call("solve")],
              [Logged(Info("End solving problem.")), ClockRead(endTime)]);
      ghost var t2 := trace;
      r := MakeResult(endTime - startTime);
      trace := trace + [Call("display_result_solve")] + Logs(r.DisplayResultSolve(r.DisplayResultDetail()));
      Regroup(t2, MakeResultTrace(r.isOpt), [Call("display_result_solve")],
              Logs(r.DisplayResultSolve(r.DisplayResultDetail())));
      Regroup(t0, BuildTrace(members, startTime), SolveTrace(endTime), ReportTrace(r));
    }
  }

  // ------------------------------------------------------------------------
  // The scan performed by `InvokeAll`, and helper lemmas

  /** The state a scan of the method table has built up: the model, the trace and the running total. */
  datatype Progress<V, K> = Progress(model: SolverModel<V, K>, trace: seq<Event>, total: int)

  /** Visiting one table entry: a member carrying the prefix is called, any other is skipped. */
  function Visit<C, V, K>(p: Progress<V, K>, b: Member<C, V, K>, prefix: string, c: Option<C>): Progress<V, K>
  {
    if StartsWith(b.name, prefix) then
      var effect := b.body(c);
      Progress(ApplyOps(p.model, effect.ops), p.trace + [Call(b.name)], p.total + effect.value)
    else p
  }

  /** Visiting the entries of `bs` in table order. */
  function Scan<C, V, K>(p: Progress<V, K>, bs: seq<Member<C, V, K>>, prefix: string, c: Option<C>): Progress<V, K>
  {
    if |bs| == 0 then p else Visit(Scan(p, bs[..|bs| - 1], prefix, c), bs[|bs| - 1], prefix, c)
  }

  /** What running the builders of `bs` that carry the prefix amounts to. */
  function Aggregates<C, V, K>(m: SolverModel<V, K>, t: seq<Event>, bs: seq<Member<C, V, K>>,
                               prefix: string, c: Option<C>): Progress<V, K>
  {
    Progress(RunBuilders(m, Matching(bs, prefix), c), t + Invocations(Matching(bs, prefix)),
             Sum(Terms(Matching(bs, prefix), c)))
  }

  /**
   * A scan amounts to running the matching builders in order: their
   * operations reach the model, their calls the trace and their values the total.
   */
  lemma {:induction false} ScanAggregates<C, V, K>(m: SolverModel<V, K>, t: seq<Event>, bs: seq<Member<C, V, K>>,
                                                   prefix: string, c: Option<C>)
    ensures Scan(Progress(m, t, 0), bs, prefix, c) == Aggregates(m, t, bs, prefix, c)
  {
    if |bs| > 0 {
      var init, last := bs[..|bs| - 1], bs[|bs| - 1];
      ScanAggregates(m, t, init, prefix, c);
      VisitAggregates(m, t, init, last, prefix, c);
      assert init + [last] == bs;
    }
  }

  /** Visiting one more entry extends the aggregates of the entries before it. */
  lemma VisitAggregates<C, V, K>(m: SolverModel<V, K>, t: seq<Event>, bs: seq<Member<C, V, K>>,
                                 b: Member<C, V, K>, prefix: string, c: Option<C>)
    ensures Visit(Aggregates(m, t, bs, prefix, c), b, prefix, c) == Aggregates(m, t, bs + [b], prefix, c)
  {
    MatchingSnoc(bs, b, prefix);
    if StartsWith(b.name, prefix) {
      assert Matching(bs + [b], prefix) == Matching(bs, prefix) + [b];
      VisitMatched(m, t, Matching(bs, prefix), b, prefix, c);
    } else {
      assert Matching(bs + [b], prefix) == Matching(bs, prefix) + [];
      assert Matching(bs, prefix) + [] == Matching(bs, prefix);
    }
  }

  /** Calling one more builder extends each aggregate by that builder's share. */
  lemma VisitMatched<C, V, K>(m: SolverModel<V, K>, t: seq<Event>, found: seq<Member<C, V, K>>,
                              b: Member<C, V, K>, prefix: string, c: Option<C>)
    requires StartsWith(b.name, prefix)
    ensures Visit(Progress(RunBuilders(m, found, c), t + Invocations(found), Sum(Terms(found, c))), b, prefix, c)
            == Progress(RunBuilders(m, found + [b], c), t + Invocations(found + [b]), Sum(Terms(found + [b], c)))
  {
    SnocFacts(found, b, m, c);
    assert t + (Invocations(found) + [Call(b.name)]) == t + Invocations(found) + [Call(b.name)];
  }

  lemma MatchingSnoc<C, V, K>(bs: seq<Member<C, V, K>>, b: Member<C, V, K>, prefix: string)
    ensures Matching(bs + [b], prefix) == Matching(bs, prefix) + if StartsWith(b.name, prefix) then [b] else []
  {
    assert (bs + [b])[..|bs|] == bs;
  }

  /** Regroups a chain of appends; stated on plain sequences so that no contents are unfolded. */
  lemma Regroup(a: seq<Event>, b: seq<Event>, c: seq<Event>, d: seq<Event>)
    ensures a + b + c + d == a + (b + c + d)
  {
  }

  /** Appending one builder extends each aggregate by that builder's share. */
  lemma SnocFacts<C, V, K>(bs: seq<Member<C, V, K>>, b: Member<C, V, K>, m: SolverModel<V, K>, c: Option<C>)
    ensures RunBuilders(m, bs + [b], c) == ApplyOps(RunBuilders(m, bs, c), b.body(c).ops)
    ensures Invocations(bs + [b]) == Invocations(bs) + [Call(b.name)]
    ensures Sum(Terms(bs + [b], c)) == Sum(Terms(bs, c)) + b.body(c).value
  {
    assert (bs + [b])[..|bs|] == bs;
    assert Terms(bs + [b], c)[..|bs|] == Terms(bs, c);
  }

  lemma TableWellFormed<C, V, K>(own: seq<Member<C, V, K>>)
    requires WellFormedTable(own)
    ensures WellFormedTable(Table(own))
  {
    var t := Table(own);
    var ns := Names(own);
    forall i, j | 0 <= i < j < |t|
      ensures Names(t)[i] != Names(t)[j]
    {
      if j >= |own| {
        assert t[j].name !in ns;
      }
    }
  }

  /** A listing of the instance's members sorted by name is a well-formed table. */
  lemma EnumerationWellFormed<C, V, K>(own: seq<Member<C, V, K>>, ms: seq<Member<C, V, K>>)
    requires WellFormedTable(own)
    requires multiset(ms) == multiset(Table(own)) && SortedByName(ms)
    ensures WellFormedTable(ms)
  {
    TableWellFormed(own);
    var t := Table(own);
    forall i, j | 0 <= i < j < |ms|
      ensures Names(ms)[i] != Names(ms)[j]
    {
      NameBeforeIrreflexive(ms[i].name);
    }
    forall j | 0 <= j < |ms|
      ensures ms[j].name !in LifecycleSteps + AccessorNames
    {
      assert ms[j] in multiset(t);
      var k :| 0 <= k < |t| && t[k] == ms[j];
    }
  }
}
