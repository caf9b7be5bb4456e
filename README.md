# Optimizer lifecycle and CSV file names, in Dafny

This project models two pieces of a small optimisation toolkit.

**The optimizer interface** (`python/src/optimizer.py`). An optimizer builds and
solves a problem in a fixed order. It stores the constants. It calls every
`set_var_*` method, then sums the results of every `objective_function_*`
method into the objective it installs, then calls every `add_constraints_*`
method. It then solves, assembles a result record and prints a report. The
model is in `optimizer.dfy`, module `Optimizer`:

- `OptimizationParameters` and `DefaultParameters` model the run settings and their defaults.
- `OptimizedResult` is the result record with its display functions. A report is a list of `LogLine`s.
- `OptimizerInterface` is a class. Its fields are the constants, the backend model handle (`SolverModel`: variables, objective, constraint batches), the backend outcome and a trace. Its methods are `SetConstants`, the three aggregation steps (`SetDecisionVariables`, `SetObjectiveFunction`, `SetConstraints`, all built on the loop `InvokeAll`), `Solve`, `MakeResult` and `Run`.
- The trace records, in order, every call of a lifecycle step, a builder or an accessor, every clock reading and every log line. Lifecycle order and "called exactly once" are stated over it. The record's display helpers (`display_basic_information`, `display_result_detail`) are not traced; only their log lines are. Calls on the model handle (`minimize`, `add_constraints`) are recorded in `model`, not in the trace.
- Discovery by reflection is modelled as an explicit method table `members`, the listing `dir(self)` produces. Its members are the problem's own builder-side methods and the three base-class templates the problem does not override (`Table`). The problem's `solve` and accessors are not listed; the `solver` function stands for them. They are listed in ascending name order (`SortedByName`, with Python's string order as `NameBefore`). Each entry is a `Member`: a name and a body. The body says which operations the method performs on the model and what value it returns.
- The backend `solve` is a function from the parameters and the built model to an `Outcome`. The accessors `is_opt`, `make_result_objects`, `result_status` and `sol_objective` read their values from that outcome.

`lifecycle.dfy` (module `Lifecycle`) proves what a whole `run` does:

- the seven lifecycle steps happen once each, in order;
- every builder in a well-formed table is invoked exactly once, and no other member is invoked;
- `make_result_objects` is called only for an optimal outcome;
- the two clock readings surround the build and the solve;
- the installed objective is 0 plus the problem's own terms, whatever order the members are listed in;
- the listing order decides the call order: a problem whose only method is `add_constraints_x` has `add_constraints_template` called first;
- a problem with no builders installs objective 0 and adds one empty constraint batch.

**The CSV data accessor** (`python/src/data_access.py`, `data_access.dfy`, module
`DataAccess`). `CsvHandler` stores the data directory it is given. `AddPostfix`
appends `.csv` to a file name unless the name already ends with it.

## Model

| member | source | states |
|---|---|---|
| Optimizer.DefaultParameters | python/src/optimizer.py:33-34 | with no arguments the thread count is 4 and the time limit 1800 seconds, both positive |
| Optimizer.OptimizedResult.DisplayBasicInformation | python/src/optimizer.py:68-75 | the banner is six lines: rules at positions 0, 2 and 5, the title at 1, and among them the status line and the objective-value line |
| Optimizer.OptimizedResult.DisplayResultSolve | python/src/optimizer.py:81-90 | the report always starts with the six banner lines; it continues with exactly the detail lines when the outcome is optimal and stops after the banner otherwise |
| Optimizer.OptimizedResult.DisplayResultDetail | python/src/optimizer.py:77-79 | the base detail hook emits no lines, so the base record's full report is the six banner lines alone, optimal or not |
| Optimizer.ResultOf | python/src/optimizer.py:222-234 | the record carries the accessor values for status, optimality and objective, the given elapsed time and the given constants; its objects are the outcome's objects when optimal and empty otherwise, so a record with objects is always optimal |
| Optimizer.ReservedNamesAreNotBuilders | python/src/optimizer.py:129-188 | no lifecycle step, accessor name or `run` carries a builder prefix, so discovery never calls an aggregation step or the driver back |
| Optimizer.PrefixesExclusive | python/src/optimizer.py:135-188 | a name carries at most one of the three builder prefixes, so each builder belongs to one step |
| Optimizer.Matching | python/src/optimizer.py:135-137 | discovery keeps no more members than the table lists, and every member it keeps carries the prefix; `Lifecycle.MatchingCount` states exactly which |
| Optimizer.TableWellFormed | python/src/optimizer.py:120-178 | adding the base templates a problem does not override keeps every name in the table distinct and clear of the reserved names |
| Optimizer.OptimizerInterface.constructor | python/src/optimizer.py:102-112 | the optimizer keeps the given parameters, `DefaultParameters()` when none are given, and the given backend `solve`; no constants, outcome or trace exist yet; its table is the listing `dir()` gives: the problem's methods and the missing templates, sorted by name, and it is well formed |
| Optimizer.EnumerationWellFormed | python/src/optimizer.py:120-188 | a name-sorted listing of the problem's methods and the missing templates holds every name once and none of the reserved names |
| Optimizer.NameBeforeAfterCommonPrefix | python/src/optimizer.py:135 | of two names with a common beginning, the one whose remainder sorts first sorts first |
| Optimizer.OptimizerInterface.SetConstants | python/src/optimizer.py:115-117 | the constants become exactly the given object; the model and the outcome are unchanged |
| Optimizer.OptimizerInterface.InvokeAll | python/src/optimizer.py:159-162 | the loop over the table calls each member that carries the prefix, in table order. The model receives their operations in that order, the trace gains exactly their calls, and the returned total is 0 plus the sum of their return values |
| Optimizer.ScanAggregates | python/src/optimizer.py:135-188 | visiting the table entry by entry, and calling only the members that carry the prefix, amounts to running exactly the matching builders in table order |
| Optimizer.OptimizerInterface.SetDecisionVariables | python/src/optimizer.py:129-137 | every `set_var_` member is called; their operations reach the model; the constants and the outcome are unchanged |
| Optimizer.OptimizerInterface.SetObjectiveFunction | python/src/optimizer.py:152-164 | every `objective_function_` member is called, and the model's objective becomes 0 plus the sum of their results |
| Optimizer.OptimizerInterface.SetConstraints | python/src/optimizer.py:180-188 | every `add_constraints_` member is called; their constraint batches reach the model |
| Optimizer.OptimizerInterface.Solve | python/src/optimizer.py:237-243 | the outcome becomes what the backend reports for the built model under the parameters; the model and the constants are unchanged |
| Optimizer.OptimizerInterface.MakeResult | python/src/optimizer.py:214-235 | the record is assembled from the accessor values, the argument and the stored constants. The trace shows `is_opt` first and `make_result_objects` only when optimal. Nothing else changes |
| Optimizer.OptimizerInterface.BuildProblem | python/src/optimizer.py:251-260 | after the first clock reading, the constants are stored and the three aggregation steps run in order, each followed by its log line; the model is the built model |
| Optimizer.OptimizerInterface.Run | python/src/optimizer.py:245-268 | the whole run. Its trace is the build, then the solve between its log lines and the second clock reading, then `make_result` and the report. The record is `make_result` over the elapsed time, which is non-negative under a non-decreasing clock |
| Lifecycle.MatchingCount | python/src/optimizer.py:135-137 | discovery keeps each member as many times as the table lists it when its name carries the prefix, and drops it otherwise |
| Lifecycle.MatchingPermutation | python/src/optimizer.py:135-137 | the members a step discovers, counted with multiplicity, do not depend on the order of the listing |
| Lifecycle.MatchingSorted | python/src/optimizer.py:135-137 | over a listing sorted by name, the discovered members are called in ascending name order |
| Lifecycle.TemplateSortsFirst | python/src/optimizer.py:180-188 | for a problem whose only method is `add_constraints_x`, the constraint step calls `add_constraints_template` first and `add_constraints_x` second, as `dir()`'s order dictates |
| Lifecycle.MatchingNames | python/src/optimizer.py:135-136 | a name is discovered exactly when it is in the table and carries the prefix |
| Lifecycle.NotInvokedUnlessMatched | python/src/optimizer.py:135-137 | a step never calls a name that is missing from the table or lacks its prefix |
| Lifecycle.MatchingInvokesOnce | python/src/optimizer.py:135-137 | in a table of distinct names, a step calls each matching member exactly once and every other member never |
| Lifecycle.RunFollowsLifecycle | python/src/optimizer.py:253-267 | the steps of a run are `set_constants`, `set_decision_variables`, `set_objective_function`, `set_constraints`, `solve`, `make_result`, `display_result_solve`, in that order and once each |
| Lifecycle.RunCount | python/src/optimizer.py:245-268 | outside the lifecycle steps, a run calls a name exactly as often as the three aggregation steps and the accessors together do |
| Lifecycle.RunInvokesEachBuilderOnce | python/src/optimizer.py:135-188 | in a well-formed table, a run calls every member that carries a builder prefix exactly once and every other member never |
| Lifecycle.RunAsksForObjectsOnlyWhenOptimal | python/src/optimizer.py:222-225 | a run calls `make_result_objects` once when the outcome is optimal and never otherwise |
| Lifecycle.RunTimesBuildAndSolve | python/src/optimizer.py:251-266 | the first clock reading comes right before `set_constants`; the second comes after `solve` and right before `make_result` |
| Lifecycle.RunReportsOutcome | python/src/optimizer.py:68-90 | the report at the end of every run logs the status line and the objective-value line |
| Lifecycle.SumOrderIndependent | python/src/optimizer.py:159-162 | summing the objective terms in any enumeration order gives the same objective |
| Lifecycle.TermsPermutation | python/src/optimizer.py:159-162 | listing the same builders in another order gives the same return values, counted with multiplicity |
| Lifecycle.ObjectiveIsSumOfOwnTerms | python/src/optimizer.py:140-164 | the installed objective is 0 plus the sum of the problem's own objective terms, whatever the order of the listing; an override of `objective_function_template` counts as one of those terms, and otherwise the template adds 0 |
| Lifecycle.TemplateOnlyMatching | python/src/optimizer.py:120-188 | with no builders of its own, each step discovers its own template and nothing else, whatever the order of the listing |
| Optimizer.SetVarTemplate | python/src/optimizer.py:120-127 | the member named `set_var_template`; its name carries the `set_var_` prefix and no other (`Lifecycle.TemplatesNamed`), so only the variable step discovers it; it changes nothing, and its value (`None` in the source, 0 here) is ignored by that step (`Lifecycle.SingleTemplateEffects`) |
| Optimizer.ObjectiveFunctionTemplate | python/src/optimizer.py:140-150 | the member named `objective_function_template`; its name carries the `objective_function_` prefix and no other (`Lifecycle.TemplatesNamed`), so only the objective step discovers it, and it contributes 0 (`Lifecycle.SingleTemplateEffects`) |
| Optimizer.AddConstraintsTemplate | python/src/optimizer.py:167-178 | the member named `add_constraints_template`; its name carries the `add_constraints_` prefix and no other (`Lifecycle.TemplatesNamed`), so only the constraints step discovers it, and it hands the model one empty constraint batch (`Lifecycle.SingleTemplateEffects`) |
| Lifecycle.SingleTemplateEffects | python/src/optimizer.py:120-178 | `set_var_template` leaves the model unchanged, `objective_function_template` contributes 0, and `add_constraints_template` adds one empty constraint batch |
| Lifecycle.TemplateOnlyProblem | python/src/optimizer.py:120-188 | a problem with no builders of its own builds a model whose objective is 0 and whose constraints gained one empty batch, nothing else changed, whatever the order of the listing |
| DataAccess.CsvHandler.constructor | python/src/data_access.py:32-34 | the handler keeps the given data path unchanged |
| DataAccess.CsvHandler.AddPostfix | python/src/data_access.py:36-41 | the result ends in `.csv` and starts with the given name. It is the name itself exactly when the name already ends in `.csv`; otherwise it is four characters longer |
| DataAccess.AddPostfixDetermined | python/src/data_access.py:39-41 | the contract of `AddPostfix` fixes the result: the name unchanged if it ends in `.csv`, the name plus `.csv` otherwise |
| DataAccess.AddPostfixIdempotent | python/src/data_access.py:36-41 | normalising a name twice gives the same name as normalising it once |
| DataAccess.AddPostfixIgnoresPath | python/src/data_access.py:32-41 | two handlers over different data paths normalise every name alike |
| DataAccess.AddPostfixExamples | python/src/data_access.py:38-41 | `report` becomes `report.csv`, and `report.csv` stays as it is |

## Left out

- Reflection and dynamic evaluation: the listing `dir(self)` returns is a constructor argument. Its order is pinned by the constructor's precondition (sorted by name) rather than computed. Attributes that are not methods and inherited dunder names are not in the listing. Neither are the base class's lifecycle methods and `run`, nor the problem's `solve` and accessor implementations, which the `solver` function stands for. A problem that overrides a lifecycle step is not modelled. None of these names carries a builder prefix (`Optimizer.ReservedNamesAreNotBuilders`).
- Builder bodies see only the stored constants. A builder that reads other instance state, or the model it is building, is not modelled.
- The backend model handle `_model` is never assigned in the base class, and its `minimize` and `add_constraints` are foreign code. The model keeps only a record of what was handed to it.
- Objective contributions are `int`; the float objective value is `real`, and its formatting in the log line is not modelled.
- `time.time()` is replaced by two integer clock readings that `Run` takes as parameters.
- The logger is replaced by log lines appended to the trace. Formatting and output are not modelled.
- Exceptions raised by a builder or by the backend's `solve` are not modelled. The model covers only a run that completes. The accessors and `solve` are abstract methods of an `ABCMeta` class (python/src/optimizer.py:93, 191-212, 237-238), so a subclass that lacks any of them cannot be instantiated; no unimplemented accessor is ever reached.
- Optimizer.OptimizerInterface.MakeResult: requires `constants.Some?` and `outcome.Some?`. In the source, `make_result` without a prior `set_constants` raises `AttributeError` on `self._constants` (python/src/optimizer.py:231); that error path is not modelled. Without a prior `solve`, the source just reads whatever the subclass's accessors return. The model instead fixes the accessor values when `Solve` runs, so it needs an outcome to read; calling `make_result` before `solve` is not modelled.
- Optimizer.OptimizerInterface.BuildProblem: the first half of `run`, split off as its own method; it has no counterpart in the source.
- Optimizer.OptimizedResult.DisplayResultSolve: the detail hook is passed in as its lines. A problem-specific record that overrides `display_result_detail` supplies its own lines; the base hook prints nothing (`DisplayResultDetail`).
- `display_result_solve` is a function of the record, so it cannot change the record; calling it twice gives the same lines by construction, and no separate lemma states it.
- `OptimizationConstants` is an empty placeholder class; the constants are a type parameter.
- `CsvHandler.read` and `write` delegate to abstract bodies that return `None`. `CannotReadError` is declared (python/src/data_access.py:12-14) but never raised, so there is no behaviour to model.
- The module-level read of `config.ini` that supplies the default data path is file I/O; the path is a constructor argument instead.
- `python/src/profiler.py` is not part of this model. It runs a profiler and reads and writes files.
