# Solver-option resolution of Firedrake's variational solvers

This project models how `NonlinearVariationalSolver` and
`LinearVariationalSolver` in `firedrake/variational_solver.py` decide which
PETSc options a solver runs with, and how they clean the global PETSc options
database up when a solver is destroyed:

- a solver uses the caller's `options_prefix`, or else a fresh
  `firedrake_snes_<n>_` built from the class-wide counter `_id`, which it then
  increments;
- a problem on a mixed function space gets `pc_type = jacobi` unless the user
  chose a `pc_type`;
- every database option `prefix + k` then overrides parameter `k`;
- a linear solver afterwards adds `snes_type = ksponly` and `ksp_rtol = 1e-7`
  where neither the user nor the command line set them;
- on destruction, an auto-prefixed solver deletes `prefix + k` for each of its
  parameters `k` and drops its prefix; a solver with a caller-given prefix
  leaves the database alone;
- nonlinear problems record a non-constant Jacobian, linear ones the
  `constant_jacobian` argument (default true).

Files:

- `strings.dfy` (module `Strings`): `startswith`, prefix slicing, `'%d'`
  formatting of the counter and its inverse.
- `solver_options.dfy` (module `SolverOptions`): the order-free specification
  of the options logic as functions on maps, and the lemmas about it: auto
  prefixes are distinct and never prefix one another's option names,
  override precedence, which database entries matter, what cleanup removes.
- `variational_solver.dfy` (module `VariationalSolver`): the classes. The
  options database and the `_id` counter are objects passed to every solver;
  distinct auto prefixes (`AutoPrefixInjective`) hold only when callers pass
  one and the same counter object, as `CreateTwoAutoPrefixed` does;
  the solver's constructors, `parameters` setter and `Destroy` (`__del__`)
  change state step by step, with loops over the database and over the
  parameters, and are proved to compute the specification functions.

Python class inheritance (`LinearVariationalProblem` and
`LinearVariationalSolver` extend the nonlinear classes) is modelled by a
second named constructor, `Linear`, on one class for problems and one for
solvers. The override loop visits database entries in no fixed order, as
Python 2 dict iteration does; the result is proved not to depend on it.

## Model

| member | source | states |
|---|---|---|
| Strings.StripPrefix | firedrake/variational_solver.py:124-125 | `k[len(prefix):]` of a key that starts with the prefix is the suffix that, appended to the prefix, gives the key back |
| Strings.StartsWith | firedrake/variational_solver.py:124 | `k.startswith(prefix)`: the first `len(prefix)` characters of k are the prefix; `StripPrefix`'s ensures (such a key is the prefix followed by its stripped rest) and `StartsWithAppend` (every `prefix + k` starts with the prefix) characterise it |
| Strings.StartsWithAppend | firedrake/variational_solver.py:124-125 | every `prefix + k` starts with the prefix, and slicing the prefix off gives k back: the round trip opposite to `StripPrefix`'s |
| Strings.NatToString | firedrake/variational_solver.py:105 | `'%d'` of the counter is a non-empty run of decimal digits with no leading zero |
| Strings.ParseNatToString | firedrake/variational_solver.py:105 | reading the formatted counter back gives the counter (round trip) |
| Strings.NatToStringInjective | firedrake/variational_solver.py:105 | different counter values format differently |
| SolverOptions.AutoPrefix | firedrake/variational_solver.py:105 | `'firedrake_snes_%d_' % id`: the fixed head, the decimal id, an underscore; its ensures says it starts with the head and ends in `_`, and `AutoPrefixShape`, `AutoPrefixInjective` and `AutoPrefixesIsolated` characterise it further |
| SolverOptions.AutoPrefixShape | firedrake/variational_solver.py:105 | an auto prefix is `firedrake_snes_`, then only digits, then `_` |
| SolverOptions.AutoPrefixInjective | firedrake/variational_solver.py:104-107 | solvers given different ids get different auto prefixes |
| SolverOptions.AutoPrefixesIsolated | firedrake/variational_solver.py:104-107 | an option name that starts with the auto prefixes of ids a and b has a == b, so no auto-prefixed solver reads or deletes another one's options |
| SolverOptions.SetDefault | firedrake/variational_solver.py:119 | `setdefault` adds the key with the default when absent and changes no existing value |
| SolverOptions.MixedDefault | firedrake/variational_solver.py:118-119 | `parameters.setdefault('pc_type', 'jacobi')` when the problem is mixed: the keys gain `pc_type` exactly for a mixed problem, every existing value is kept, and `jacobi` is stored only where no `pc_type` was set; `NonlinearParameters` builds on it |
| SolverOptions.CommandLineKeys | firedrake/variational_solver.py:123-125 | the stripped names `k[len(prefix):]` of the database keys that start with the prefix; `CommandLineKeysSpec` characterises it |
| SolverOptions.CommandLineKeysSpec | firedrake/variational_solver.py:123-125 | the parameter names the database sets under a prefix are exactly the k with `prefix + k` in the database |
| SolverOptions.Override | firedrake/variational_solver.py:121-125 | after the override, k is a parameter iff it was one or `prefix + k` is in the database; a prefixed database value wins; every other parameter keeps its value |
| SolverOptions.OverrideAddEntry | firedrake/variational_solver.py:123-125 | one more database entry sets its stripped key if it carries the prefix and changes nothing otherwise |
| SolverOptions.NonlinearParameters | firedrake/variational_solver.py:117-125 | the parameters after construction: keys are user keys, prefixed database keys and `pc_type` for a mixed problem; a prefixed command-line value beats both the user value and `jacobi`; an un-overridden user value is kept; `jacobi` appears only for a mixed problem that set no `pc_type` anywhere |
| SolverOptions.LinearDefaults | firedrake/variational_solver.py:234-235 | the two `setdefault` calls: the keys gain `snes_type` and `ksp_rtol`, every existing value is kept, and `ksponly` and `1e-7` are stored only where those keys were absent; `LinearParameters` builds on it |
| SolverOptions.LinearParameters | firedrake/variational_solver.py:232-235 | the linear solver's keys are the nonlinear ones plus `snes_type` and `ksp_rtol`; a prefixed command-line value still wins, an un-overridden user value and the mixed `jacobi` default are kept, and `ksponly` and `1e-7` appear only where neither the user nor the command line set those keys |
| SolverOptions.OnlyPrefixedOptionsMatter | firedrake/variational_solver.py:123-125 | two databases that agree on all options under the prefix give the same parameters: unprefixed entries never affect them |
| SolverOptions.Cleaned | firedrake/variational_solver.py:143-144 | the database after `del opts[prefix + k]` for every parameter k: its ensures says cleanup only removes entries and changes no value; `CleanedSpec` and `CleanedStep` characterise it exactly |
| SolverOptions.CleanedSpec | firedrake/variational_solver.py:141-144 | cleanup removes an entry iff it is `prefix + k` for a parameter k, and keeps every other entry's value |
| SolverOptions.CleanedStep | firedrake/variational_solver.py:143-144 | deleting one more parameter's option removes exactly `prefix + k` |
| SolverOptions.CleanupRemovesSolverOptions | firedrake/variational_solver.py:138-145 | when the parameters cover every option under the prefix, as construction makes them, cleanup leaves no option under the prefix |
| SolverOptions.CleanupSparesOtherSolvers | firedrake/variational_solver.py:138-145 | cleanup by auto-prefixed solver a keeps every option of a different auto-prefixed solver b, with its value |
| VariationalSolver.OptionsDatabase.constructor | firedrake/variational_solver.py:122 | the database holds the given entries |
| VariationalSolver.SolverIds.constructor | firedrake/variational_solver.py:69 | the solver counter starts at 0 |
| VariationalSolver.VariationalProblem.Nonlinear | firedrake/variational_solver.py:59 | a nonlinear problem's Jacobian is never marked constant |
| VariationalSolver.VariationalProblem.Linear | firedrake/variational_solver.py:181-212 | a linear problem's constant-Jacobian flag is its argument, true by default, overriding the base initialiser's false |
| VariationalSolver.ChoosePrefix | firedrake/variational_solver.py:101-107 | a given prefix is used as is, not auto, counter unchanged; otherwise the prefix is built from the old counter, auto, and the counter goes up by exactly one |
| VariationalSolver.ResolveParameters | firedrake/variational_solver.py:117-125 | the mixed default and the override loop, in any iteration order over the database, compute `NonlinearParameters` |
| VariationalSolver.Solver.Nonlinear | firedrake/variational_solver.py:97-136 | a new nonlinear solver has the chosen prefix and auto flag, the counter effect of `ChoosePrefix`, and parameters `NonlinearParameters` of the user dict, the problem's mixedness and the database |
| VariationalSolver.Solver.Linear | firedrake/variational_solver.py:232-236 | a new linear solver is the nonlinear one with parameters `LinearParameters` |
| VariationalSolver.Solver.SetDefaultParameter | firedrake/variational_solver.py:234-235 | `parameters.setdefault` changes the parameters as `SetDefault` and nothing else |
| VariationalSolver.Solver.SetParameters | firedrake/variational_solver.py:151-155 | the setter replaces the parameters dict and leaves the prefix alone |
| VariationalSolver.Solver.Destroy | firedrake/variational_solver.py:138-145 | an auto-prefixed solver that still has its prefix turns the database into `Cleaned` and drops the prefix; otherwise neither the database nor the prefix changes; parameters are kept |
| VariationalSolver.CreateTwoAutoPrefixed | firedrake/variational_solver.py:104-107 | two solvers created in sequence without a prefix get prefixes from consecutive ids, which differ, and the counter rises by two |
| VariationalSolver.DestroyTwice | firedrake/variational_solver.py:141-145 | a second destruction changes nothing beyond what the first did: parameters and the auto flag are kept, an auto-prefixed solver ends without a prefix and a caller-given prefix survives, and the database is cleaned once for an auto-prefixed solver and untouched otherwise |
| VariationalSolver.CreateThenDestroy | firedrake/variational_solver.py:138-145 | creating and destroying an auto-prefixed linear solver takes exactly one id and leaves the database equal to the old one with every option under its prefix removed and nothing added |

## Left out

- The PETSc solver object and everything done with it (`SNES().create`, `setOptionsPrefix`, `setDM`, the function, Jacobian and null-space callbacks, the solve itself, the convergence check): foreign library calls.
- `solving_utils.update_parameters`, the push of the parameters to PETSc done by the setter (line 155), by the linear constructor (line 236) and before every `solve` (line 170): treated as a no-op. The push evidently writes each parameter `k` into the global database as `prefix + k` (the cleanup at lines 139-144 deletes exactly those names), so the model's database never holds a solver's own parameters. Consequently the model does not show that a solver with a caller-given prefix leaves its parameters in the database (line 141 skips its cleanup), nor that a later solver created with the same prefix reads them back as command-line overrides (lines 123-125) and loses its own dict values for those keys.
- `solving_utils._extract_kwargs`: the solver takes the parameters dict and the optional prefix directly; the null space is not modelled.
- `solving_utils._SNESContext`: only its `is_mixed` answer is kept, as the problem's `isMixed` field.
- The UFL side of the problems (`F`, `J`, `Jp`, `bcs`, `derivative`, `action`, the `dm` property, form-compiler parameters, `nest`): symbolic algebra in other libraries.
- The `assert isinstance(...)` checks on the problem and on the dict given to the setter: the types of the model make them always hold.
- A constructor that fails part-way: the model has no failure paths inside construction, so `Destroy` always sees a solver with parameters.
- Values in the options database are strings; parameter values are strings, booleans, integers or a real kept as its literal text (`ksp_rtol` is `Real("1.0e-7")`); no floating point is modelled.
- Deleting an option the database does not hold is modelled as doing nothing.
- `firedrake/mg/interface.py` (prolongation, restriction, injection): PyOP2 parallel kernels and floating-point weights over mesh hierarchies that are not part of this model.
- The tests of function-space abbreviations and of the observation operator: they exercise UFL element algebra and floating-point interpolation, not this module.
