/**
  The problem and solver classes of a variational solve, reduced to the
  state they keep about solver options: the options prefix, the counter
  that numbers auto-prefixed solvers, the parameters dict and the global
  PETSc options database it is read from and cleaned out of. The PETSc
  solver object itself is not modelled.
 */
module VariationalSolver {
  import opened Strings
  import opened SolverOptions

  /** PETSc's process-wide options database, `PETSc.Options()`. */
  class OptionsDatabase {
    var entries: Database

    constructor (entries: Database)
      ensures this.entries == entries
    {
      this.entries := entries;
    }
  }

  /** The class attribute `NonlinearVariationalSolver._id`. Auto prefixes are
      unique only when every solver is created with the same counter object. */
  class SolverIds {
    var id: nat

    constructor ()
      ensures id == 0
    {
      id := 0;
    }
  }

  /** A variational problem, nonlinear `F(u; v) = 0` or linear `a(u, v) = L(v)`.
      `isMixed` says whether the unknown lives in a mixed function space. */
  class VariationalProblem {
    const isMixed: bool
    var constantJacobian: bool

    constructor Nonlinear(isMixed: bool)
      ensures this.isMixed == isMixed
      ensures !constantJacobian
    {
      this.isMixed := isMixed;
      constantJacobian := false;
    }

    /** The base initialiser clears the flag; the linear one then records its argument. */
    constructor Linear(isMixed: bool, constantJacobian: bool := true)
      ensures this.isMixed == isMixed
      ensures this.constantJacobian == constantJacobian
    {
      this.isMixed := isMixed;
      this.constantJacobian := false;
      new;
      this.constantJacobian := constantJacobian;
    }
  }

  /** The prefix a new solver uses: the caller's, or a numbered one that takes the next id. */
  method ChoosePrefix(optionsPrefix: Option<string>, ids: SolverIds) returns (prefix: string, auto: bool)
    modifies ids
    ensures optionsPrefix.Some? ==> prefix == optionsPrefix.value && !auto && ids.id == old(ids.id)
    ensures optionsPrefix.None? ==> prefix == AutoPrefix(old(ids.id)) && auto && ids.id == old(ids.id) + 1
  {
    if optionsPrefix.Some? {
      prefix, auto := optionsPrefix.value, false;
    } else {
      prefix, auto := AutoPrefix(ids.id), true;
      ids.id := ids.id + 1;
    }
  }

  /** The mixed-problem default followed by the command-line override loop,
      which visits the database entries in no particular order. */
  method ResolveParameters(user: Params, isMixed: bool, db: Database, prefix: string) returns (parameters: Params)
    ensures parameters == NonlinearParameters(user, isMixed, db, prefix)
  {
    parameters := user;
    if isMixed {
      parameters := SetDefault(parameters, "pc_type", MixedPcType);
    }
    ghost var start := parameters;
    var pending := db.Keys;
    while pending != {}
      invariant pending <= db.Keys
      invariant parameters == Override(start, db - pending, prefix)
      decreases pending
    {
      var key :| key in pending;
      OverrideAddEntry(start, db - pending, prefix, key, db[key]);
      assert db - (pending - {key}) == (db - pending)[key := db[key]];
      if StartsWith(key, prefix) {
        parameters := parameters[StripPrefix(key, prefix) := Str(db[key])];
      }
      pending := pending - {key};
    }
    assert db - pending == db;
  }

  /** `NonlinearVariationalSolver`, and `LinearVariationalSolver` through the `Linear` constructor. */
  class Solver {
    /** The options prefix; `None` once destruction has dropped it. */
    var optPrefix: Option<string>
    var autoPrefix: bool
    var parameters: Params
    const problem: VariationalProblem

    constructor Nonlinear(problem: VariationalProblem, solverParameters: Params, optionsPrefix: Option<string>,
                          ids: SolverIds, opts: OptionsDatabase)
      modifies ids
      ensures this.problem == problem
      ensures optionsPrefix.Some? ==> optPrefix == optionsPrefix && !autoPrefix && ids.id == old(ids.id)
      ensures optionsPrefix.None? ==>
        optPrefix == Some(AutoPrefix(old(ids.id))) && autoPrefix && ids.id == old(ids.id) + 1
      ensures optPrefix.Some? && parameters == NonlinearParameters(solverParameters, problem.isMixed, opts.entries, optPrefix.value)
    {
      var prefix, auto := ChoosePrefix(optionsPrefix, ids);
      optPrefix, autoPrefix := Some(prefix), auto;
      this.problem := problem;
      var resolved := ResolveParameters(solverParameters, problem.isMixed, opts.entries, prefix);
      parameters := resolved;
    }

    /** The nonlinear initialisation, then `snes_type` and `ksp_rtol` defaults. */
    constructor Linear(problem: VariationalProblem, solverParameters: Params, optionsPrefix: Option<string>,
                       ids: SolverIds, opts: OptionsDatabase)
      modifies ids
      ensures this.problem == problem
      ensures optionsPrefix.Some? ==> optPrefix == optionsPrefix && !autoPrefix && ids.id == old(ids.id)
      ensures optionsPrefix.None? ==>
        optPrefix == Some(AutoPrefix(old(ids.id))) && autoPrefix && ids.id == old(ids.id) + 1
      ensures optPrefix.Some? && parameters == LinearParameters(solverParameters, problem.isMixed, opts.entries, optPrefix.value)
    {
      var prefix, auto := ChoosePrefix(optionsPrefix, ids);
      optPrefix, autoPrefix := Some(prefix), auto;
      this.problem := problem;
      var resolved := ResolveParameters(solverParameters, problem.isMixed, opts.entries, prefix);
      parameters := resolved;
      new;
      SetDefaultParameter("snes_type", LinearSnesType);
      SetDefaultParameter("ksp_rtol", LinearKspRtol);
    }

    /** `self.parameters.setdefault(key, v)`. */
    method SetDefaultParameter(key: string, v: Value)
      modifies this
      ensures parameters == SetDefault(old(parameters), key, v)
      ensures optPrefix == old(optPrefix) && autoPrefix == old(autoPrefix)
    {
      parameters := SetDefault(parameters, key, v);
    }

    /** The `parameters` setter: replaces the whole dict (pushing it to PETSc is not modelled). */
    method SetParameters(val: Params)
      modifies this
      ensures parameters == val
      ensures optPrefix == old(optPrefix) && autoPrefix == old(autoPrefix)
    {
      parameters := val;
    }

    /** `__del__`: an auto-prefixed solver deletes `prefix + k` for each of its
        parameters `k` from the database and then drops its prefix. */
    method Destroy(opts: OptionsDatabase)
      modifies this, opts
      ensures parameters == old(parameters) && autoPrefix == old(autoPrefix)
      ensures old(autoPrefix && optPrefix.Some?) ==>
        opts.entries == Cleaned(old(opts.entries), old(optPrefix.value), parameters.Keys) && optPrefix == None
      ensures !old(autoPrefix && optPrefix.Some?) ==>
        opts.entries == old(opts.entries) && optPrefix == old(optPrefix)
    {
      if autoPrefix && optPrefix.Some? {
        var prefix := optPrefix.value;
        var pending := parameters.Keys;
        while pending != {}
          modifies opts
          invariant pending <= parameters.Keys
          invariant opts.entries == Cleaned(old(opts.entries), prefix, parameters.Keys - pending)
          decreases pending
        {
          var k :| k in pending;
          CleanedStep(old(opts.entries), prefix, parameters.Keys - pending, k);
          assert parameters.Keys - (pending - {k}) == (parameters.Keys - pending) + {k};
          opts.entries := opts.entries - {prefix + k};
          pending := pending - {k};
        }
        optPrefix := None;
      }
    }
  }

  /** Two solvers created one after the other without a prefix get different prefixes. */
  method CreateTwoAutoPrefixed(problem: VariationalProblem, p1: Params, p2: Params,
                               ids: SolverIds, opts: OptionsDatabase) returns (s1: Solver, s2: Solver)
    modifies ids
    ensures s1.optPrefix == Some(AutoPrefix(old(ids.id))) && s2.optPrefix == Some(AutoPrefix(old(ids.id) + 1))
    ensures s1.optPrefix != s2.optPrefix
    ensures ids.id == old(ids.id) + 2
  {
    s1 := new Solver.Nonlinear(problem, p1, None, ids, opts);
    s2 := new Solver.Nonlinear(problem, p2, None, ids, opts);
    AutoPrefixInjective(old(ids.id), old(ids.id) + 1);
  }

  /** A second destruction leaves the database and the solver as the first one left them. */
  method DestroyTwice(s: Solver, opts: OptionsDatabase)
    modifies s, opts
    ensures s.parameters == old(s.parameters) && s.autoPrefix == old(s.autoPrefix)
    ensures s.optPrefix == if old(s.autoPrefix) then None else old(s.optPrefix)
    ensures opts.entries == if old(s.autoPrefix && s.optPrefix.Some?)
      then Cleaned(old(opts.entries), old(s.optPrefix.value), s.parameters.Keys)
      else old(opts.entries)
  {
    s.Destroy(opts);
    ghost var afterFirst := opts.entries;
    s.Destroy(opts);
    assert opts.entries == afterFirst;
  }

  /** An auto-prefixed linear solver created and then destroyed leaves no
      option under its prefix, and every other option as it was. */
  method CreateThenDestroy(problem: VariationalProblem, user: Params, ids: SolverIds, opts: OptionsDatabase)
    returns (s: Solver)
    modifies ids, opts
    ensures s.optPrefix == None && ids.id == old(ids.id) + 1
    ensures forall key :: key in opts.entries ==> !StartsWith(key, AutoPrefix(old(ids.id)))
    ensures opts.entries ==
      map key | key in old(opts.entries) && !StartsWith(key, AutoPrefix(old(ids.id))) :: old(opts.entries)[key]
  {
    ghost var db, prefix := opts.entries, AutoPrefix(ids.id);
    s := new Solver.Linear(problem, user, None, ids, opts);
    s.Destroy(opts);
    forall key | key in opts.entries ensures !StartsWith(key, prefix) {
      CleanupRemovesSolverOptions(db, prefix, s.parameters.Keys, key);
    }
    forall key | key in db && !StartsWith(key, prefix)
      ensures key in opts.entries && opts.entries[key] == db[key]
    {
      CleanedSpec(db, prefix, s.parameters.Keys, key);
    }
    forall key | key in opts.entries ensures key in db && opts.entries[key] == db[key] {
      CleanedSpec(db, prefix, s.parameters.Keys, key);
    }
  }
}
