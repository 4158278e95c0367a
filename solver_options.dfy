/**
  How a variational solver resolves its PETSc options, as order-free
  specification functions: the options prefix, the mixed-problem default,
  the command-line override, the linear-solver defaults and the cleanup of
  the global options database. The classes in module `VariationalSolver`
  are proved to compute exactly these.
 */
module SolverOptions {
  import opened Strings

  datatype Option<T> = None | Some(value: T)

  /** A solver parameter value. Numbers that only pass through to PETSc
      (such as a tolerance) are kept as their literal text. */
  datatype Value = Str(text: string) | Bool(flag: bool) | Int(number: int) | Real(literal: string)

  /** A solver-parameters dict: PETSc option name (without prefix) to value. */
  type Params = map<string, Value>

  /** PETSc's global options database: full option name to its string value. */
  type Database = map<string, string>

  const AutoPrefixHead: string := "firedrake_snes_"

  const MixedPcType: Value := Str("jacobi")
  const LinearSnesType: Value := Str("ksponly")
  const LinearKspRtol: Value := Real("1.0e-7")

  /** The prefix `'firedrake_snes_%d_' % id` of a solver created without one. */
  function AutoPrefix(id: nat): (p: string)
    ensures StartsWith(p, AutoPrefixHead) && p[|p| - 1] == '_'
  {
    AutoPrefixHead + NatToString(id) + "_"
  }

  /** Solvers numbered differently get different prefixes. */
  lemma AutoPrefixInjective(a: nat, b: nat)
    requires a != b
    ensures AutoPrefix(a) != AutoPrefix(b)
  {
    var pa, pb := AutoPrefix(a), AutoPrefix(b);
    if pa == pb {
      assert |NatToString(a)| == |NatToString(b)|;
      assert NatToString(a) == pa[|AutoPrefixHead|..|pa| - 1];
      assert NatToString(b) == pb[|AutoPrefixHead|..|pb| - 1];
      NatToStringInjective(a, b);
    }
  }

  /** An auto prefix is the fixed head, a run of digits, then one underscore. */
  lemma AutoPrefixShape(id: nat)
    ensures var p, d := AutoPrefix(id), NatToString(id);
      && p[|AutoPrefixHead| + |d|] == '_'
      && forall i :: |AutoPrefixHead| <= i < |AutoPrefixHead| + |d| ==> IsDigit(p[i])
  {
  }

  lemma AutoPrefixIsolatedOrdered(a: nat, b: nat, key: string)
    requires StartsWith(key, AutoPrefix(a)) && StartsWith(key, AutoPrefix(b))
    requires |AutoPrefix(a)| <= |AutoPrefix(b)|
    ensures a == b
  {
    var pa, pb := AutoPrefix(a), AutoPrefix(b);
    var da, db := NatToString(a), NatToString(b);
    var h := |AutoPrefixHead|;
    assert pa == key[..|pa|] == pb[..|pa|];
    if |da| < |db| {
      AutoPrefixShape(a);
      AutoPrefixShape(b);
      assert false;
    }
    assert |pa| == |pb|;
    if a != b {
      AutoPrefixInjective(a, b);
    }
  }

  /** No option name carries the prefixes of two different auto-prefixed
      solvers: `firedrake_snes_1_` never starts an option of solver 12. */
  lemma AutoPrefixesIsolated(a: nat, b: nat, key: string)
    requires StartsWith(key, AutoPrefix(a)) && StartsWith(key, AutoPrefix(b))
    ensures a == b
  {
    if |AutoPrefix(a)| <= |AutoPrefix(b)| {
      AutoPrefixIsolatedOrdered(a, b, key);
    } else {
      AutoPrefixIsolatedOrdered(b, a, key);
    }
  }

  /** Python's `d.setdefault(key, v)`, on the dict's value. */
  function SetDefault(p: Params, key: string, v: Value): (r: Params)
    ensures r.Keys == p.Keys + {key}
    ensures r[key] == (if key in p then p[key] else v)
    ensures forall k :: k in p ==> r[k] == p[k]
  {
    if key in p then p else p[key := v]
  }

  /** A mixed problem gets `pc_type = jacobi` unless the user chose a `pc_type`. */
  function MixedDefault(p: Params, isMixed: bool): (r: Params)
    ensures forall k :: k in r <==> k in p || (isMixed && k == "pc_type")
    ensures forall k :: k in p ==> k in r && r[k] == p[k]
    ensures isMixed && "pc_type" !in p ==> "pc_type" in r && r["pc_type"] == MixedPcType
  {
    if isMixed then SetDefault(p, "pc_type", MixedPcType) else p
  }

  /** The parameter names that the database sets under `prefix`. */
  function CommandLineKeys(db: Database, prefix: string): set<string>
  {
    set key | key in db && StartsWith(key, prefix) :: StripPrefix(key, prefix)
  }

  lemma CommandLineKeysSpec(db: Database, prefix: string)
    ensures forall k :: k in CommandLineKeys(db, prefix) <==> prefix + k in db
  {
  }

  /** Every database option `prefix + k` overrides parameter `k`. */
  function Override(p: Params, db: Database, prefix: string): (r: Params)
    ensures forall k :: k in r <==> k in p || prefix + k in db
    ensures forall k :: k in r && prefix + k in db ==> r[k] == Str(db[prefix + k])
    ensures forall k :: k in p && prefix + k !in db ==> r[k] == p[k]
  {
    CommandLineKeysSpec(db, prefix);
    map k | k in p.Keys + CommandLineKeys(db, prefix) ::
      if prefix + k in db then Str(db[prefix + k]) else p[k]
  }

  /** The effect of one more database entry on the override. */
  lemma OverrideAddEntry(p: Params, db: Database, prefix: string, key: string, v: string)
    requires key !in db
    ensures Override(p, db[key := v], prefix) ==
      if StartsWith(key, prefix) then Override(p, db, prefix)[StripPrefix(key, prefix) := Str(v)]
      else Override(p, db, prefix)
  {
  }

  /** `NonlinearVariationalSolver.__init__`: the mixed default, then the
      command-line override. A prefixed command-line option wins over the
      user dict and the `jacobi` default; a user value not overridden is kept;
      `pc_type = jacobi` appears only for a mixed problem that set neither. */
  function NonlinearParameters(user: Params, isMixed: bool, db: Database, prefix: string): (r: Params)
    ensures forall k :: k in r <==> k in user || prefix + k in db || (isMixed && k == "pc_type")
    ensures forall k :: prefix + k in db ==> k in r && r[k] == Str(db[prefix + k])
    ensures forall k :: k in user && prefix + k !in db ==> k in r && r[k] == user[k]
    ensures isMixed && "pc_type" !in user && prefix + "pc_type" !in db ==>
      "pc_type" in r && r["pc_type"] == MixedPcType
  {
    Override(MixedDefault(user, isMixed), db, prefix)
  }

  /** `snes_type = ksponly` and `ksp_rtol = 1e-7` where absent. */
  function LinearDefaults(p: Params): (r: Params)
    ensures forall k :: k in r <==> k in p || k == "snes_type" || k == "ksp_rtol"
    ensures forall k :: k in p ==> k in r && r[k] == p[k]
    ensures "snes_type" !in p ==> "snes_type" in r && r["snes_type"] == LinearSnesType
    ensures "ksp_rtol" !in p ==> "ksp_rtol" in r && r["ksp_rtol"] == LinearKspRtol
  {
    SetDefault(SetDefault(p, "snes_type", LinearSnesType), "ksp_rtol", LinearKspRtol)
  }

  /** `LinearVariationalSolver.__init__`: the linear defaults fill in
      `snes_type` and `ksp_rtol` after the nonlinear initialisation, so they
      change no value that the user or the command line set. */
  function LinearParameters(user: Params, isMixed: bool, db: Database, prefix: string): (r: Params)
    ensures forall k :: k in r <==>
      k in user || prefix + k in db || (isMixed && k == "pc_type") || k == "snes_type" || k == "ksp_rtol"
    ensures forall k :: prefix + k in db ==> k in r && r[k] == Str(db[prefix + k])
    ensures forall k :: k in user && prefix + k !in db ==> k in r && r[k] == user[k]
    ensures isMixed && "pc_type" !in user && prefix + "pc_type" !in db ==>
      "pc_type" in r && r["pc_type"] == MixedPcType
    ensures "snes_type" !in user && prefix + "snes_type" !in db ==>
      "snes_type" in r && r["snes_type"] == LinearSnesType
    ensures "ksp_rtol" !in user && prefix + "ksp_rtol" !in db ==>
      "ksp_rtol" in r && r["ksp_rtol"] == LinearKspRtol
  {
    LinearDefaults(NonlinearParameters(user, isMixed, db, prefix))
  }

  /** Database entries outside the prefix never reach the parameters. */
  lemma OnlyPrefixedOptionsMatter(user: Params, isMixed: bool, db1: Database, db2: Database, prefix: string)
    requires forall key :: StartsWith(key, prefix) ==> (key in db1 <==> key in db2)
    requires forall key :: StartsWith(key, prefix) && key in db1 ==> db1[key] == db2[key]
    ensures NonlinearParameters(user, isMixed, db1, prefix) == NonlinearParameters(user, isMixed, db2, prefix)
  {
  }

  /** The option names `prefix + k` for the parameter names `keys`. */
  function OptionNames(prefix: string, keys: set<string>): set<string>
  {
    set k | k in keys :: prefix + k
  }

  /** `__del__`: the database after deleting `prefix + k` for every parameter `k`. */
  function Cleaned(db: Database, prefix: string, keys: set<string>): (r: Database)
    ensures r.Keys <= db.Keys
    ensures forall key :: key in r ==> r[key] == db[key]
  {
    db - OptionNames(prefix, keys)
  }

  /** Cleanup removes exactly the options named `prefix + k`, and keeps every other entry's value. */
  lemma CleanedSpec(db: Database, prefix: string, keys: set<string>, key: string)
    ensures key in Cleaned(db, prefix, keys) <==>
      key in db && !(StartsWith(key, prefix) && StripPrefix(key, prefix) in keys)
    ensures key in Cleaned(db, prefix, keys) ==> Cleaned(db, prefix, keys)[key] == db[key]
  {
  }

  /** Deleting one more parameter's option, as the cleanup loop does. */
  lemma CleanedStep(db: Database, prefix: string, done: set<string>, k: string)
    ensures Cleaned(db, prefix, done + {k}) == Cleaned(db, prefix, done) - {prefix + k}
  {
  }

  /** Cleanup by a solver whose parameters cover every option under its
      prefix (as construction ensures) leaves no option under that prefix. */
  lemma CleanupRemovesSolverOptions(db: Database, prefix: string, keys: set<string>, key: string)
    requires forall k :: prefix + k in db ==> k in keys
    requires key in Cleaned(db, prefix, keys)
    ensures !StartsWith(key, prefix)
  {
    CleanedSpec(db, prefix, keys, key);
  }

  /** Cleaning up auto-prefixed solver `a` keeps every option of another auto-prefixed solver `b`. */
  lemma CleanupSparesOtherSolvers(a: nat, b: nat, db: Database, keys: set<string>, key: string)
    requires a != b && key in db && StartsWith(key, AutoPrefix(b))
    ensures key in Cleaned(db, AutoPrefix(a), keys)
    ensures Cleaned(db, AutoPrefix(a), keys)[key] == db[key]
  {
    CleanedSpec(db, AutoPrefix(a), keys, key);
    if StartsWith(key, AutoPrefix(a)) {
      AutoPrefixesIsolated(a, b, key);
    }
  }
}
