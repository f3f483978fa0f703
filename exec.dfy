/**
 * The environment side of the process executor (pkg/helpers/exec.go):
 * executors are values; deriving one copies, never mutates, and the child's
 * environment list is built from the inherited one plus one `key=value`
 * entry per variable of the executor.
 */
module Exec {
  import opened GoStd

  /** fabricator.Environment */
  type Environment = map<string, string>

  /**
   * An executor: working directory, the caller's streams (carried, never
   * inspected here) and the environment map; None stands for a nil map.
   */
  datatype Executor<IO> = Executor(root: string, io: IO, env: Option<Environment>)

  /** NewExecutor */
  function NewExecutor<IO>(root: string, io: IO): (e: Executor<IO>)
    ensures e.root == root && e.io == io
    ensures e.env == Some(map[])
  {
    Executor(root, io, Some(map[]))
  }

  /** WithRoot: a new executor that differs from `e` in its root only. */
  function WithRoot<IO>(e: Executor<IO>, root: string): (r: Executor<IO>)
    ensures r.root == root
    ensures r.io == e.io && r.env == e.env
  {
    Executor(root, e.io, e.env)
  }

  /**
   * The environment WithEnvMap builds: the receiver's variables (none for a
   * nil map) overridden by those of `m`.
   */
  function Overlay(base: Option<Environment>, m: Environment): (r: Environment)
    ensures r.Keys == (if base.Some? then base.value.Keys else {}) + m.Keys
    ensures forall k :: k in m ==> r[k] == m[k]
    ensures forall k :: base.Some? && k in base.value && k !in m ==> r[k] == base.value[k]
  {
    (if base.Some? then base.value else map[]) + m
  }

  /**
   * WithEnvMap: a new executor with the same root and streams whose
   * environment is a fresh map holding the receiver's variables overridden
   * by `m`. The receiver, a value, is untouched.
   */
  method WithEnvMap<IO>(e: Executor<IO>, m: Environment) returns (r: Executor<IO>)
    ensures r.root == e.root && r.io == e.io
    ensures r.env == Some(Overlay(e.env, m))
  {
    var newEnv: Environment := map[];
    if e.env.Some? {
      var base := e.env.value;
      var todo := base.Keys;
      while todo != {}
        invariant todo <= base.Keys
        invariant newEnv.Keys == base.Keys - todo
        invariant forall k :: k in newEnv ==> newEnv[k] == base[k]
        decreases todo
      {
        var k :| k in todo;
        newEnv := newEnv[k := base[k]];
        todo := todo - {k};
      }
      assert newEnv == base;
    }
    var todo := m.Keys;
    while todo != {}
      invariant todo <= m.Keys
      invariant newEnv.Keys == (if e.env.Some? then e.env.value.Keys else {}) + (m.Keys - todo)
      invariant forall k :: k in m.Keys - todo ==> newEnv[k] == m[k]
      invariant forall k :: k in newEnv && k !in m.Keys - todo ==> e.env.Some? && newEnv[k] == e.env.value[k]
      decreases todo
    {
      var k :| k in todo;
      newEnv := newEnv[k := m[k]];
      todo := todo - {k};
    }
    var merged := Overlay(e.env, m);
    assert newEnv.Keys == merged.Keys;
    assert forall k :: k in newEnv ==> newEnv[k] == merged[k];
    assert newEnv == merged;
    r := Executor(e.root, e.io, Some(newEnv));
  }

  /** WithEnv: WithEnvMap with the single variable `key`. */
  method WithEnv<IO>(e: Executor<IO>, key: string, value: string) returns (r: Executor<IO>)
    ensures r.root == e.root && r.io == e.io
    ensures r.env == Some(Overlay(e.env, map[key := value]))
  {
    var env: Environment := map[];
    env := env[key := value];
    r := WithEnvMap(e, env);
  }

  /**
   * Deriving twice equals deriving once with the second map layered over the
   * first, and a single variable is set over everything before it.
   */
  lemma OverlayTwice(base: Option<Environment>, a: Environment, b: Environment)
    ensures Overlay(Some(Overlay(base, a)), b) == Overlay(base, Overlay(Some(a), b))
    ensures Overlay(Some(Overlay(base, a)), b).Keys == Overlay(base, a).Keys + b.Keys
  {
  }

  /** One derivation step: WithRoot, or WithEnvMap (WithEnv being its one-variable case). */
  datatype Derivation = RootStep(root: string) | EnvStep(m: Environment)

  /**
   * The executor a chain of derivation steps leads to from `e`; an EnvStep
   * gives what WithEnvMap's contract promises.
   */
  function Derive<IO>(e: Executor<IO>, steps: seq<Derivation>): Executor<IO>
  {
    if steps == [] then e
    else
      var d := Derive(e, steps[..|steps| - 1]);
      match steps[|steps| - 1]
      case RootStep(root) => WithRoot(d, root)
      case EnvStep(m) => Executor(d.root, d.io, Some(Overlay(d.env, m)))
  }

  /** The maps of the EnvSteps in `steps`, each later one laid over the earlier ones. */
  function LayeredEnv(steps: seq<Derivation>): Environment
  {
    if steps == [] then map[]
    else
      var env := LayeredEnv(steps[..|steps| - 1]);
      match steps[|steps| - 1]
      case RootStep(_) => env
      case EnvStep(m) => env + m
  }

  /**
   * Executors derived from NewExecutor by any chain of WithRoot and
   * WithEnvMap/WithEnv steps never carry a nil environment: theirs is the
   * step maps layered in order (later steps winning), and the streams are
   * NewExecutor's throughout.
   */
  lemma {:induction false} DerivedEnvironmentsAreMaps<IO>(root: string, io: IO, steps: seq<Derivation>)
    ensures Derive(NewExecutor(root, io), steps).env == Some(LayeredEnv(steps))
    ensures Derive(NewExecutor(root, io), steps).io == io
  {
    if steps != [] {
      DerivedEnvironmentsAreMaps(root, io, steps[..|steps| - 1]);
    }
  }

  /** exec.Cmd, reduced to its Env field; None is Go's nil (inherit everything). */
  class ExecCmd {
    var env: Option<seq<string>>

    constructor ()
      ensures env == None
    {
      env := None;
    }
  }

  /** The `key=value` string for one variable. */
  function EnvLine(key: string, value: string): (line: string)
    ensures |line| == |key| + 1 + |value|
    ensures line[..|key|] == key && line[|key|] == '=' && line[|key| + 1..] == value
  {
    key + "=" + value
  }

  /** The lines for the variables of `env`, taken in the order `keys`. */
  function EnvLines(env: Environment, keys: seq<string>): (lines: seq<string>)
    requires forall k :: k in keys ==> k in env
    ensures |lines| == |keys|
    ensures forall i :: 0 <= i < |keys| ==> lines[i] == EnvLine(keys[i], env[keys[i]])
  {
    if keys == [] then [] else EnvLines(env, keys[..|keys| - 1]) + [EnvLine(keys[|keys| - 1], env[keys[|keys| - 1]])]
  }

  /** `keys` lists every key of `env` exactly once. */
  ghost predicate Enumerates(keys: seq<string>, env: Environment) {
    Distinct(keys) && forall k :: k in env <==> k in keys
  }

  /**
   * The list appended by setEnv has exactly one line per variable: as many
   * lines as variables, and each variable's line among them.
   */
  lemma {:induction false} EnvLinesOnePerVariable(env: Environment, keys: seq<string>)
    requires Enumerates(keys, env)
    ensures |EnvLines(env, keys)| == |env|
    ensures forall k :: k in env ==> EnvLine(k, env[k]) in EnvLines(env, keys)
  {
    DistinctCardinality(keys);
    assert (set x | x in keys) == env.Keys;
    var lines := EnvLines(env, keys);
    forall k | k in env ensures EnvLine(k, env[k]) in lines {
      var i :| 0 <= i < |keys| && keys[i] == k;
      assert lines[i] == EnvLine(k, env[k]);
    }
  }

  /**
   * setEnv: with a nil environment the command is left alone; otherwise its
   * Env becomes the inherited entries followed by one line per variable, in
   * the (unspecified) order map iteration chose, returned as `order`.
   */
  method SetEnv<IO>(e: Executor<IO>, cmd: ExecCmd, inherited: seq<string>) returns (ghost order: seq<string>)
    modifies cmd
    ensures e.env.None? ==> cmd.env == old(cmd.env)
    ensures e.env.Some? ==> Enumerates(order, e.env.value)
    ensures e.env.Some? ==> cmd.env == Some(inherited + EnvLines(e.env.value, order))
  {
    order := [];
    if e.env.Some? {
      var vars := e.env.value;
      var env := inherited;
      var todo := vars.Keys;
      while todo != {}
        invariant todo <= vars.Keys
        invariant Distinct(order)
        invariant forall k :: k in order ==> k in vars && k !in todo
        invariant forall k :: k in vars ==> k in todo || k in order
        invariant env == inherited + EnvLines(vars, order)
        decreases todo
      {
        var key :| key in todo;
        env := env + [EnvLine(key, vars[key])];
        order := order + [key];
        todo := todo - {key};
      }
      cmd.env := Some(env);
    }
  }
}
