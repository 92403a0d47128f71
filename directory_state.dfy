/**
 * The directory-transition protocol run on every shell prompt: match the rc files of the
 * current directory, read the marker variable, then perform exactly one terminal
 * operation.  Each state is a constructor; each transition takes one state and returns
 * the next, so a state is used once and a step cannot be skipped.  Callbacks are
 * function parameters, the process environment is a map, and every terminal operation
 * also returns the list of callback invocations it made, in order.
 */
module DirectoryState {
  import opened Wrappers

  type Path = string

  datatype State =
    | Start(dir: Path)
    | NoRcs
    | ReadyForReset(envStateVarValue: string)
    | Rcs(rcs: seq<Path>)
    | NoEnvStateVar(rcs: seq<Path>)
    | EnvStateVar(rcs: seq<Path>, envStateVarValue: string)

  /** How far along the protocol a state is; every transition moves exactly one stage on. */
  function Stage(s: State): nat
  {
    match s
    case Start(_) => 0
    case NoRcs | Rcs(_) => 1
    case ReadyForReset(_) | NoEnvStateVar(_) | EnvStateVar(_, _) => 2
  }

  /** One invocation of a caller-supplied callback. */
  datatype Call<T> =
    | Apply(value: string)
    | ApplyRcs(rcs: seq<Path>)
    | Reset(rcs: seq<Path>, value: string)
    | Set(arg: T)

  /** What a terminal operation returns, plus the callbacks it invoked. */
  datatype Run<T, E> = Run(result: Result<Unit, E>, calls: seq<Call<T>>)

  /** The starting state for the directory the shell is in. */
  function GetCurrentDir<E>(currentDir: Result<Path, E>): (r: Result<State, E>)
    ensures r.Ok? <==> currentDir.Ok?
    ensures r.Ok? ==> r.value.Start? && r.value.dir == currentDir.value && Stage(r.value) == 0
  {
    match currentDir
    case Ok(dir) => Ok(Start(dir))
    case Err(e) => Err(e)
  }

  /** `match_rcs`: the resolver's rc list for this directory; empty means no configuration. */
  function MatchRcs<E>(s: State, resolve: Path -> Result<seq<Path>, E>): (r: Result<State, E>)
    requires s.Start?
    ensures resolve(s.dir).Err? ==> r == Err(resolve(s.dir).error)
    ensures resolve(s.dir) == Ok([]) ==> r == Ok(NoRcs)
    ensures resolve(s.dir).Ok? && resolve(s.dir).value != [] ==> r == Ok(Rcs(resolve(s.dir).value))
    ensures r.Ok? ==> Stage(r.value) == Stage(s) + 1
  {
    match resolve(s.dir)
    case Err(e) => Err(e)
    case Ok(rcs) => if |rcs| == 0 then Ok(NoRcs) else Ok(Rcs(rcs))
  }

  /** `get_env_state_var` on NoRcs: nothing to do without a marker, else ready to reset. */
  function NoRcsGetEnvStateVar(s: State, key: string, env: map<string, string>): (r: Option<State>)
    requires s.NoRcs?
    ensures r.Some? <==> key in env
    ensures r.Some? ==> r.value == ReadyForReset(env[key]) && Stage(r.value) == Stage(s) + 1
  {
    if key in env then Some(ReadyForReset(env[key])) else None
  }

  /** `get_env_state_var` on Rcs: first entry into a configuration, or a transition from one. */
  function RcsGetEnvStateVar(s: State, key: string, env: map<string, string>): (r: State)
    requires s.Rcs?
    ensures key !in env ==> r == NoEnvStateVar(s.rcs)
    ensures key in env ==> r == EnvStateVar(s.rcs, env[key])
    ensures Stage(r) == Stage(s) + 1
  {
    if key in env then EnvStateVar(s.rcs, env[key]) else NoEnvStateVar(s.rcs)
  }

  /** `reset_env_vars`: hands the marker's value to `apply` once and returns its result. */
  function ResetEnvVars<T, E>(s: State, apply: string -> Result<Unit, E>): (r: Run<T, E>)
    requires s.ReadyForReset?
    ensures r.calls == [Apply(s.envStateVarValue)]
    ensures r.result == apply(s.envStateVarValue)
  {
    Run(apply(s.envStateVarValue), [Apply(s.envStateVarValue)])
  }

  /** `set_new_env_state_var`: hands the matched rc list to `apply` once. */
  function SetNewEnvStateVar<T, E>(s: State, apply: seq<Path> -> Result<Unit, E>): (r: Run<T, E>)
    requires s.NoEnvStateVar?
    ensures r.calls == [ApplyRcs(s.rcs)]
    ensures r.result == apply(s.rcs)
  {
    Run(apply(s.rcs), [ApplyRcs(s.rcs)])
  }

  /**
   * `reset_and_set_new_env_state_var`: `reset` runs first with the rcs and the old marker
   * value; its output goes unmodified to `setUp`.  A failing `reset` stops before `setUp`.
   */
  function ResetAndSetNewEnvStateVar<T, E>(s: State, reset: (seq<Path>, string) -> Result<T, E>,
                                           setUp: T -> Result<Unit, E>): (r: Run<T, E>)
    requires s.EnvStateVar?
    ensures |r.calls| >= 1 && r.calls[0] == Reset(s.rcs, s.envStateVarValue)
    ensures reset(s.rcs, s.envStateVarValue).Err? ==>
      r == Run(Err(reset(s.rcs, s.envStateVarValue).error), [Reset(s.rcs, s.envStateVarValue)])
    ensures reset(s.rcs, s.envStateVarValue).Ok? ==>
      var t := reset(s.rcs, s.envStateVarValue).value;
      r == Run(setUp(t), [Reset(s.rcs, s.envStateVarValue), Set(t)])
  {
    match reset(s.rcs, s.envStateVarValue)
    case Err(e) => Run(Err(e), [Reset(s.rcs, s.envStateVarValue)])
    case Ok(t) => Run(setUp(t), [Reset(s.rcs, s.envStateVarValue), Set(t)])
  }

  /**
   * No rcs match and the marker is set: the walk reaches ReadyForReset and the reset
   * hands `apply` exactly the marker's value, once, returning `apply`'s Ok.
   */
  lemma WorkflowNoRcsFoundResetsExistingState<T, E>(dir: Path, resolve: Path -> Result<seq<Path>, E>,
                                                    key: string, env: map<string, string>,
                                                    apply: string -> Result<Unit, E>)
    requires resolve(dir) == Ok([])
    requires key in env
    requires apply(env[key]) == Ok(Unit)
    ensures MatchRcs(Start(dir), resolve) == Ok(NoRcs)
    ensures NoRcsGetEnvStateVar(NoRcs, key, env) == Some(ReadyForReset(env[key]))
    ensures ResetEnvVars<T, E>(ReadyForReset(env[key]), apply) == Run(Ok(Unit), [Apply(env[key])])
  {
  }

  /** Rcs matched and no marker: `apply` receives exactly the matched rc list, in order, once. */
  lemma WorkflowRcsFoundNewEnvironmentSetsInitialState<T, E>(dir: Path, resolve: Path -> Result<seq<Path>, E>,
                                                             rcs: seq<Path>, key: string, env: map<string, string>,
                                                             apply: seq<Path> -> Result<Unit, E>)
    requires resolve(dir) == Ok(rcs) && rcs != []
    requires key !in env
    requires apply(rcs) == Ok(Unit)
    ensures MatchRcs(Start(dir), resolve) == Ok(Rcs(rcs))
    ensures RcsGetEnvStateVar(Rcs(rcs), key, env) == NoEnvStateVar(rcs)
    ensures SetNewEnvStateVar<T, E>(NoEnvStateVar(rcs), apply) == Run(Ok(Unit), [ApplyRcs(rcs)])
  {
  }

  /**
   * Rcs matched and the marker set: `reset` runs with (rcs, old value), then `setUp` runs with
   * reset's output untouched; both run once, in that order, and the result is Ok.
   */
  lemma WorkflowRcsFoundExistingEnvironmentResetsAndUpdatesState<T, E>(
    dir: Path, resolve: Path -> Result<seq<Path>, E>, rcs: seq<Path>, key: string, env: map<string, string>,
    reset: (seq<Path>, string) -> Result<T, E>, setUp: T -> Result<Unit, E>)
    requires resolve(dir) == Ok(rcs) && rcs != []
    requires key in env
    requires reset(rcs, env[key]).Ok?
    requires setUp(reset(rcs, env[key]).value) == Ok(Unit)
    ensures MatchRcs(Start(dir), resolve) == Ok(Rcs(rcs))
    ensures RcsGetEnvStateVar(Rcs(rcs), key, env) == EnvStateVar(rcs, env[key])
    ensures var t := reset(rcs, env[key]).value;
            ResetAndSetNewEnvStateVar(EnvStateVar(rcs, env[key]), reset, setUp)
            == Run(Ok(Unit), [Reset(rcs, env[key]), Set(t)])
  {
  }
}
