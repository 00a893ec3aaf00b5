/**
  `BinanceClient::Environment` (lib/binance_client/environment.rb): the
  one-shot, process-wide choice of environment. `setup!` normalises the
  name, then checks in a fixed order that no configuration is set yet, that
  a name was given and that it is allowed, and only then loads the
  configuration.
 */
module Environment {
  import opened Wrappers
  import opened RubyValues

  datatype SetupError = EnvNotAllowed | MultipleAssignmentNotAllowed | EnvIsMissing

  /** `ALLOWED_ENVS`, as symbol names. */
  const AllowedEnvs: seq<string> := ["testnet"]

  /** The bundled environments document after parsing: environment name to
      its attributes (`http_url`, `stream_url`, ...). Reading and parsing
      the file are not modelled. */
  type Document = map<string, map<string, string>>

  /** `OpenStruct.new(env_params)`: the attributes of the chosen
      environment; a name the document lacks gives an empty struct. */
  datatype Config = Config(fields: map<string, string>)

  function LoadConfig(doc: Document, env: string): (c: Config)
    ensures forall f :: f in c.fields <==> env in doc && f in doc[env]
    ensures forall f :: f in c.fields ==> c.fields[f] == doc[env][f]
  {
    Config(if env in doc then doc[env] else map[])
  }

  /** `env&.downcase&.to_sym`: `nil` stays `nil`, any string becomes a
      (truthy) symbol, even the empty one. */
  function Normalise(name: Option<string>): (r: Option<string>)
    ensures r.Some? <==> name.Some?
    ensures name.Some? ==> |r.value| == |name.value|
    ensures name.Some? ==> forall i :: 0 <= i < |r.value| ==>
      !IsUpper(r.value[i]) && UpChar(r.value[i]) == UpChar(name.value[i])
  {
    match name
    case None => None
    case Some(n) => Some(Downcase(n))
  }

  /** The class-level state: `@env` and `@config`. */
  datatype State = State(env: Option<string>, config: Option<Config>)

  const Initial: State := State(None, None)

  datatype StepResult = StepResult(state: State, outcome: Outcome<SetupError>)

  /** One call of `setup!(name)` from state `s`. */
  function SetupStep(s: State, name: Option<string>, doc: Document): (r: StepResult)
    ensures r.state.env == Normalise(name)
    ensures s.config.Some? ==> r.outcome == Fail(MultipleAssignmentNotAllowed)
    ensures s.config.None? && name.None? ==> r.outcome == Fail(EnvIsMissing)
    ensures s.config.None? && name.Some? && Downcase(name.value) !in AllowedEnvs ==>
      r.outcome == Fail(EnvNotAllowed)
    ensures r.outcome.Pass? <==> s.config.None? && name.Some? && Downcase(name.value) in AllowedEnvs
    ensures r.outcome.Pass? ==> r.state.config == Some(LoadConfig(doc, Downcase(name.value)))
    ensures r.outcome.Fail? ==> r.state.config == s.config
  {
    var env := Normalise(name);
    if s.config.Some? then StepResult(State(env, s.config), Fail(MultipleAssignmentNotAllowed))
    else if env.None? then StepResult(State(env, s.config), Fail(EnvIsMissing))
    else if env.value !in AllowedEnvs then StepResult(State(env, s.config), Fail(EnvNotAllowed))
    else StepResult(State(env, Some(LoadConfig(doc, env.value))), Pass)
  }

  /** The results of successive `setup!` calls, starting from `s`. */
  function Run(s: State, names: seq<Option<string>>, doc: Document): (rs: seq<StepResult>)
    ensures |rs| == |names|
    decreases |names|
  {
    if names == [] then []
    else
      var r := SetupStep(s, names[0], doc);
      [r] + Run(r.state, names[1..], doc)
  }

  /** Once a configuration is set, every later call fails with
      `MultipleAssignmentNotAllowed` and the configuration never changes. */
  lemma {:induction false} ConfiguredStaysConfigured(s: State, names: seq<Option<string>>, doc: Document)
    requires s.config.Some?
    ensures forall i :: 0 <= i < |names| ==>
      Run(s, names, doc)[i].outcome == Fail(MultipleAssignmentNotAllowed) &&
      Run(s, names, doc)[i].state.config == s.config
    decreases |names|
  {
    if names != [] {
      var r := SetupStep(s, names[0], doc);
      ConfiguredStaysConfigured(r.state, names[1..], doc);
    }
  }

  /** In any sequence of calls at most one succeeds, and none after it. */
  lemma {:induction false} SetupSucceedsAtMostOnce(s: State, names: seq<Option<string>>, doc: Document)
    ensures forall i, j :: 0 <= i < j < |names| && Run(s, names, doc)[i].outcome.Pass? ==>
      Run(s, names, doc)[j].outcome == Fail(MultipleAssignmentNotAllowed)
    decreases |names|
  {
    if names != [] {
      var r := SetupStep(s, names[0], doc);
      var rs := Run(s, names, doc);
      assert rs[1..] == Run(r.state, names[1..], doc);
      if r.outcome.Pass? {
        ConfiguredStaysConfigured(r.state, names[1..], doc);
      }
      SetupSucceedsAtMostOnce(r.state, names[1..], doc);
      forall i, j | 0 <= i < j < |names| && rs[i].outcome.Pass?
        ensures rs[j].outcome == Fail(MultipleAssignmentNotAllowed)
      {
        assert rs[j] == rs[1..][j - 1];
        if i > 0 {
          assert rs[i] == rs[1..][i - 1];
        }
      }
    }
  }

  /** Names are compared after downcasing, so any casing of "testnet" is
      accepted on a first call. */
  lemma UpperCaseNameAccepted(doc: Document)
    ensures SetupStep(Initial, Some("TESTNET"), doc).outcome == Pass
    ensures SetupStep(Initial, Some("TestNet"), doc).outcome == Pass
  {
    assert Downcase("TESTNET") == "testnet";
    assert Downcase("TestNet") == "testnet";
  }

  /** The empty string becomes the truthy symbol `:""`: it is not allowed,
      rather than missing. */
  lemma EmptyNameNotAllowed(doc: Document)
    ensures SetupStep(Initial, Some(""), doc).outcome == Fail(EnvNotAllowed)
  {
  }

  /** The singleton holding `@env` and `@config`. */
  class Environment {
    var env: Option<string>
    var config: Option<Config>

    constructor ()
      ensures env == None && config == None
    {
      env := None;
      config := None;
    }

    /** `setup!(name)`: `@env` is overwritten before any check, even on a
        call that then raises; `@config` is set only by a call that passes
        every check. */
    method Setup(name: Option<string>, doc: Document) returns (outcome: Outcome<SetupError>)
      modifies this
      ensures StepResult(State(env, config), outcome) == SetupStep(State(old(env), old(config)), name, doc)
      ensures env == Normalise(name)
      ensures outcome.Fail? ==> config == old(config)
    {
      env := Normalise(name);
      if config.Some? {
        return Fail(MultipleAssignmentNotAllowed);
      }
      if env.None? {
        return Fail(EnvIsMissing);
      }
      if env.value !in AllowedEnvs {
        return Fail(EnvNotAllowed);
      }
      config := Some(LoadConfig(doc, env.value));
      outcome := Pass;
    }
  }
}
