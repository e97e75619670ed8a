/** The Docker builder's driver code (builder/docker/builder.go): it merges
    configuration errors and warnings, seeds the state bag, chooses a runner
    and turns the bag the runner leaves into an error or an artifact.

    The runner and the five steps are not modelled: `Run` receives the runner
    as a function from (runner, seeded bag) to the bag it leaves. */
module DockerBuilder {
  import opened Wrappers
  import opened Multistep

  datatype StepName = TempDir | Pull | RunContainer | Provision | Export

  /** The steps every run uses, in order. */
  const Steps: seq<StepName> := [TempDir, Pull, RunContainer, Provision, Export]

  /** The debug runner pauses between steps; the basic one does not. */
  datatype RunnerKind = BasicRunner | DebugRunner
  datatype Runner = Runner(kind: RunnerKind, steps: seq<StepName>)

  /** The settings the builder reads itself. */
  datatype Config = Config(exportPath: string, packerDebug: bool)

  /** `runner` is `None` until `Run` creates one. */
  datatype Builder = Builder(config: Config, runner: Option<Runner>)

  datatype ExportArtifact = ExportArtifact(path: string)

  // ---- Prepare ----

  /** Outcomes of the foreign calls `Prepare` makes: decoding, creating the
      template, the unused-key check and the configuration's own Prepare. */
  datatype PrepareInputs = PrepareInputs(
    decodeError: Option<string>,
    templateError: Option<string>,
    unusedKeyErrors: seq<string>,
    configWarnings: seq<string>,
    configErrors: seq<string>)

  /** `error` is `None` for a nil error; otherwise it lists the messages. */
  datatype PrepareOutcome = PrepareOutcome(warnings: seq<string>, error: Option<seq<string>>)

  /** A decode or template failure returns at once with no warnings;
      otherwise the errors accumulate and the warnings are returned whether
      or not there are errors. */
  function Prepare(inputs: PrepareInputs): (r: PrepareOutcome)
    ensures inputs.decodeError.Some? ==> r == PrepareOutcome([], Some([inputs.decodeError.value]))
    ensures inputs.decodeError.None? && inputs.templateError.Some? ==>
      r == PrepareOutcome([], Some([inputs.templateError.value]))
    ensures inputs.decodeError.None? && inputs.templateError.None? ==>
      && r.warnings == inputs.configWarnings
      && (r.error.Some? <==> |inputs.unusedKeyErrors| + |inputs.configErrors| > 0)
      && (r.error.Some? ==> r.error.value == inputs.unusedKeyErrors + inputs.configErrors)
  {
    if inputs.decodeError.Some? then PrepareOutcome([], Some([inputs.decodeError.value]))
    else if inputs.templateError.Some? then PrepareOutcome([], Some([inputs.templateError.value]))
    else
      var errs := inputs.unusedKeyErrors + inputs.configErrors;
      var warnings := inputs.configWarnings;
      if |errs| > 0 then PrepareOutcome(warnings, Some(errs)) else PrepareOutcome(warnings, None)
  }

  // ---- Run ----

  /** The bag a run starts from: the configuration, the hook, the UI and the
      Docker driver. */
  function Seed(): (bag: Bag)
    ensures bag.Keys == {"config", "hook", "ui", "driver"}
    ensures bag["ui"] == UiHandle && ErrorKey !in bag
  {
    map["config" := Opaque("docker-config"), "hook" := Opaque("hook"),
        "ui" := UiHandle, "driver" := Opaque("docker-driver")]
  }

  function ChooseRunner(c: Config): (r: Runner)
    ensures r.kind == DebugRunner <==> c.packerDebug
    ensures r.steps == Steps
  {
    Runner(if c.packerDebug then DebugRunner else BasicRunner, Steps)
  }

  /** The error a run reports: whatever sits under "error" once the runner returns. */
  function StoredError(bag: Bag): (r: Option<string>)
    requires ErrorKey in bag ==> bag[ErrorKey].ErrorValue?
    ensures r.Some? <==> ErrorKey in bag
    ensures r.Some? ==> r.value == bag[ErrorKey].message
  {
    match GetOk(bag, ErrorKey)
    case None => None
    case Some(v) => Some(v.message)
  }

  datatype RunOutcome = RunOutcome(builder: Builder, result: Result<ExportArtifact, string>)

  /** The verdict: the stored error when "error" is in the bag after the
      runner, and then no artifact; otherwise an artifact of the configured
      export path. The builder keeps the runner it chose. */
  function Run(b: Builder, runSteps: (Runner, Bag) -> Bag): (r: RunOutcome)
    requires var final := runSteps(ChooseRunner(b.config), Seed());
      ErrorKey in final ==> final[ErrorKey].ErrorValue?
    ensures r.builder == b.(runner := Some(ChooseRunner(b.config)))
    ensures var final := runSteps(ChooseRunner(b.config), Seed());
      && (r.result.Failure? <==> ErrorKey in final)
      && (r.result.Failure? ==> r.result.error == final[ErrorKey].message)
      && (r.result.Success? ==> r.result.value.path == b.config.exportPath)
  {
    var runner := ChooseRunner(b.config);
    var final := runSteps(runner, Seed());
    var b' := b.(runner := Some(runner));
    match StoredError(final)
    case Some(e) => RunOutcome(b', Failure(e))
    case None => RunOutcome(b', Success(ExportArtifact(b.config.exportPath)))
  }

  /** Cancel forwards to the runner when there is one: the result lists the
      runners told to cancel. */
  function Cancel(b: Builder): (cancelled: seq<Runner>)
    ensures b.runner.None? ==> cancelled == []
    ensures b.runner.Some? ==> cancelled == [b.runner.value]
  {
    match b.runner
    case None => []
    case Some(runner) => [runner]
  }

  /** Once a run has chosen its runner, cancelling reaches exactly that runner, once. */
  lemma CancelAfterRun(b: Builder, runSteps: (Runner, Bag) -> Bag)
    requires var final := runSteps(ChooseRunner(b.config), Seed());
      ErrorKey in final ==> final[ErrorKey].ErrorValue?
    ensures Cancel(Run(b, runSteps).builder) == [ChooseRunner(b.config)]
  {
  }
}
