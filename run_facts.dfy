/** What a whole invocation of the command does: the credential check comes before anything
    else, only a provisioning run touches the account, a dry run prints the plan and nothing
    more, and the two ways a provisioning run can end. */
module RunFacts {
  import opened Wrappers
  import opened Types
  import opened GoLib
  import opened Cloud
  import opened Bootstrap
  import opened TraceFacts
  import opened AwsHelper
  import opened ProvisionFacts
  import opened Cli

  /** Whether the configuration loads and the credentials are accepted. */
  predicate Validated(options: Options, load: string -> Result<Config, string>,
                      awsLoadError: Option<string>, w: World)
  {
    load(options.configFile).Success? && CredentialCheck(w, awsLoadError).err.None?
  }

  /** The lines printed before the flags are looked at. */
  function Checking(env: Env): seq<string> {
    ["Checking AWS credentials...", GetAwsProfileInfo(env)]
  }

  /** Past a loaded configuration and validated credentials, the run is `ActSpec` from the
      account after the identity check. */
  lemma Unfold(options: Options, env: Env, load: string -> Result<Config, string>,
               awsLoadError: Option<string>, initError: Option<string>, w: World, log: seq<Call>)
    requires Validated(options, load, awsLoadError, w)
    ensures awsLoadError.None?
    ensures RunSpec(options, env, load, awsLoadError, initError, w, log)
         == ActSpec(options, load(options.configFile).value, initError,
                    Checking(env) + [AuthenticatedLine(CredentialCheck(w, awsLoadError).arn)],
                    Trace(w, log + [GetCallerIdentity], []))
  {
  }

  /** Before the flags are looked at: a configuration that does not load ends the run before
      anything is printed or sent; otherwise the run announces the check and names the profile
      and region, and a refused check ends it there. */
  lemma RunStartsWithCheck(options: Options, env: Env, load: string -> Result<Config, string>,
                           awsLoadError: Option<string>, initError: Option<string>, w: World, log: seq<Call>)
    ensures var r := RunSpec(options, env, load, awsLoadError, initError, w, log);
      && (load(options.configFile).Failure? ==>
            r.exit.LoadFailed? && r.output == [] && r.trace == Trace(w, log, []))
      && (load(options.configFile).Success? ==> |r.output| >= 2 && r.output[..2] == Checking(env))
      && (load(options.configFile).Success? && CredentialCheck(w, awsLoadError).err.Some? ==>
            r.exit.CredentialsFailed? && r.output == Checking(env))
  {
    if load(options.configFile).Success? && CredentialCheck(w, awsLoadError).err.Some? {
      UnfoldRefused(options, env, load, awsLoadError, initError, w, log);
    } else if Validated(options, load, awsLoadError, w) {
      Unfold(options, env, load, awsLoadError, initError, w, log);
      var validated := Checking(env) + [AuthenticatedLine(CredentialCheck(w, awsLoadError).arn)];
      ActKeepsLines(options, load(options.configFile).value, initError, validated, Trace(w, log + [GetCallerIdentity], []));
      assert validated[..2] == Checking(env);
    }
  }

  /** The output of the steps after the check begins with the lines printed before them. */
  lemma ActKeepsLines(options: Options, config: Config, initError: Option<string>,
                      validated: seq<string>, checked: Trace)
    ensures var r := ActSpec(options, config, initError, validated, checked);
      |r.output| >= |validated| && r.output[..|validated|] == validated
  {
    var r := ActSpec(options, config, initError, validated, checked);
    if options.checkCreds || options.dryRun || initError.None? {
      assert r.output[..|validated|] == validated;
    }
  }

  /** The run when the configuration does not load. */
  lemma UnfoldUnloaded(options: Options, env: Env, load: string -> Result<Config, string>,
                       awsLoadError: Option<string>, initError: Option<string>, w: World, log: seq<Call>)
    requires load(options.configFile).Failure?
    ensures RunSpec(options, env, load, awsLoadError, initError, w, log)
         == RunResult(LoadFailed("Failed to load configuration: " + load(options.configFile).error), [], Trace(w, log, []))
  {
  }

  /** The run when the credential check refuses the credentials. */
  lemma UnfoldRefused(options: Options, env: Env, load: string -> Result<Config, string>,
                      awsLoadError: Option<string>, initError: Option<string>, w: World, log: seq<Call>)
    requires load(options.configFile).Success? && CredentialCheck(w, awsLoadError).err.Some?
    ensures RunSpec(options, env, load, awsLoadError, initError, w, log)
         == RunResult(CredentialsFailed("AWS credential check failed: " + CredentialCheck(w, awsLoadError).err.value),
                      Checking(env),
                      if awsLoadError.Some? then Trace(w, log, []) else Trace(w, log + [GetCallerIdentity], []))
  {
  }

  /** The flags are honoured in the order main tests them: once the credentials are validated,
      --check-creds wins over --dry-run, --dry-run over creating the bootstrapper, and a
      bootstrapper that cannot be created ends the run before anything is provisioned. */
  lemma FlagOrder(options: Options, env: Env, load: string -> Result<Config, string>,
                  awsLoadError: Option<string>, initError: Option<string>, w: World, log: seq<Call>)
    requires Validated(options, load, awsLoadError, w)
    ensures var r := RunSpec(options, env, load, awsLoadError, initError, w, log);
      && (options.checkCreds ==> r.exit == CredentialsChecked)
      && (!options.checkCreds && options.dryRun ==> r.exit == DryRunDone)
      && (!options.checkCreds && !options.dryRun ==>
            (r.exit.InitFailed? <==> initError.Some?)
            && (r.exit.ProvisionFailed? || r.exit.Configured? <==> initError.None?))
  {
    Unfold(options, env, load, awsLoadError, initError, w, log);
  }

  /** The steps after the check touch the account only when they provision. */
  lemma ActLeavesAccount(options: Options, config: Config, initError: Option<string>,
                         validated: seq<string>, checked: Trace)
    ensures var r := ActSpec(options, config, initError, validated, checked);
      !(r.exit.ProvisionFailed? || r.exit.Configured?) ==> r.trace == checked
  {
  }

  /** The account is touched only by a run that provisions: every other ending leaves it as it
      was, with no warning printed, having received at most the identity check. */
  lemma RunLeavesAccount(options: Options, env: Env, load: string -> Result<Config, string>,
                         awsLoadError: Option<string>, initError: Option<string>, w: World, log: seq<Call>)
    ensures var r := RunSpec(options, env, load, awsLoadError, initError, w, log);
      !(r.exit.ProvisionFailed? || r.exit.Configured?) ==>
        && r.trace.world == w && r.trace.notices == []
        && (r.trace.log == log || r.trace.log == log + [GetCallerIdentity])
  {
    if load(options.configFile).Success? && CredentialCheck(w, awsLoadError).err.Some? {
      UnfoldRefused(options, env, load, awsLoadError, initError, w, log);
    } else if Validated(options, load, awsLoadError, w) {
      Unfold(options, env, load, awsLoadError, initError, w, log);
      var validated := Checking(env) + [AuthenticatedLine(CredentialCheck(w, awsLoadError).arn)];
      ActLeavesAccount(options, load(options.configFile).value, initError, validated, Trace(w, log + [GetCallerIdentity], []));
    }
  }

  /** The steps after the check keep the calls made before them. */
  lemma ActExtends(options: Options, config: Config, initError: Option<string>,
                   validated: seq<string>, checked: Trace)
    ensures checked.log <= ActSpec(options, config, initError, validated, checked).trace.log
  {
    ProvisionStages(checked, config.region, config);
  }

  /** Once the configuration and the SDK configuration load, the first call the account receives
      is the identity check, whatever follows it. */
  lemma RunChecksCredentialsFirst(options: Options, env: Env, load: string -> Result<Config, string>,
                                  awsLoadError: Option<string>, initError: Option<string>, w: World, log: seq<Call>)
    requires load(options.configFile).Success? && awsLoadError.None?
    ensures var r := RunSpec(options, env, load, awsLoadError, initError, w, log);
      |r.trace.log| > |log| && r.trace.log[..|log|] == log && r.trace.log[|log|] == GetCallerIdentity
  {
    var checked := Trace(w, log + [GetCallerIdentity], []);
    if load(options.configFile).Success? && CredentialCheck(w, awsLoadError).err.Some? {
      UnfoldRefused(options, env, load, awsLoadError, initError, w, log);
    } else if Validated(options, load, awsLoadError, w) {
      Unfold(options, env, load, awsLoadError, initError, w, log);
      var validated := Checking(env) + [AuthenticatedLine(CredentialCheck(w, awsLoadError).arn)];
      ActExtends(options, load(options.configFile).value, initError, validated, checked);
    }
    var r := RunSpec(options, env, load, awsLoadError, initError, w, log);
    assert checked.log <= r.trace.log;
    assert r.trace.log[|log|] == checked.log[|log|];
  }

  /** After the check, a dry run prints its line and the plan, and sends nothing. */
  lemma ActDryRun(options: Options, config: Config, initError: Option<string>,
                  validated: seq<string>, checked: Trace)
    ensures var r := ActSpec(options, config, initError, validated, checked);
      r.exit == DryRunDone ==>
        && !options.checkCreds && options.dryRun
        && |r.output| == |validated| + 1 + |PlanLines(config)|
        && r.output[|validated|] == "Running in dry-run mode. No changes will be made."
        && r.output[|validated| + 1..] == PlanLines(config)
        && r.trace == checked
  {
    var r := ActSpec(options, config, initError, validated, checked);
    if r.exit == DryRunDone {
      var line := "Running in dry-run mode. No changes will be made.";
      assert r.output == validated + [line] + PlanLines(config);
      assert r.output[|validated| + 1..] == PlanLines(config);
    }
  }

  /** A dry run prints the plan after the validation lines and sends nothing but the identity
      check. */
  lemma DryRunPrintsPlan(options: Options, env: Env, load: string -> Result<Config, string>,
                         awsLoadError: Option<string>, initError: Option<string>, w: World, log: seq<Call>)
    ensures var r := RunSpec(options, env, load, awsLoadError, initError, w, log);
      r.exit == DryRunDone ==>
        var plan := PlanLines(load(options.configFile).value);
        && !options.checkCreds && options.dryRun
        && |r.output| == 4 + |plan|
        && r.output[3] == "Running in dry-run mode. No changes will be made."
        && r.output[4..] == plan
        && r.trace == Trace(w, log + [GetCallerIdentity], [])
  {
    if load(options.configFile).Success? && CredentialCheck(w, awsLoadError).err.Some? {
      UnfoldRefused(options, env, load, awsLoadError, initError, w, log);
    } else if Validated(options, load, awsLoadError, w) {
      Unfold(options, env, load, awsLoadError, initError, w, log);
      var validated := Checking(env) + [AuthenticatedLine(CredentialCheck(w, awsLoadError).arn)];
      ActDryRun(options, load(options.configFile).value, initError, validated, Trace(w, log + [GetCallerIdentity], []));
    }
  }

  lemma PrefixConcat(a: string, b: string, c: string)
    requires IsPrefix(b, c)
    ensures IsPrefix(a + b, a + c)
  {
    assert (a + c)[..|a + b|] == a + c[..|b|];
  }

  /** A failed ProvisionResources ends on a call whose failure is fatal, and main's message
      names the reconciler that made that call. */
  lemma ProvisionFailureEnds(t: Trace, region: string, config: Config)
    ensures var o := ProvisionOutcome(t, region, config);
      o.err.Some? ==>
        && |o.trace.log| > |t.log|
        && var last := o.trace.log[|o.trace.log| - 1];
        && FatalCall(last)
        && IsPrefix(ProvisionPrefix + StagePrefix(ServiceOf(last)), ProvisionPrefix + o.err.value)
  {
    ProvisionStages(t, region, config);
    ReportedFailure(t, ProvisionOutcome(t, region, config));
  }

  lemma ReportedFailure(t: Trace, o: Outcome)
    requires Reports(t, o)
    ensures o.err.Some? ==>
        && |o.trace.log| > |t.log|
        && var last := o.trace.log[|o.trace.log| - 1];
        && FatalCall(last)
        && IsPrefix(ProvisionPrefix + StagePrefix(ServiceOf(last)), ProvisionPrefix + o.err.value)
  {
    if o.err.Some? {
      PrefixConcat(ProvisionPrefix, StagePrefix(ServiceOf(o.trace.log[|o.trace.log| - 1])), o.err.value);
    }
  }

  /** The steps after the check when they provision. */
  lemma UnfoldProvision(options: Options, config: Config, initError: Option<string>,
                        validated: seq<string>, checked: Trace)
    requires !options.checkCreds && !options.dryRun && initError.None?
    ensures var o := ProvisionOutcome(checked, config.region, config);
      ActSpec(options, config, initError, validated, checked)
        == if o.err.Some? then RunResult(ProvisionFailed(ProvisionPrefix + o.err.value), validated, o.trace)
           else RunResult(Configured, validated + [ConfiguredLine], o.trace)
  {
  }

  /** A run that failed while provisioning has sent more than `sent` calls, the last of which is
      fatal, and its message names the reconciler that made that call. */
  predicate FailureNamed(r: RunResult, sent: nat) {
    r.exit.ProvisionFailed? ==>
      && |r.trace.log| > sent
      && var last := r.trace.log[|r.trace.log| - 1];
      && FatalCall(last)
      && IsPrefix(ProvisionPrefix + StagePrefix(ServiceOf(last)), r.exit.message)
  }

  /** After the check, a failure while provisioning ends on a fatal call made after the check,
      and the message names the reconciler that made it. */
  lemma ActFailureNamed(options: Options, config: Config, initError: Option<string>,
                        validated: seq<string>, checked: Trace)
    ensures FailureNamed(ActSpec(options, config, initError, validated, checked), |checked.log|)
  {
    if !options.checkCreds && !options.dryRun && initError.None? {
      UnfoldProvision(options, config, initError, validated, checked);
      ProvisionFailureEnds(checked, config.region, config);
      ProvisionEnding(ProvisionOutcome(checked, config.region, config), validated, |checked.log|);
    }
  }

  /** The ending `main` gives an outcome of ProvisionResources whose failure ends on a fatal call. */
  lemma ProvisionEnding(o: Outcome, validated: seq<string>, sent: nat)
    requires o.err.Some? ==>
      && |o.trace.log| > sent
      && var last := o.trace.log[|o.trace.log| - 1];
      && FatalCall(last)
      && IsPrefix(ProvisionPrefix + StagePrefix(ServiceOf(last)), ProvisionPrefix + o.err.value)
    ensures FailureNamed(if o.err.Some? then RunResult(ProvisionFailed(ProvisionPrefix + o.err.value), validated, o.trace)
                         else RunResult(Configured, validated + [ConfiguredLine], o.trace), sent)
  {
  }

  /** A run that fails while provisioning has sent the identity check and at least one more call,
      the last of which is fatal, and its message names the reconciler that made that call. */
  lemma ProvisionFailureNamed(options: Options, env: Env, load: string -> Result<Config, string>,
                              awsLoadError: Option<string>, initError: Option<string>, w: World, log: seq<Call>)
    ensures FailureNamed(RunSpec(options, env, load, awsLoadError, initError, w, log), |log| + 1)
  {
    if load(options.configFile).Failure? {
      UnfoldUnloaded(options, env, load, awsLoadError, initError, w, log);
    } else if CredentialCheck(w, awsLoadError).err.Some? {
      UnfoldRefused(options, env, load, awsLoadError, initError, w, log);
    } else {
      Unfold(options, env, load, awsLoadError, initError, w, log);
      var validated := Checking(env) + [AuthenticatedLine(CredentialCheck(w, awsLoadError).arn)];
      var checked := Trace(w, log + [GetCallerIdentity], []);
      ActFailureNamed(options, load(options.configFile).value, initError, validated, checked);
      assert |checked.log| == |log| + 1;
    }
  }

  /** A provisioning run that ends successfully leaves every configured resource in the
      account, and says so on its last line. */
  lemma ActConfigured(options: Options, config: Config, initError: Option<string>,
                      validated: seq<string>, checked: Trace)
    ensures var r := ActSpec(options, config, initError, validated, checked);
      r.exit == Configured ==>
        && !options.checkCreds && !options.dryRun && initError.None?
        && Provisioned(r.trace.world, config)
        && r.output[|r.output| - 1] == ConfiguredLine
  {
    ProvisionEnsured(checked, config.region, config);
  }

  /** A run that ends successfully after provisioning leaves every configured resource in the
      account, and says so on its last line. */
  lemma RunConfigured(options: Options, env: Env, load: string -> Result<Config, string>,
                      awsLoadError: Option<string>, initError: Option<string>, w: World, log: seq<Call>)
    ensures var r := RunSpec(options, env, load, awsLoadError, initError, w, log);
      r.exit == Configured ==>
        && !options.checkCreds && !options.dryRun && initError.None?
        && Provisioned(r.trace.world, load(options.configFile).value)
        && r.output[|r.output| - 1] == ConfiguredLine
  {
    if load(options.configFile).Success? && CredentialCheck(w, awsLoadError).err.Some? {
      UnfoldRefused(options, env, load, awsLoadError, initError, w, log);
    } else if Validated(options, load, awsLoadError, w) {
      Unfold(options, env, load, awsLoadError, initError, w, log);
      var validated := Checking(env) + [AuthenticatedLine(CredentialCheck(w, awsLoadError).arn)];
      ActConfigured(options, load(options.configFile).value, initError, validated, Trace(w, log + [GetCallerIdentity], []));
    }
  }

  /** Without flags, a run whose configuration loads, whose credentials are accepted and whose
      bootstrapper is created goes on to provision, and it fails exactly when provisioning
      does. */
  lemma DefaultsProvision(env: Env, load: string -> Result<Config, string>,
                          awsLoadError: Option<string>, w: World, log: seq<Call>)
    requires Validated(DefaultOptions, load, awsLoadError, w)
    ensures var r := RunSpec(DefaultOptions, env, load, awsLoadError, None, w, log);
      var config := load(DefaultOptions.configFile).value;
      && (r.exit.ProvisionFailed? || r.exit.Configured?)
      && (Fatal(r.exit) <==> ProvisionOutcome(Trace(w, log + [GetCallerIdentity], []), config.region, config).err.Some?)
  {
    Unfold(DefaultOptions, env, load, awsLoadError, None, w, log);
  }
}
