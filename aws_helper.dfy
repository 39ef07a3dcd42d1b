/**
 * The credential and profile helpers of the bootstrap package: the profile line printed before
 * the credential check, and the credential check itself with the message it builds when the
 * identity service refuses the credentials.
 */
module AwsHelper {
  import opened Wrappers
  import opened Cloud

  /** The process environment; a variable that is not set reads as "". */
  type Env = map<string, string>

  function Getenv(env: Env, key: string): string {
    if key in env then env[key] else ""
  }

  /** The first non-empty value of `candidates`, or `fallback` when there is none. */
  function FirstSet(candidates: seq<string>, fallback: string): (r: string)
    ensures r == fallback || r in candidates
    ensures r != fallback ==> r != ""
  {
    if candidates == [] then fallback
    else if candidates[0] != "" then candidates[0]
    else FirstSet(candidates[1..], fallback)
  }

  /** `FirstSet` picks the earliest non-empty candidate: every candidate before it is empty. */
  lemma {:induction false} FirstSetIsFirst(candidates: seq<string>, fallback: string)
    ensures var r := FirstSet(candidates, fallback);
      (exists k :: 0 <= k < |candidates| && candidates[k] == r && r != ""
                   && forall j :: 0 <= j < k ==> candidates[j] == "")
      || (r == fallback && forall j :: 0 <= j < |candidates| ==> candidates[j] == "")
  {
    if candidates != [] && candidates[0] == "" {
      FirstSetIsFirst(candidates[1..], fallback);
      var r := FirstSet(candidates, fallback);
      if exists k :: 0 <= k < |candidates[1..]| && candidates[1..][k] == r && r != ""
                     && forall j :: 0 <= j < k ==> candidates[1..][j] == "" {
        var k :| 0 <= k < |candidates[1..]| && candidates[1..][k] == r && r != ""
                 && forall j :: 0 <= j < k ==> candidates[1..][j] == "";
        assert forall j :: 0 <= j < k + 1 ==> candidates[j] == "" by {
          forall j | 0 <= j < k + 1
            ensures candidates[j] == ""
          {
            if j > 0 {
              assert candidates[j] == candidates[1..][j - 1];
            }
          }
        }
        assert candidates[k + 1] == r;
      } else {
        forall j | 0 <= j < |candidates|
          ensures candidates[j] == ""
        {
          if j > 0 {
            assert candidates[j] == candidates[1..][j - 1];
          }
        }
      }
    } else if candidates != [] {
      assert candidates[0] == FirstSet(candidates, fallback);
    }
  }

  function ProfileName(env: Env): string {
    var profile := Getenv(env, "AWS_PROFILE");
    if profile == "" then "default" else profile
  }

  function RegionName(env: Env): string {
    var region := Getenv(env, "AWS_REGION");
    if region == "" then
      var fallback := Getenv(env, "AWS_DEFAULT_REGION");
      if fallback == "" then "unknown" else fallback
    else region
  }

  /** The profile is AWS_PROFILE, or "default" when that is empty or unset. */
  lemma ProfileChain(env: Env)
    ensures ProfileName(env) == FirstSet([Getenv(env, "AWS_PROFILE")], "default")
  {
    var profiles := [Getenv(env, "AWS_PROFILE")];
    if profiles[0] == "" {
      assert profiles[1..] == [];
    }
  }

  /** The region is AWS_REGION, else AWS_DEFAULT_REGION, else "unknown", a variable counting only
      when it is non-empty. */
  lemma RegionChain(env: Env)
    ensures RegionName(env) == FirstSet([Getenv(env, "AWS_REGION"), Getenv(env, "AWS_DEFAULT_REGION")], "unknown")
  {
    var regions := [Getenv(env, "AWS_REGION"), Getenv(env, "AWS_DEFAULT_REGION")];
    if regions[0] == "" {
      assert regions[1..] == [regions[1]];
      if regions[1] == "" {
        assert regions[1..][1..] == [];
      }
    }
  }

  /** GetAWSProfileInfo: the line names the first set profile variable and the first set region
      variable, with their fallbacks. */
  function GetAwsProfileInfo(env: Env): (r: string)
    ensures r == "AWS Profile: " + FirstSet([Getenv(env, "AWS_PROFILE")], "default")
                 + ", Region: " + FirstSet([Getenv(env, "AWS_REGION"), Getenv(env, "AWS_DEFAULT_REGION")], "unknown")
  {
    ProfileChain(env);
    RegionChain(env);
    "AWS Profile: " + ProfileName(env) + ", Region: " + RegionName(env)
  }

  /** The profile is AWS_PROFILE, or "default" when that is empty or unset; the region is
      AWS_REGION, else AWS_DEFAULT_REGION, else "unknown", a variable counting only when it is
      non-empty; and the line names both in a fixed format. */
  lemma ProfileInfoChoices(env: Env)
    ensures ProfileName(env) == FirstSet([Getenv(env, "AWS_PROFILE")], "default")
    ensures RegionName(env) == FirstSet([Getenv(env, "AWS_REGION"), Getenv(env, "AWS_DEFAULT_REGION")], "unknown")
    ensures GetAwsProfileInfo(env) == "AWS Profile: " + ProfileName(env) + ", Region: " + RegionName(env)
    ensures ProfileName(env) != "" && RegionName(env) != ""
  {
    ProfileChain(env);
    RegionChain(env);
  }

  /** The sources of credentials the error message suggests, in the order it lists them. */
  const CredSources: seq<string> := [
    "AWS_ACCESS_KEY_ID and AWS_SECRET_ACCESS_KEY environment variables",
    "~/.aws/credentials file",
    "EC2 instance profile or ECS task role"
  ]

  /** One line of the suggestion list. */
  function Bullet(source: string): string {
    "  - " + source + "\n"
  }

  /** The suggestion list: one bullet line per source, in order. */
  function CredInfo(sources: seq<string>): string {
    if sources == [] then "" else Bullet(sources[0]) + CredInfo(sources[1..])
  }

  /** Appending a source appends its bullet, which is how the message is built line by line. */
  lemma {:induction false} CredInfoAppend(sources: seq<string>, source: string)
    ensures CredInfo(sources + [source]) == CredInfo(sources) + Bullet(source)
    decreases |sources|
  {
    if sources == [] {
      assert [source][1..] == [];
    } else {
      assert (sources + [source])[1..] == sources[1..] + [source];
      CredInfoAppend(sources[1..], source);
    }
  }

  /** The suggestion list names exactly the three sources, in fixed order, one bullet each. */
  lemma CredInfoLines()
    ensures CredInfo(CredSources) == Bullet(CredSources[0]) + Bullet(CredSources[1]) + Bullet(CredSources[2])
  {
    var rest := CredSources[1..];
    var last := rest[1..];
    assert rest[0] == CredSources[1] && last[0] == CredSources[2] && last[1..] == [];
    assert CredInfo(last) == Bullet(CredSources[2]) + "";
    assert Bullet(CredSources[2]) + "" == Bullet(CredSources[2]);
    assert CredInfo(rest) == Bullet(CredSources[1]) + Bullet(CredSources[2]);
    assert CredInfo(CredSources) == Bullet(CredSources[0]) + (Bullet(CredSources[1]) + Bullet(CredSources[2]));
  }

  function CredentialsError(message: string): string {
    "failed to validate AWS credentials: " + message + "\n\nCredentials can be configured via:\n"
    + CredInfo(CredSources)
  }

  /** What CheckAWSCredentials returns: the caller's ARN, or the error. */
  datatype CheckResult = CheckResult(arn: string, err: Option<string>)

  /** CheckAWSCredentials, given the outcome of loading the SDK configuration and the account
      that the identity service answers for. */
  function CredentialCheck(w: World, loadError: Option<string>): CheckResult {
    if loadError.Some? then CheckResult("", Some("failed to load AWS config: " + loadError.value))
    else
      var reply := Issue(w, GetCallerIdentity).reply;
      if reply.Failed? then CheckResult("", Some(CredentialsError(reply.message)))
      else if reply.output.CallerIdentity? then CheckResult(reply.output.arn, None)
      else CheckResult("", None)
  }

  /** The three outcomes of the check: a configuration that does not load is reported as such;
      a refused identity call is reported with the list of credential sources; otherwise the
      check succeeds with the account's caller ARN. */
  lemma CredentialCheckOutcomes(w: World, loadError: Option<string>)
    ensures var r := CredentialCheck(w, loadError);
      var reply := Issue(w, GetCallerIdentity).reply;
      && (loadError.Some? ==> r.err == Some("failed to load AWS config: " + loadError.value) && r.arn == "")
      && (loadError.None? && reply.Failed? ==>
            r.err == Some("failed to validate AWS credentials: " + reply.message
                          + "\n\nCredentials can be configured via:\n"
                          + Bullet(CredSources[0]) + Bullet(CredSources[1]) + Bullet(CredSources[2]))
            && r.arn == "")
      && (loadError.None? && reply.Ok? ==> r.err.None? && r.arn == w.callerArn)
      && (r.err.None? <==> loadError.None? && GetCallerIdentity !in w.faults)
  {
    CredInfoLines();
    var reply := Issue(w, GetCallerIdentity).reply;
    if loadError.None? && reply.Failed? {
      var head := "failed to validate AWS credentials: " + reply.message + "\n\nCredentials can be configured via:\n";
      var a, b, c := Bullet(CredSources[0]), Bullet(CredSources[1]), Bullet(CredSources[2]);
      assert head + (a + b + c) == head + a + b + c;
    }
  }

  /** The suggestion list of CheckAWSCredentials, built one line per source. */
  method ListCredSources() returns (credInfo: string)
    ensures credInfo == CredInfo(CredSources)
  {
    credInfo := "";
    for i := 0 to |CredSources|
      invariant credInfo == CredInfo(CredSources[..i])
    {
      CredInfoAppend(CredSources[..i], CredSources[i]);
      assert CredSources[..i + 1] == CredSources[..i] + [CredSources[i]];
      credInfo := credInfo + "  - " + CredSources[i] + "\n";
    }
    assert CredSources[..|CredSources|] == CredSources;
  }

  /** CheckAWSCredentials: a configuration that does not load ends the check before the identity
      service is called; otherwise GetCallerIdentity is the one call issued, and a failure is
      explained by a message listing the credential sources, built one line per source. */
  method CheckAwsCredentials(loadError: Option<string>, cloud: Provider) returns (arn: string, err: Option<string>)
    modifies cloud
    ensures CheckResult(arn, err) == CredentialCheck(old(cloud.State()), loadError)
    ensures cloud.log == old(cloud.log) + (if loadError.Some? then [] else [GetCallerIdentity])
    ensures cloud.State() == old(cloud.State())
  {
    if loadError.Some? {
      return "", Some("failed to load AWS config: " + loadError.value);
    }
    var identity := cloud.Invoke(GetCallerIdentity);
    if identity.Failed? {
      var credInfo := ListCredSources();
      return "", Some("failed to validate AWS credentials: " + identity.message
                      + "\n\nCredentials can be configured via:\n" + credInfo);
    }
    arn := if identity.output.CallerIdentity? then identity.output.arn else "";
    err := None;
  }
}
