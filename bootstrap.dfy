/**
 * The reconcilers of pkg/bootstrap/bootstrap.go. Each one is specified by a function over a
 * `Trace` (the account, the calls it has received and the notices printed so far) that says which
 * calls are issued, in which order and with which request fields, which warnings are printed and
 * which error is returned; the methods of `Bootstrapper` are the reconcilers themselves, proved to
 * move the provider and the printed notices exactly as those functions say.
 */
module Bootstrap {
  import opened Wrappers
  import opened Types
  import opened GoLib
  import opened Cloud

  /** The region where CreateBucket must not carry a location constraint. */
  const DefaultRegion := "us-east-1"

  /** What a reconciler prints besides success messages: warnings and detected drift. */
  datatype Notice =
    | Warning(call: Call, message: string)
    | PolicyAlreadyAttached(policyName: string, userName: string)
    | NotModifiable(identifier: string, status: string)
    | ClassChangeDetected(identifier: string, current: string, requested: string)
    | EngineVersionChangeDetected(identifier: string, current: string, requested: string)

  /** A provisioning run so far: the account, every call it has received, every notice printed. */
  datatype Trace = Trace(world: World, log: seq<Call>, notices: seq<Notice>)

  /** A reconciler's effect: the trace afterwards and the error returned (None is Go's nil). */
  datatype Outcome = Outcome(trace: Trace, err: Option<string>)

  /** `t'` continues `t`: the log and the notices only grow, and so does the account. */
  predicate Extends(t: Trace, t': Trace) {
    t.log <= t'.log && t.notices <= t'.notices && Grows(t.world, t'.world)
  }

  datatype Sent = Sent(trace: Trace, reply: Reply)

  /** One SDK call: the account answers and the call joins the log. */
  function Send(t: Trace, c: Call): Sent {
    var r := Issue(t.world, c);
    Sent(Trace(r.world, t.log + [c], t.notices), r.reply)
  }

  function Print(t: Trace, ns: seq<Notice>): Trace {
    t.(notices := t.notices + ns)
  }

  /** The loop every reconciler runs: `step` on each item in order, returning at the first
      item whose step returns an error. */
  function Each<T>(t: Trace, items: seq<T>, step: (Trace, T) -> Outcome): Outcome
    decreases |items|
  {
    if items == [] then Outcome(t, None)
    else
      var o := step(t, items[0]);
      if o.err.Some? then o else Each(o.trace, items[1..], step)
  }

  // ---------------------------------------------------------------- S3

  function LocationConstraint(region: string): Option<string> {
    if region != DefaultRegion then Some(region) else None
  }

  function ToUpperAll(methods: seq<string>): seq<string> {
    seq(|methods|, i requires 0 <= i < |methods| => ToUpper(methods[i]))
  }

  /** The one CORS rule built from a bucket's CORS block. */
  function CorsRuleFor(cors: CorsConfig): CorsRule {
    CorsRule(cors.allowedOrigins, ToUpperAll(cors.allowedMethods), cors.allowedHeaders,
             cors.exposeHeaders, ToInt32(cors.maxAgeSeconds))
  }

  /** Issues `c`; a failure of `c` is only a warning. */
  function Attempted(t: Trace, c: Call): Trace {
    var s := Send(t, c);
    if s.reply.Failed? then Print(s.trace, [Warning(c, s.reply.message)]) else s.trace
  }

  /** `Attempted` when `gate` holds, nothing otherwise. */
  function Optional(t: Trace, gate: bool, c: Call): Trace {
    if gate then Attempted(t, c) else t
  }

  function CorsCall(b: S3Bucket): Call {
    PutBucketCors(b.name, if b.cors.Some? then [CorsRuleFor(b.cors.value)] else [])
  }

  /** Versioning, encryption, CORS and policy of a bucket that exists, in that order. */
  function ConfigureBucket(t: Trace, b: S3Bucket): Trace {
    var v := Optional(t, b.versioning == "enabled", PutBucketVersioning(b.name, "Enabled"));
    var e := Optional(v, b.encryption != "", PutBucketEncryption(b.name, "AES256"));
    var c := Optional(e, b.cors.Some?, CorsCall(b));
    Optional(c, b.policy != "", PutBucketPolicy(b.name, b.policy))
  }

  /** One iteration of CreateS3Buckets. */
  function BucketOutcome(t: Trace, region: string, b: S3Bucket): Outcome {
    var head := Send(t, HeadBucket(b.name));
    if head.reply.Ok? then Outcome(ConfigureBucket(head.trace, b), None)
    else
      var made := Send(head.trace, CreateBucket(b.name, LocationConstraint(region)));
      if made.reply.Failed? then
        Outcome(made.trace, Some("failed to create bucket " + b.name + ": " + made.reply.message))
      else Outcome(ConfigureBucket(made.trace, b), None)
  }

  function BucketStep(region: string): (Trace, S3Bucket) -> Outcome {
    (t: Trace, b: S3Bucket) => BucketOutcome(t, region, b)
  }

  /** CreateS3Buckets. */
  function BucketsOutcome(t: Trace, region: string, buckets: seq<S3Bucket>): Outcome {
    Each(t, buckets, BucketStep(region))
  }

  // ---------------------------------------------------------------- ECR

  /** One iteration of CreateECRRepositories. */
  function RepositoryOutcome(t: Trace, repo: EcrRepository): Outcome {
    var d := Send(t, DescribeRepositories([repo.name]));
    var lifecycle := PutLifecyclePolicy(repo.name, repo.lifecyclePolicy);
    if d.reply.Ok? then Outcome(Optional(d.trace, repo.lifecyclePolicy != "", lifecycle), None)
    else
      var made := Send(d.trace, CreateRepository(repo.name));
      if made.reply.Failed? then
        Outcome(made.trace, Some("failed to create ECR repository " + repo.name + ": " + made.reply.message))
      else Outcome(Optional(made.trace, repo.lifecyclePolicy != "", lifecycle), None)
  }

  /** CreateECRRepositories. */
  function RepositoriesOutcome(t: Trace, repos: seq<EcrRepository>): Outcome {
    Each(t, repos, RepositoryOutcome)
  }

  // ---------------------------------------------------------------- IAM

  /** The name a user's policy gets in the account, prefixed by the user to avoid clashes. */
  function FullPolicyName(userName: string, policyName: string): string {
    userName + "-" + policyName
  }

  /** The position of the first listed policy called `name`, if any. */
  function FindPolicy(ps: seq<ManagedPolicy>, name: string): (k: Option<nat>)
    ensures k.Some? ==> k.value < |ps| && ps[k.value].name == name
    ensures k.Some? ==> forall j :: 0 <= j < k.value ==> ps[j].name != name
    ensures k.None? <==> forall j :: 0 <= j < |ps| ==> ps[j].name != name
  {
    if ps == [] then None
    else if ps[0].name == name then Some(0)
    else
      var k := FindPolicy(ps[1..], name);
      if k.Some? then Some(k.value + 1) else None
  }

  function ListedPolicies(r: Reply): seq<ManagedPolicy> {
    if r.Ok? && r.output.PolicyList? then r.output.policies else []
  }

  function CreatedArn(r: Reply): string {
    if r.Ok? && r.output.NewPolicy? then r.output.arn else ""
  }

  /** The effect of createIAMPolicy: the trace afterwards and the policy's ARN or the error. */
  datatype Upserted = Upserted(trace: Trace, arn: Result<string, string>)

  function UpsertOutcome(t: Trace, userName: string, policy: IamPolicy): Upserted {
    var full := FullPolicyName(userName, policy.name);
    var list := Send(t, ListPolicies("Local"));
    if list.reply.Failed? then
      Upserted(list.trace, Failure("failed to list IAM policies: " + list.reply.message))
    else
      var listed := ListedPolicies(list.reply);
      var k := FindPolicy(listed, full);
      if k.Some? then
        var v := Send(list.trace, CreatePolicyVersion(listed[k.value].arn, policy.policyDocument, true));
        if v.reply.Failed? then
          Upserted(v.trace, Failure("failed to update IAM policy " + full + ": " + v.reply.message))
        else Upserted(v.trace, Success(listed[k.value].arn))
      else
        var c := Send(list.trace, CreatePolicy(full, policy.description, policy.policyDocument));
        if c.reply.Failed? then
          Upserted(c.trace, Failure("failed to create IAM policy " + full + ": " + c.reply.message))
        else Upserted(c.trace, Success(CreatedArn(c.reply)))
  }

  /** What is printed after AttachUserPolicy besides a success line: an "already attached" line
      when the error says EntityAlreadyExists, a warning for any other error. */
  function AttachNotices(reply: Reply, attach: Call, policyName: string, userName: string): seq<Notice> {
    if reply.Ok? then []
    else if Contains(reply.message, "EntityAlreadyExists") then [PolicyAlreadyAttached(policyName, userName)]
    else [Warning(attach, reply.message)]
  }

  /** Upsert and attach of one policy: the body of the inner loop of CreateIAMUsersAndPolicies. */
  function PolicyOutcome(t: Trace, userName: string, policy: IamPolicy): Outcome {
    var u := UpsertOutcome(t, userName, policy);
    if u.arn.Failure? then Outcome(u.trace, Some(u.arn.error))
    else
      var attach := AttachUserPolicy(userName, u.arn.value);
      var a := Send(u.trace, attach);
      Outcome(Print(a.trace, AttachNotices(a.reply, attach, policy.name, userName)), None)
  }

  function PolicyStep(userName: string): (Trace, IamPolicy) -> Outcome {
    (t: Trace, p: IamPolicy) => PolicyOutcome(t, userName, p)
  }

  /** The inner loop of CreateIAMUsersAndPolicies, over one user's policies. */
  function PoliciesOutcome(t: Trace, userName: string, policies: seq<IamPolicy>): Outcome {
    Each(t, policies, PolicyStep(userName))
  }

  /** One iteration of CreateIAMUsersAndPolicies. */
  function UserOutcome(t: Trace, user: IamUser): Outcome {
    var get := Send(t, GetUser(user.name));
    if get.reply.Ok? then PoliciesOutcome(get.trace, user.name, user.policies)
    else
      var made := Send(get.trace, CreateUser(user.name));
      if made.reply.Failed? then
        Outcome(made.trace, Some("failed to create IAM user " + user.name + ": " + made.reply.message))
      else PoliciesOutcome(made.trace, user.name, user.policies)
  }

  /** CreateIAMUsersAndPolicies. */
  function UsersOutcome(t: Trace, users: seq<IamUser>): Outcome {
    Each(t, users, UserOutcome)
  }

  // ---------------------------------------------------------------- RDS

  function NonEmpty(s: string): (r: Option<string>)
    ensures r.Some? <==> s != ""
    ensures r.Some? ==> r.value == s
  {
    if s != "" then Some(s) else None
  }

  /** The CreateDBInstance request for an instance that does not exist yet. */
  function CreateDbInstanceRequest(inst: RdsInstance): (r: CreateDbInstanceInput)
    ensures r.dbInstanceIdentifier == inst.identifier && r.engine == inst.engine
    ensures r.dbInstanceClass == inst.instanceClass && r.allocatedStorage == ToInt32(inst.allocatedStorage)
    ensures r.engineVersion.Some? <==> inst.engineVersion != ""
    ensures r.storageType.Some? <==> inst.storageType != ""
    ensures r.masterUsername.Some? <==> inst.masterUsername != ""
    ensures r.masterUserPassword.Some? <==> inst.masterPassword != ""
    ensures r.backupRetentionPeriod.Some? <==> inst.backupRetentionPeriod > 0
    ensures r.engineVersion.Some? ==> r.engineVersion.value == inst.engineVersion
    ensures r.storageType.Some? ==> r.storageType.value == inst.storageType
    ensures r.masterUsername.Some? ==> r.masterUsername.value == inst.masterUsername
    ensures r.masterUserPassword.Some? ==> r.masterUserPassword.value == inst.masterPassword
    ensures r.backupRetentionPeriod.Some? ==> r.backupRetentionPeriod.value == ToInt32(inst.backupRetentionPeriod)
    ensures r.publiclyAccessible == Some(inst.publiclyAccessible) && r.multiAZ == Some(inst.multiAZ)
    ensures inst.skipFinalSnapshot ==> r.dbName == inst.dbName
    ensures !inst.skipFinalSnapshot ==> r.dbName == inst.identifier + "-final-snapshot"
  {
    var input := CreateDbInstanceInput(
      inst.identifier, inst.engine, inst.instanceClass, ToInt32(inst.allocatedStorage), inst.dbName,
      NonEmpty(inst.engineVersion), NonEmpty(inst.storageType), NonEmpty(inst.masterUsername),
      NonEmpty(inst.masterPassword), Some(inst.publiclyAccessible),
      if inst.backupRetentionPeriod > 0 then Some(ToInt32(inst.backupRetentionPeriod)) else None,
      Some(inst.multiAZ));
    if inst.skipFinalSnapshot then input else input.(dbName := inst.identifier + "-final-snapshot")
  }

  function DescribedInstances(r: Reply): seq<DbInstanceState> {
    if r.Ok? && r.output.DbInstances? then r.output.instances else []
  }

  /** Class and engine-version differences, which are only reported. */
  function DriftNotices(inst: RdsInstance, current: DbInstanceState): seq<Notice> {
    var cls := current.instanceClass.GetOr("");
    var ver := current.engineVersion.GetOr("");
    (if cls != "" && cls != inst.instanceClass
     then [ClassChangeDetected(inst.identifier, cls, inst.instanceClass)] else [])
    + (if inst.engineVersion != "" && ver != "" && ver != inst.engineVersion
       then [EngineVersionChangeDetected(inst.identifier, ver, inst.engineVersion)] else [])
  }

  function ResizeCall(inst: RdsInstance): Call {
    ModifyDBInstance(inst.identifier, ToInt32(inst.allocatedStorage), true)
  }

  /** The handling of an instance that DescribeDBInstances reported. */
  function ExistingInstanceTrace(t: Trace, inst: RdsInstance, current: DbInstanceState): Trace {
    if current.allocatedStorage.GetOr(0) != ToInt32(inst.allocatedStorage) then
      var status := current.status.GetOr("");
      if status != "available" then Print(t, [NotModifiable(inst.identifier, status)])
      else Print(Attempted(t, ResizeCall(inst)), DriftNotices(inst, current))
    else Print(t, DriftNotices(inst, current))
  }

  /** One iteration of ManageRDSInstances. */
  function InstanceOutcome(t: Trace, inst: RdsInstance): Outcome {
    var d := Send(t, DescribeDBInstances(inst.identifier));
    if d.reply.Failed? then
      if Contains(d.reply.message, "DBInstanceNotFound") then
        var c := Send(d.trace, CreateDBInstance(CreateDbInstanceRequest(inst)));
        if c.reply.Failed? then
          Outcome(c.trace, Some("failed to create RDS instance " + inst.identifier + ": " + c.reply.message))
        else Outcome(c.trace, None)
      else Outcome(d.trace, Some("error checking RDS instance " + inst.identifier + ": " + d.reply.message))
    else
      var found := DescribedInstances(d.reply);
      if |found| > 0 then Outcome(ExistingInstanceTrace(d.trace, inst, found[0]), None)
      else Outcome(d.trace, None)
  }

  /** The loop of ManageRDSInstances. */
  function InstancesOutcome(t: Trace, instances: seq<RdsInstance>): Outcome {
    Each(t, instances, InstanceOutcome)
  }

  /** ManageRDSInstances, which returns at once for an empty list. */
  function RdsOutcome(t: Trace, instances: seq<RdsInstance>): Outcome {
    if |instances| == 0 then Outcome(t, None) else InstancesOutcome(t, instances)
  }

  // ---------------------------------------------------------------- the whole run

  function Wrap(prefix: string, o: Outcome): Outcome {
    if o.err.Some? then o.(err := Some(prefix + o.err.value)) else o
  }

  /** ProvisionResources: buckets, then repositories, then users, then databases, stopping at the
      first reconciler that returns an error. */
  function ProvisionOutcome(t: Trace, region: string, config: Config): Outcome {
    var s := BucketsOutcome(t, region, config.s3Buckets);
    if s.err.Some? then Wrap("failed to create S3 buckets: ", s)
    else
      var e := RepositoriesOutcome(s.trace, config.ecrRepositories);
      if e.err.Some? then Wrap("failed to create ECR repositories: ", e)
      else
        var u := UsersOutcome(e.trace, config.iamUsers);
        if u.err.Some? then Wrap("failed to create IAM users and policies: ", u)
        else Wrap("failed to manage RDS instances: ", RdsOutcome(u.trace, config.rdsInstances))
  }

  // ---------------------------------------------------------------- the imperative reconcilers

  /** convertToMethodsEnum: fills a slice of the same length with the upper-cased methods. */
  method ConvertToMethodsEnum(methods: seq<string>) returns (result: seq<string>)
    ensures |result| == |methods|
    ensures forall i :: 0 <= i < |methods| ==> result[i] == ToUpper(methods[i])
  {
    var buffer := new string[|methods|];
    for i := 0 to |methods|
      invariant forall j :: 0 <= j < i ==> buffer[j] == ToUpper(methods[j])
    {
      buffer[i] := ToUpper(methods[i]);
    }
    result := buffer[..];
  }

  /** The CreateDBInstance request of ManageRDSInstances, built field by field. */
  method CreateInput(instance: RdsInstance) returns (createInput: CreateDbInstanceInput)
    ensures createInput == CreateDbInstanceRequest(instance)
  {
    createInput := CreateDbInstanceInput(
      instance.identifier, instance.engine, instance.instanceClass, ToInt32(instance.allocatedStorage),
      instance.dbName, None, None, None, None, None, None, None);
    if instance.engineVersion != "" {
      createInput := createInput.(engineVersion := Some(instance.engineVersion));
    }
    if instance.storageType != "" {
      createInput := createInput.(storageType := Some(instance.storageType));
    }
    if instance.masterUsername != "" {
      createInput := createInput.(masterUsername := Some(instance.masterUsername));
    }
    if instance.masterPassword != "" {
      createInput := createInput.(masterUserPassword := Some(instance.masterPassword));
    }
    createInput := createInput.(publiclyAccessible := Some(instance.publiclyAccessible));
    if instance.backupRetentionPeriod > 0 {
      createInput := createInput.(backupRetentionPeriod := Some(ToInt32(instance.backupRetentionPeriod)));
    }
    createInput := createInput.(multiAZ := Some(instance.multiAZ));
    if !instance.skipFinalSnapshot {
      // The snapshot name overwrites the database name.
      createInput := createInput.(dbName := instance.identifier + "-final-snapshot");
    }
  }

  class Bootstrapper {
    /** The region of the SDK configuration. */
    const region: string
    /** The account that every SDK client talks to. */
    const cloud: Provider
    /** The warnings and drift reports printed so far. */
    var notices: seq<Notice>

    constructor (region: string, cloud: Provider)
      ensures this.region == region && this.cloud == cloud && notices == []
    {
      this.region := region;
      this.cloud := cloud;
      notices := [];
    }

    /** The run so far, as the specification functions see it. */
    function Current(): Trace
      reads this, cloud
    {
      Trace(cloud.State(), cloud.log, notices)
    }

    method Invoke(c: Call) returns (reply: Reply)
      modifies cloud
      ensures Current() == Send(old(Current()), c).trace && reply == Send(old(Current()), c).reply
    {
      reply := cloud.Invoke(c);
    }

    /** Issues `c` and prints a warning if it fails. */
    method Attempt(c: Call)
      modifies cloud, this`notices
      ensures Current() == Attempted(old(Current()), c)
    {
      var reply := Invoke(c);
      if reply.Failed? {
        notices := notices + [Warning(c, reply.message)];
      }
    }

    method ProvisionResources(config: Config) returns (err: Option<string>)
      modifies cloud, this`notices
      ensures Outcome(Current(), err) == ProvisionOutcome(old(Current()), region, config)
    {
      err := CreateS3Buckets(config.s3Buckets);
      if err.Some? {
        return Some("failed to create S3 buckets: " + err.value);
      }
      err := CreateECRRepositories(config.ecrRepositories);
      if err.Some? {
        return Some("failed to create ECR repositories: " + err.value);
      }
      err := CreateIAMUsersAndPolicies(config.iamUsers);
      if err.Some? {
        return Some("failed to create IAM users and policies: " + err.value);
      }
      err := ManageRDSInstances(config.rdsInstances);
      if err.Some? {
        return Some("failed to manage RDS instances: " + err.value);
      }
      return None;
    }

    method CreateS3Buckets(buckets: seq<S3Bucket>) returns (err: Option<string>)
      modifies cloud, this`notices
      ensures Outcome(Current(), err) == BucketsOutcome(old(Current()), region, buckets)
    {
      for i := 0 to |buckets|
        invariant BucketsOutcome(old(Current()), region, buckets) == BucketsOutcome(Current(), region, buckets[i..])
      {
        assert buckets[i..][0] == buckets[i] && buckets[i..][1..] == buckets[i + 1..];
        err := EnsureBucket(buckets[i]);
        if err.Some? {
          return;
        }
      }
      return None;
    }

    method EnsureBucket(bucket: S3Bucket) returns (err: Option<string>)
      modifies cloud, this`notices
      ensures Outcome(Current(), err) == BucketOutcome(old(Current()), region, bucket)
    {
      var reply := Invoke(HeadBucket(bucket.name));
      if reply.Failed? {
        // No location constraint in the default region: CreateBucket rejects one there.
        var location := None;
        if region != DefaultRegion {
          location := Some(region);
        }
        reply := Invoke(CreateBucket(bucket.name, location));
        if reply.Failed? {
          return Some("failed to create bucket " + bucket.name + ": " + reply.message);
        }
      }
      ConfigureBucketSteps(bucket);
      return None;
    }

    /** The four configuration steps of CreateS3Buckets, each of which only warns on failure. */
    method ConfigureBucketSteps(bucket: S3Bucket)
      modifies cloud, this`notices
      ensures Current() == ConfigureBucket(old(Current()), bucket)
    {
      if bucket.versioning == "enabled" {
        Attempt(PutBucketVersioning(bucket.name, "Enabled"));
      }
      if bucket.encryption != "" {
        Attempt(PutBucketEncryption(bucket.name, "AES256"));
      }
      if bucket.cors.Some? {
        var cors := bucket.cors.value;
        var methods := ConvertToMethodsEnum(cors.allowedMethods);
        assert methods == ToUpperAll(cors.allowedMethods);
        var rule := CorsRule(cors.allowedOrigins, methods, cors.allowedHeaders, cors.exposeHeaders,
                             ToInt32(cors.maxAgeSeconds));
        Attempt(PutBucketCors(bucket.name, [rule]));
      }
      if bucket.policy != "" {
        Attempt(PutBucketPolicy(bucket.name, bucket.policy));
      }
    }

    method CreateECRRepositories(repositories: seq<EcrRepository>) returns (err: Option<string>)
      modifies cloud, this`notices
      ensures Outcome(Current(), err) == RepositoriesOutcome(old(Current()), repositories)
    {
      for i := 0 to |repositories|
        invariant RepositoriesOutcome(old(Current()), repositories) == RepositoriesOutcome(Current(), repositories[i..])
      {
        assert repositories[i..][0] == repositories[i] && repositories[i..][1..] == repositories[i + 1..];
        err := EnsureRepository(repositories[i]);
        if err.Some? {
          return;
        }
      }
      return None;
    }

    method EnsureRepository(repo: EcrRepository) returns (err: Option<string>)
      modifies cloud, this`notices
      ensures Outcome(Current(), err) == RepositoryOutcome(old(Current()), repo)
    {
      var reply := Invoke(DescribeRepositories([repo.name]));
      if reply.Failed? {
        reply := Invoke(CreateRepository(repo.name));
        if reply.Failed? {
          return Some("failed to create ECR repository " + repo.name + ": " + reply.message);
        }
      }
      if repo.lifecyclePolicy != "" {
        Attempt(PutLifecyclePolicy(repo.name, repo.lifecyclePolicy));
      }
      return None;
    }

    method CreateIAMUsersAndPolicies(users: seq<IamUser>) returns (err: Option<string>)
      modifies cloud, this`notices
      ensures Outcome(Current(), err) == UsersOutcome(old(Current()), users)
    {
      for i := 0 to |users|
        invariant UsersOutcome(old(Current()), users) == UsersOutcome(Current(), users[i..])
      {
        assert users[i..][0] == users[i] && users[i..][1..] == users[i + 1..];
        err := EnsureUser(users[i]);
        if err.Some? {
          return;
        }
      }
      return None;
    }

    method EnsureUser(user: IamUser) returns (err: Option<string>)
      modifies cloud, this`notices
      ensures Outcome(Current(), err) == UserOutcome(old(Current()), user)
    {
      var reply := Invoke(GetUser(user.name));
      if reply.Failed? {
        reply := Invoke(CreateUser(user.name));
        if reply.Failed? {
          return Some("failed to create IAM user " + user.name + ": " + reply.message);
        }
      }
      ghost var start := Current();
      for i := 0 to |user.policies|
        invariant PoliciesOutcome(start, user.name, user.policies)
               == PoliciesOutcome(Current(), user.name, user.policies[i..])
      {
        assert user.policies[i..][0] == user.policies[i] && user.policies[i..][1..] == user.policies[i + 1..];
        err := AttachPolicy(user.name, user.policies[i]);
        if err.Some? {
          return;
        }
      }
      return None;
    }

    /** The body of the inner loop of CreateIAMUsersAndPolicies. */
    method AttachPolicy(userName: string, policy: IamPolicy) returns (err: Option<string>)
      modifies cloud, this`notices
      ensures Outcome(Current(), err) == PolicyOutcome(old(Current()), userName, policy)
    {
      var policyArn;
      policyArn, err := CreateIamPolicy(userName, policy);
      if err.Some? {
        return;
      }
      var attach := AttachUserPolicy(userName, policyArn);
      var reply := Invoke(attach);
      if reply.Failed? {
        if Contains(reply.message, "EntityAlreadyExists") {
          notices := notices + [PolicyAlreadyAttached(policy.name, userName)];
        } else {
          notices := notices + [Warning(attach, reply.message)];
        }
      }
    }

    /** createIAMPolicy: updates the policy called `<userName>-<policy.name>` with a new default
        version if the account lists one, and creates it otherwise. */
    method CreateIamPolicy(userName: string, policy: IamPolicy) returns (policyArn: string, err: Option<string>)
      modifies cloud
      ensures var u := UpsertOutcome(old(Current()), userName, policy);
        Current() == u.trace && (if u.arn.Success? then err.None? && policyArn == u.arn.value else err == Some(u.arn.error))
    {
      var fullPolicyName := FullPolicyName(userName, policy.name);
      ghost var list := Send(Current(), ListPolicies("Local"));
      var reply := Invoke(ListPolicies("Local"));
      if reply.Failed? {
        return "", Some("failed to list IAM policies: " + reply.message);
      }
      var listed := ListedPolicies(reply);
      assert Current() == list.trace && listed == ListedPolicies(list.reply);
      for i := 0 to |listed|
        invariant forall j :: 0 <= j < i ==> listed[j].name != fullPolicyName
        invariant Current() == list.trace
      {
        if listed[i].name == fullPolicyName {
          assert FindPolicy(listed, fullPolicyName) == Some(i);
          policyArn := listed[i].arn;
          reply := Invoke(CreatePolicyVersion(policyArn, policy.policyDocument, true));
          if reply.Failed? {
            return "", Some("failed to update IAM policy " + fullPolicyName + ": " + reply.message);
          }
          return policyArn, None;
        }
      }
      assert FindPolicy(listed, fullPolicyName).None?;
      reply := Invoke(CreatePolicy(fullPolicyName, policy.description, policy.policyDocument));
      if reply.Failed? {
        return "", Some("failed to create IAM policy " + fullPolicyName + ": " + reply.message);
      }
      return CreatedArn(reply), None;
    }

    method ManageRDSInstances(instances: seq<RdsInstance>) returns (err: Option<string>)
      modifies cloud, this`notices
      ensures Outcome(Current(), err) == RdsOutcome(old(Current()), instances)
    {
      if |instances| == 0 {
        return None;
      }
      for i := 0 to |instances|
        invariant InstancesOutcome(old(Current()), instances) == InstancesOutcome(Current(), instances[i..])
      {
        assert instances[i..][0] == instances[i] && instances[i..][1..] == instances[i + 1..];
        err := EnsureDbInstance(instances[i]);
        if err.Some? {
          return;
        }
      }
      return None;
    }

    method EnsureDbInstance(instance: RdsInstance) returns (err: Option<string>)
      modifies cloud, this`notices
      ensures Outcome(Current(), err) == InstanceOutcome(old(Current()), instance)
    {
      var reply := Invoke(DescribeDBInstances(instance.identifier));
      if reply.Failed? {
        if Contains(reply.message, "DBInstanceNotFound") {
          var createInput := CreateInput(instance);
          reply := Invoke(CreateDBInstance(createInput));
          if reply.Failed? {
            return Some("failed to create RDS instance " + instance.identifier + ": " + reply.message);
          }
        } else {
          return Some("error checking RDS instance " + instance.identifier + ": " + reply.message);
        }
      } else {
        var found := DescribedInstances(reply);
        if |found| > 0 {
          ReconcileExisting(instance, found[0]);
        }
      }
      return None;
    }

    /** The part of ManageRDSInstances that handles an instance the account reported. */
    method ReconcileExisting(instance: RdsInstance, existing: DbInstanceState)
      modifies cloud, this`notices
      ensures Current() == ExistingInstanceTrace(old(Current()), instance, existing)
    {
      var currentStorage := 0;
      if existing.allocatedStorage.Some? {
        currentStorage := existing.allocatedStorage.value;
      }
      if currentStorage != ToInt32(instance.allocatedStorage) {
        var instanceStatus := "";
        if existing.status.Some? {
          instanceStatus := existing.status.value;
        }
        if instanceStatus != "available" {
          notices := notices + [NotModifiable(instance.identifier, instanceStatus)];
          // The loop's `continue`: the class and version checks below are skipped.
          return;
        }
        Attempt(ModifyDBInstance(instance.identifier, ToInt32(instance.allocatedStorage), true));
      }
      ghost var checked := notices;
      var currentClass := "";
      if existing.instanceClass.Some? {
        currentClass := existing.instanceClass.value;
      }
      if currentClass != "" && currentClass != instance.instanceClass {
        notices := notices + [ClassChangeDetected(instance.identifier, currentClass, instance.instanceClass)];
      }
      var currentVersion := "";
      if existing.engineVersion.Some? {
        currentVersion := existing.engineVersion.value;
      }
      if instance.engineVersion != "" && currentVersion != "" && currentVersion != instance.engineVersion {
        notices := notices + [EngineVersionChangeDetected(instance.identifier, currentVersion, instance.engineVersion)];
      }
      assert notices == checked + DriftNotices(instance, existing);
    }
  }
}
