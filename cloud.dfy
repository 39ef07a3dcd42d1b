/**
 * An abstract AWS account, standing for the SDK clients the reconcilers call (S3, ECR, IAM, RDS
 * and STS). Every SDK call is a `Call` value; the account answers it from its current state (a
 * missing resource answers with the service's not-found error) unless the fault oracle `faults`
 * names the call, in which case the call fails with the oracle's message and changes nothing.
 * The `Provider` class keeps that state in fields and records every call it receives in `log`.
 */
module Cloud {
  import opened Wrappers

  /** The single CORS rule that PutBucketCors receives. */
  datatype CorsRule = CorsRule(
    allowedOrigins: seq<string>,
    allowedMethods: seq<string>,
    allowedHeaders: seq<string>,
    exposeHeaders: seq<string>,
    maxAgeSeconds: int)

  /** The request of CreateDBInstance; `None` is a field left nil in the SDK input. */
  datatype CreateDbInstanceInput = CreateDbInstanceInput(
    dbInstanceIdentifier: string,
    engine: string,
    dbInstanceClass: string,
    allocatedStorage: int,
    dbName: string,
    engineVersion: Option<string>,
    storageType: Option<string>,
    masterUsername: Option<string>,
    masterUserPassword: Option<string>,
    publiclyAccessible: Option<bool>,
    backupRetentionPeriod: Option<int>,
    multiAZ: Option<bool>)

  /** Every SDK operation the reconcilers issue, with the request fields they set. */
  datatype Call =
    | HeadBucket(bucket: string)
    | CreateBucket(bucket: string, locationConstraint: Option<string>)
    | PutBucketVersioning(bucket: string, status: string)
    | PutBucketEncryption(bucket: string, sseAlgorithm: string)
    | PutBucketCors(bucket: string, corsRules: seq<CorsRule>)
    | PutBucketPolicy(bucket: string, policy: string)
    | DescribeRepositories(repositoryNames: seq<string>)
    | CreateRepository(repositoryName: string)
    | PutLifecyclePolicy(repositoryName: string, lifecyclePolicyText: string)
    | GetUser(userName: string)
    | CreateUser(userName: string)
    | ListPolicies(scope: string)
    | CreatePolicyVersion(policyArn: string, policyDocument: string, setAsDefault: bool)
    | CreatePolicy(policyName: string, description: string, policyDocument: string)
    | AttachUserPolicy(userName: string, policyArn: string)
    | DescribeDBInstances(dbInstanceIdentifier: string)
    | CreateDBInstance(input: CreateDbInstanceInput)
    | ModifyDBInstance(dbInstanceIdentifier: string, allocatedStorage: int, applyImmediately: bool)
    | GetCallerIdentity

  /** The service a call goes to, in the order the provisioning run visits them. */
  datatype Service = S3 | ECR | IAM | RDS | STS

  function ServiceOf(c: Call): Service {
    match c
    case HeadBucket(_) => S3
    case CreateBucket(_, _) => S3
    case PutBucketVersioning(_, _) => S3
    case PutBucketEncryption(_, _) => S3
    case PutBucketCors(_, _) => S3
    case PutBucketPolicy(_, _) => S3
    case DescribeRepositories(_) => ECR
    case CreateRepository(_) => ECR
    case PutLifecyclePolicy(_, _) => ECR
    case GetUser(_) => IAM
    case CreateUser(_) => IAM
    case ListPolicies(_) => IAM
    case CreatePolicyVersion(_, _, _) => IAM
    case CreatePolicy(_, _, _) => IAM
    case AttachUserPolicy(_, _) => IAM
    case DescribeDBInstances(_) => RDS
    case CreateDBInstance(_) => RDS
    case ModifyDBInstance(_, _, _) => RDS
    case GetCallerIdentity => STS
  }

  /** What DescribeDBInstances reports of an instance; `None` is a nil pointer in the SDK output.
      The SDK's storage is an `int32`; here it is any integer, so an account may report sizes no real
      reply carries. The reconciler compares it with the request's `ToInt32` value either way. */
  datatype DbInstanceState = DbInstanceState(
    allocatedStorage: Option<int>,
    status: Option<string>,
    instanceClass: Option<string>,
    engineVersion: Option<string>)

  /** A customer-managed ("Local" scope) IAM policy. */
  datatype ManagedPolicy = ManagedPolicy(
    name: string,
    arn: string,
    description: string,
    document: string,
    versions: nat)

  datatype Output =
    | NoOutput
    | DbInstances(instances: seq<DbInstanceState>)
    | PolicyList(policies: seq<ManagedPolicy>)
    | NewPolicy(arn: string)
    | CallerIdentity(arn: string)

  /** A call's answer: its output, or the text of the error it returned. */
  datatype Reply = Ok(output: Output) | Failed(message: string)

  /** The account's state, and the fault oracle that makes chosen calls fail. The oracle is keyed
      by the call itself and does not change during a run, so a call issued twice fails the same way
      both times. */
  datatype World = World(
    buckets: set<string>,
    repositories: set<string>,
    users: set<string>,
    policies: seq<ManagedPolicy>,
    attachments: set<(string, string)>,
    instances: map<string, DbInstanceState>,
    callerArn: string,
    faults: map<Call, string>)

  datatype Issued = Issued(world: World, reply: Reply)

  /** IAM keeps at most this many versions of a managed policy. */
  const MaxPolicyVersions: nat := 5

  function PolicyArn(name: string): string {
    "arn:aws:iam::policy/" + name
  }

  function InstanceNotFound(id: string): string {
    "DBInstanceNotFound: DBInstance " + id + " not found."
  }

  /** The position of the policy whose ARN is `arn`, if any. */
  function FindArn(ps: seq<ManagedPolicy>, arn: string): (k: Option<nat>)
    ensures k.Some? ==> k.value < |ps| && ps[k.value].arn == arn
    ensures k.None? ==> forall j :: 0 <= j < |ps| ==> ps[j].arn != arn
  {
    if ps == [] then None
    else if ps[0].arn == arn then Some(0)
    else
      var k := FindArn(ps[1..], arn);
      if k.Some? then Some(k.value + 1) else None
  }

  predicate HasPolicyNamed(ps: seq<ManagedPolicy>, name: string) {
    exists j :: 0 <= j < |ps| && ps[j].name == name
  }

  /** No call removes a bucket, repository, user or instance, renames or drops a policy, or
      changes the caller or the fault oracle. */
  predicate Grows(w: World, w': World) {
    && w.buckets <= w'.buckets
    && w.repositories <= w'.repositories
    && w.users <= w'.users
    && w.instances.Keys <= w'.instances.Keys
    && |w.policies| <= |w'.policies|
    && (forall j :: 0 <= j < |w.policies| ==> w'.policies[j].name == w.policies[j].name)
    && w'.callerArn == w.callerArn
    && w'.faults == w.faults
  }

  function Done(w: World): Issued {
    Issued(w, Ok(NoOutput))
  }

  /** How S3 answers a call about bucket `b`. */
  function ServeBucket(w: World, b: string, c: Call): (r: Issued)
    ensures Grows(w, r.world)
  {
    if c.CreateBucket? then
      if b in w.buckets then Issued(w, Failed("BucketAlreadyOwnedByYou"))
      else Done(w.(buckets := w.buckets + {b}))
    else if b in w.buckets then Done(w)
    else if c.HeadBucket? then Issued(w, Failed("NotFound"))
    else Issued(w, Failed("NoSuchBucket"))
  }

  /** How ECR answers a call about repository `n`. */
  function ServeRepository(w: World, n: string, c: Call): (r: Issued)
    ensures Grows(w, r.world)
  {
    if c.CreateRepository? then
      if n in w.repositories then Issued(w, Failed("RepositoryAlreadyExistsException"))
      else Done(w.(repositories := w.repositories + {n}))
    else if n in w.repositories then Done(w)
    else Issued(w, Failed("RepositoryNotFoundException"))
  }

  function ServePolicyVersion(w: World, arn: string, doc: string, setAsDefault: bool): (r: Issued)
    ensures Grows(w, r.world)
  {
    var k := FindArn(w.policies, arn);
    if k.None? then Issued(w, Failed("NoSuchEntity"))
    else
      var p := w.policies[k.value];
      if p.versions >= MaxPolicyVersions then Issued(w, Failed("LimitExceeded"))
      else
        var p' := p.(versions := p.versions + 1, document := if setAsDefault then doc else p.document);
        Done(w.(policies := w.policies[k.value := p']))
  }

  function ServeNewPolicy(w: World, name: string, description: string, doc: string): (r: Issued)
    ensures Grows(w, r.world)
  {
    if HasPolicyNamed(w.policies, name) then Issued(w, Failed("EntityAlreadyExists"))
    else
      var p := ManagedPolicy(name, PolicyArn(name), description, doc, 1);
      Issued(w.(policies := w.policies + [p]), Ok(NewPolicy(p.arn)))
  }

  function ServeNewInstance(w: World, input: CreateDbInstanceInput): (r: Issued)
    ensures Grows(w, r.world)
  {
    var id := input.dbInstanceIdentifier;
    if id in w.instances then Issued(w, Failed("DBInstanceAlreadyExists"))
    else
      var created := DbInstanceState(Some(input.allocatedStorage), Some("creating"), Some(input.dbInstanceClass), input.engineVersion);
      Done(w.(instances := w.instances[id := created]))
  }

  function ServeResize(w: World, id: string, storage: int): (r: Issued)
    ensures Grows(w, r.world)
  {
    if id in w.instances then
      Done(w.(instances := w.instances[id := w.instances[id].(allocatedStorage := Some(storage), status := Some("modifying"))]))
    else Issued(w, Failed(InstanceNotFound(id)))
  }

  /** How the account answers a call that the fault oracle does not name: a call about a
      resource that does not exist fails with the service's not-found error. */
  function Serve(w: World, c: Call): (r: Issued)
    ensures Grows(w, r.world)
  {
    match c
    case HeadBucket(b) => ServeBucket(w, b, c)
    case CreateBucket(b, _) => ServeBucket(w, b, c)
    case PutBucketVersioning(b, _) => ServeBucket(w, b, c)
    case PutBucketEncryption(b, _) => ServeBucket(w, b, c)
    case PutBucketCors(b, _) => ServeBucket(w, b, c)
    case PutBucketPolicy(b, _) => ServeBucket(w, b, c)
    case DescribeRepositories(names) =>
      if forall i :: 0 <= i < |names| ==> names[i] in w.repositories then Done(w)
      else Issued(w, Failed("RepositoryNotFoundException"))
    case CreateRepository(n) => ServeRepository(w, n, c)
    case PutLifecyclePolicy(n, _) => ServeRepository(w, n, c)
    case GetUser(u) =>
      if u in w.users then Done(w) else Issued(w, Failed("NoSuchEntity"))
    case CreateUser(u) =>
      if u in w.users then Issued(w, Failed("EntityAlreadyExists"))
      else Done(w.(users := w.users + {u}))
    case ListPolicies(_) => Issued(w, Ok(PolicyList(w.policies)))
    case CreatePolicyVersion(arn, doc, setAsDefault) => ServePolicyVersion(w, arn, doc, setAsDefault)
    case CreatePolicy(name, description, doc) => ServeNewPolicy(w, name, description, doc)
    case AttachUserPolicy(u, arn) =>
      if u in w.users && FindArn(w.policies, arn).Some? then Done(w.(attachments := w.attachments + {(u, arn)}))
      else Issued(w, Failed("NoSuchEntity"))
    case DescribeDBInstances(id) =>
      if id in w.instances then Issued(w, Ok(DbInstances([w.instances[id]])))
      else Issued(w, Failed(InstanceNotFound(id)))
    case CreateDBInstance(input) => ServeNewInstance(w, input)
    case ModifyDBInstance(id, storage, _) => ServeResize(w, id, storage)
    case GetCallerIdentity => Issued(w, Ok(CallerIdentity(w.callerArn)))
  }

  /** One SDK call against the account: the oracle's failure if it names the call, else `Serve`. */
  function Issue(w: World, c: Call): (r: Issued)
    ensures Grows(w, r.world)
    ensures c in w.faults ==> r == Issued(w, Failed(w.faults[c]))
    ensures c !in w.faults ==> r == Serve(w, c)
  {
    if c in w.faults then Issued(w, Failed(w.faults[c])) else Serve(w, c)
  }

  /** The account as the SDK clients see it, with the log of every call it has received. */
  class Provider {
    var buckets: set<string>
    var repositories: set<string>
    var users: set<string>
    var policies: seq<ManagedPolicy>
    var attachments: set<(string, string)>
    var instances: map<string, DbInstanceState>
    const callerArn: string
    const faults: map<Call, string>
    var log: seq<Call>

    function State(): World
      reads this
    {
      World(buckets, repositories, users, policies, attachments, instances, callerArn, faults)
    }

    constructor (initial: World)
      ensures State() == initial && log == []
    {
      buckets, repositories, users := initial.buckets, initial.repositories, initial.users;
      policies, attachments, instances := initial.policies, initial.attachments, initial.instances;
      callerArn, faults := initial.callerArn, initial.faults;
      log := [];
    }

    /** Sends `c` to the account: the state moves as `Issue` says and `c` is appended to the log. */
    method Invoke(c: Call) returns (reply: Reply)
      modifies this
      ensures State() == Issue(old(State()), c).world
      ensures reply == Issue(old(State()), c).reply
      ensures log == old(log) + [c]
    {
      var r := Issue(State(), c);
      buckets, repositories, users := r.world.buckets, r.world.repositories, r.world.users;
      policies, attachments, instances := r.world.policies, r.world.attachments, r.world.instances;
      log := log + [c];
      reply := r.reply;
    }
  }
}
