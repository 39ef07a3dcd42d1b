/** What a whole ProvisionResources run issues and returns: the four reconcilers run in order,
    the first error stops the run and names its stage, and an error-free run leaves every
    configured resource in the account. */
module ProvisionFacts {
  import opened Wrappers
  import opened Types
  import opened GoLib
  import opened Cloud
  import opened Bootstrap
  import opened TraceFacts
  import opened BucketFacts
  import opened RepositoryFacts
  import opened IamFacts
  import opened RdsFacts

  /** The position of a service's reconciler in ProvisionResources. */
  function Stage(s: Service): nat {
    match s
    case S3 => 0
    case ECR => 1
    case IAM => 2
    case RDS => 3
    case STS => 4
  }

  /** The text ProvisionResources puts before an error of a service's reconciler. */
  function StagePrefix(s: Service): string {
    match s
    case S3 => "failed to create S3 buckets: "
    case ECR => "failed to create ECR repositories: "
    case IAM => "failed to create IAM users and policies: "
    case RDS => "failed to manage RDS instances: "
    case STS => ""
  }

  /** The calls of `t'` since `t` go to the services in stage order. */
  ghost predicate InStageOrder(t: Trace, t': Trace) {
    forall i, j :: |t.log| <= i <= j < |t'.log| ==> Stage(ServiceOf(t'.log[i])) <= Stage(ServiceOf(t'.log[j]))
  }

  /** No call of `t'` since `t` goes to a service of a stage after `k`. */
  ghost predicate UpToStage(t: Trace, t': Trace, k: nat) {
    forall i :: |t.log| <= i < |t'.log| ==> Stage(ServiceOf(t'.log[i])) <= k
  }

  /** The calls whose failure ends a run. */
  predicate FatalCall(c: Call) {
    CreatesBucket(c) || CreatesRepository(c) || FatalIamCall(c) || FatalRdsCall(c)
  }

  lemma WrapPrefix(prefix: string, o: Outcome)
    ensures var w := Wrap(prefix, o);
      && w.trace == o.trace
      && w.err.Some? == o.err.Some?
      && (w.err.Some? ==> IsPrefix(prefix, w.err.value) && w.err.value[|prefix|..] == o.err.value)
  {
  }

  /** What a run or a prefix of it reports: its calls are in stage order, and a failure ends
      with a fatal call whose stage the error names and after which no stage was touched. */
  ghost predicate Reports(t: Trace, o: Outcome) {
    && Extends(t, o.trace)
    && InStageOrder(t, o.trace)
    && (o.err.Some? ==>
          && |o.trace.log| > |t.log|
          && var last := o.trace.log[|o.trace.log| - 1];
          && FatalCall(last)
          && IsPrefix(StagePrefix(ServiceOf(last)), o.err.value)
          && UpToStage(t, o.trace, Stage(ServiceOf(last))))
  }

  /** One reconciler run after the stages before it keeps the order, and a failure of it names
      its stage and ends with one of its fatal calls. */
  lemma StageStep(t: Trace, a: Trace, o: Outcome, s: Service, fatal: Call -> bool, k: nat)
    requires Extends(t, a) && InStageOrder(t, a) && UpToStage(t, a, k) && k <= Stage(s)
    requires StaysWithin(a, o, s, fatal)
    requires forall c :: fatal(c) ==> FatalCall(c)
    ensures Reports(t, Wrap(StagePrefix(s), o)) && UpToStage(t, o.trace, Stage(s))
  {
    var b := o.trace;
    ExtendsTransitive(t, a, b);
    WrapPrefix(StagePrefix(s), o);
    forall i | |t.log| <= i < |b.log|
      ensures Stage(ServiceOf(b.log[i])) <= Stage(s)
    {
      if i < |a.log| {
        assert b.log[i] == a.log[i];
      }
    }
    forall i, j | |t.log| <= i <= j < |b.log|
      ensures Stage(ServiceOf(b.log[i])) <= Stage(ServiceOf(b.log[j]))
    {
      if j < |a.log| {
        assert b.log[i] == a.log[i] && b.log[j] == a.log[j];
      } else if i < |a.log| {
        assert b.log[i] == a.log[i];
      }
    }
    if o.err.Some? {
      assert ServiceOf(b.log[|b.log| - 1]) == s;
    }
  }

  lemma BucketStage(t: Trace, region: string, config: Config)
    ensures var s := BucketsOutcome(t, region, config.s3Buckets);
      Reports(t, Wrap(StagePrefix(S3), s)) && UpToStage(t, s.trace, Stage(S3))
  {
    BucketsTouchOnlyS3(t, region, config.s3Buckets);
    StageStep(t, t, BucketsOutcome(t, region, config.s3Buckets), S3, CreatesBucket, 0);
  }

  lemma RepositoryStage(t: Trace, a: Trace, config: Config)
    requires Extends(t, a) && InStageOrder(t, a) && UpToStage(t, a, Stage(S3))
    ensures var e := RepositoriesOutcome(a, config.ecrRepositories);
      Reports(t, Wrap(StagePrefix(ECR), e)) && UpToStage(t, e.trace, Stage(ECR))
  {
    RepositoriesTouchOnlyEcr(a, config.ecrRepositories);
    StageStep(t, a, RepositoriesOutcome(a, config.ecrRepositories), ECR, CreatesRepository, Stage(S3));
  }

  lemma UserStage(t: Trace, a: Trace, config: Config)
    requires Extends(t, a) && InStageOrder(t, a) && UpToStage(t, a, Stage(ECR))
    ensures var u := UsersOutcome(a, config.iamUsers);
      Reports(t, Wrap(StagePrefix(IAM), u)) && UpToStage(t, u.trace, Stage(IAM))
  {
    UsersTouchOnlyIam(a, config.iamUsers);
    StageStep(t, a, UsersOutcome(a, config.iamUsers), IAM, FatalIamCall, Stage(ECR));
  }

  lemma InstanceStage(t: Trace, a: Trace, config: Config)
    requires Extends(t, a) && InStageOrder(t, a) && UpToStage(t, a, Stage(IAM))
    ensures Reports(t, Wrap(StagePrefix(RDS), RdsOutcome(a, config.rdsInstances)))
  {
    RdsTouchesOnlyRds(a, config.rdsInstances);
    StageStep(t, a, RdsOutcome(a, config.rdsInstances), RDS, FatalRdsCall, Stage(IAM));
  }

  /** ProvisionResources touches S3, then ECR, then IAM, then RDS, never going back; when it
      fails, the error carries the prefix of the stage whose fatal call failed last, and no
      later stage was touched. */
  lemma ProvisionStages(t: Trace, region: string, config: Config)
    ensures Reports(t, ProvisionOutcome(t, region, config))
  {
    var o := ProvisionOutcome(t, region, config);
    var s := BucketsOutcome(t, region, config.s3Buckets);
    BucketStage(t, region, config);
    if s.err.Some? {
      assert o == Wrap(StagePrefix(S3), s);
      return;
    }
    var e := RepositoriesOutcome(s.trace, config.ecrRepositories);
    RepositoryStage(t, s.trace, config);
    if e.err.Some? {
      assert o == Wrap(StagePrefix(ECR), e);
      return;
    }
    var u := UsersOutcome(e.trace, config.iamUsers);
    UserStage(t, e.trace, config);
    if u.err.Some? {
      assert o == Wrap(StagePrefix(IAM), u);
      return;
    }
    InstanceStage(t, u.trace, config);
    assert o == Wrap(StagePrefix(RDS), RdsOutcome(u.trace, config.rdsInstances));
  }

  /** The configured resources all exist in the account. */
  predicate Provisioned(w: World, config: Config) {
    && (forall i :: 0 <= i < |config.s3Buckets| ==> config.s3Buckets[i].name in w.buckets)
    && (forall i :: 0 <= i < |config.ecrRepositories| ==> config.ecrRepositories[i].name in w.repositories)
    && (forall i :: 0 <= i < |config.iamUsers| ==> UserProvisioned(w, config.iamUsers[i]))
    && (forall i :: 0 <= i < |config.rdsInstances| ==> config.rdsInstances[i].identifier in w.instances)
  }

  /** When ProvisionResources returns no error, every configured bucket, repository, user (with
      each of its policies) and database instance exists. */
  lemma ProvisionEnsured(t: Trace, region: string, config: Config)
    ensures var o := ProvisionOutcome(t, region, config);
      o.err.None? ==> Provisioned(o.trace.world, config)
  {
    var o := ProvisionOutcome(t, region, config);
    var s := BucketsOutcome(t, region, config.s3Buckets);
    var e := RepositoriesOutcome(s.trace, config.ecrRepositories);
    var u := UsersOutcome(e.trace, config.iamUsers);
    var r := RdsOutcome(u.trace, config.rdsInstances);
    if o.err.None? {
      assert s.err.None? && e.err.None? && u.err.None? && r.err.None? && o.trace == r.trace;
      BucketsEnsured(t, region, config.s3Buckets);
      RepositoriesEnsured(s.trace, config.ecrRepositories);
      UsersEnsured(e.trace, config.iamUsers);
      InstancesEnsured(u.trace, config.rdsInstances);
      RepositoriesTouchOnlyEcr(s.trace, config.ecrRepositories);
      UsersTouchOnlyIam(e.trace, config.iamUsers);
      RdsTouchesOnlyRds(u.trace, config.rdsInstances);
      ExtendsTransitive(e.trace, u.trace, r.trace);
      ExtendsTransitive(s.trace, e.trace, r.trace);
      UserProvisionedLasts();
    }
  }
}
