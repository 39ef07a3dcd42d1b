/** What CreateECRRepositories issues and returns, for every answer the account can give. */
module RepositoryFacts {
  import opened Wrappers
  import opened Types
  import opened Cloud
  import opened Bootstrap
  import opened TraceFacts

  function LifecycleCalls(repo: EcrRepository): seq<Call> {
    Gated(repo.lifecyclePolicy != "", PutLifecyclePolicy(repo.name, repo.lifecyclePolicy))
  }

  lemma RepositoryExtends(t: Trace, repo: EcrRepository)
    ensures Extends(t, RepositoryOutcome(t, repo).trace)
  {
    var d := Send(t, DescribeRepositories([repo.name]));
    var lifecycle := PutLifecyclePolicy(repo.name, repo.lifecyclePolicy);
    SendStep(t, DescribeRepositories([repo.name]));
    if d.reply.Ok? {
      OptionalStep(d.trace, repo.lifecyclePolicy != "", lifecycle);
      ExtendsTransitive(t, d.trace, Optional(d.trace, repo.lifecyclePolicy != "", lifecycle));
    } else {
      var made := Send(d.trace, CreateRepository(repo.name));
      SendStep(d.trace, CreateRepository(repo.name));
      ExtendsTransitive(t, d.trace, made.trace);
      if made.reply.Ok? {
        OptionalStep(made.trace, repo.lifecyclePolicy != "", lifecycle);
        ExtendsTransitive(t, made.trace, Optional(made.trace, repo.lifecyclePolicy != "", lifecycle));
      }
    }
  }

  lemma ExistingRepositoryCalls(t: Trace, repo: EcrRepository)
    requires Issue(t.world, DescribeRepositories([repo.name])).reply.Ok?
    ensures var o := RepositoryOutcome(t, repo);
      && o.err.None?
      && o.trace.log == t.log + ([DescribeRepositories([repo.name])] + LifecycleCalls(repo))
      && WarnsOnlyAbout(t, o.trace, LifecycleCalls(repo))
  {
    var d := Send(t, DescribeRepositories([repo.name]));
    SendStep(t, DescribeRepositories([repo.name]));
    OptionalStep(d.trace, repo.lifecyclePolicy != "", PutLifecyclePolicy(repo.name, repo.lifecyclePolicy));
    Associative(t.log, [DescribeRepositories([repo.name])], LifecycleCalls(repo));
  }

  lemma CreatedRepositoryCalls(t: Trace, repo: EcrRepository)
    requires Issue(t.world, DescribeRepositories([repo.name])).reply.Failed?
    requires Issue(Issue(t.world, DescribeRepositories([repo.name])).world, CreateRepository(repo.name)).reply.Ok?
    ensures var o := RepositoryOutcome(t, repo);
      && o.err.None?
      && o.trace.log == t.log + ([DescribeRepositories([repo.name]), CreateRepository(repo.name)] + LifecycleCalls(repo))
      && WarnsOnlyAbout(t, o.trace, LifecycleCalls(repo))
  {
    var describe := DescribeRepositories([repo.name]);
    var create := CreateRepository(repo.name);
    var d := Send(t, describe);
    var made := Send(d.trace, create);
    SendStep(t, describe);
    SendStep(d.trace, create);
    Associative(t.log, [describe], [create]);
    assert [describe] + [create] == [describe, create];
    OptionalStep(made.trace, repo.lifecyclePolicy != "", PutLifecyclePolicy(repo.name, repo.lifecyclePolicy));
    Associative(t.log, [describe, create], LifecycleCalls(repo));
  }

  lemma FailedRepositoryCalls(t: Trace, repo: EcrRepository)
    requires Issue(t.world, DescribeRepositories([repo.name])).reply.Failed?
    requires Issue(Issue(t.world, DescribeRepositories([repo.name])).world, CreateRepository(repo.name)).reply.Failed?
    ensures var o := RepositoryOutcome(t, repo);
      var d := Issue(t.world, DescribeRepositories([repo.name]));
      && o.trace.log == t.log + [DescribeRepositories([repo.name]), CreateRepository(repo.name)]
      && o.trace.notices == t.notices
      && o.err == Some("failed to create ECR repository " + repo.name + ": "
                       + Issue(d.world, CreateRepository(repo.name)).reply.message)
  {
    var describe := DescribeRepositories([repo.name]);
    var create := CreateRepository(repo.name);
    var d := Send(t, describe);
    SendStep(t, describe);
    SendStep(d.trace, create);
    Associative(t.log, [describe], [create]);
    assert [describe] + [create] == [describe, create];
  }

  /** A repository is created exactly when DescribeRepositories fails, a failing creation is the
      only error and skips the lifecycle policy, and the lifecycle policy is set exactly when it
      is configured, a failure there being only a warning. */
  lemma RepositoryCalls(t: Trace, repo: EcrRepository)
    ensures var o := RepositoryOutcome(t, repo);
      var describe := Issue(t.world, DescribeRepositories([repo.name]));
      var made := Issue(describe.world, CreateRepository(repo.name)).reply;
      && Extends(t, o.trace)
      && (describe.reply.Ok? ==>
            && o.err.None?
            && o.trace.log == t.log + ([DescribeRepositories([repo.name])] + LifecycleCalls(repo))
            && WarnsOnlyAbout(t, o.trace, LifecycleCalls(repo)))
      && (describe.reply.Failed? && made.Failed? ==>
            && o.trace.log == t.log + [DescribeRepositories([repo.name]), CreateRepository(repo.name)]
            && o.err == Some("failed to create ECR repository " + repo.name + ": " + made.message))
      && (describe.reply.Failed? && made.Ok? ==>
            && o.err.None?
            && o.trace.log == t.log + ([DescribeRepositories([repo.name]), CreateRepository(repo.name)] + LifecycleCalls(repo))
            && WarnsOnlyAbout(t, o.trace, LifecycleCalls(repo)))
  {
    RepositoryExtends(t, repo);
    var describe := Issue(t.world, DescribeRepositories([repo.name]));
    if describe.reply.Ok? {
      ExistingRepositoryCalls(t, repo);
    } else if Issue(describe.world, CreateRepository(repo.name)).reply.Ok? {
      CreatedRepositoryCalls(t, repo);
    } else {
      FailedRepositoryCalls(t, repo);
    }
  }

  predicate CreatesRepository(c: Call) {
    c.CreateRepository?
  }

  lemma RepositoryTouchesOnlyEcr(t: Trace, repo: EcrRepository)
    ensures StaysWithin(t, RepositoryOutcome(t, repo), ECR, CreatesRepository)
  {
    RepositoryExtends(t, repo);
    var o := RepositoryOutcome(t, repo);
    var describe := Issue(t.world, DescribeRepositories([repo.name]));
    var create := CreateRepository(repo.name);
    if describe.reply.Ok? {
      ExistingRepositoryCalls(t, repo);
      IssuedOnlyAppended(t, o.trace, [DescribeRepositories([repo.name])] + LifecycleCalls(repo), ECR);
    } else if Issue(describe.world, create).reply.Failed? {
      FailedRepositoryCalls(t, repo);
      IssuedOnlyAppended(t, o.trace, [DescribeRepositories([repo.name]), create], ECR);
      assert CreatesRepository(o.trace.log[|o.trace.log| - 1]);
    } else {
      CreatedRepositoryCalls(t, repo);
      IssuedOnlyAppended(t, o.trace, [DescribeRepositories([repo.name]), create] + LifecycleCalls(repo), ECR);
    }
  }

  /** CreateECRRepositories only talks to ECR, and when it fails its last call is a failed
      CreateRepository: a lifecycle-policy failure is never fatal. */
  lemma RepositoriesTouchOnlyEcr(t: Trace, repos: seq<EcrRepository>)
    ensures StaysWithin(t, RepositoriesOutcome(t, repos), ECR, CreatesRepository)
  {
    forall t': Trace, r: EcrRepository
      ensures StaysWithin(t', RepositoryOutcome(t', r), ECR, CreatesRepository)
    {
      RepositoryTouchesOnlyEcr(t', r);
    }
    EachStaysWithin(t, repos, RepositoryOutcome, ECR, CreatesRepository);
  }

  predicate RepositoryExists(w: World, repo: EcrRepository) {
    repo.name in w.repositories
  }

  lemma RepositoryEnsured(t: Trace, repo: EcrRepository)
    ensures var o := RepositoryOutcome(t, repo);
      Extends(t, o.trace) && (o.err.None? ==> RepositoryExists(o.trace.world, repo))
  {
    RepositoryExtends(t, repo);
    var d := Send(t, DescribeRepositories([repo.name]));
    var lifecycle := PutLifecyclePolicy(repo.name, repo.lifecyclePolicy);
    if d.reply.Ok? {
      assert [repo.name][0] == repo.name;
      OptionalStep(d.trace, repo.lifecyclePolicy != "", lifecycle);
    } else {
      var made := Send(d.trace, CreateRepository(repo.name));
      if made.reply.Ok? {
        OptionalStep(made.trace, repo.lifecyclePolicy != "", lifecycle);
      }
    }
  }

  /** When CreateECRRepositories returns no error, every configured repository exists. */
  lemma RepositoriesEnsured(t: Trace, repos: seq<EcrRepository>)
    ensures var o := RepositoriesOutcome(t, repos);
      o.err.None? ==> forall i :: 0 <= i < |repos| ==> repos[i].name in o.trace.world.repositories
  {
    forall t': Trace, r: EcrRepository
      ensures var o := RepositoryOutcome(t', r);
        Extends(t', o.trace) && (o.err.None? ==> RepositoryExists(o.trace.world, r))
    {
      RepositoryEnsured(t', r);
    }
    EachEnsures(t, repos, RepositoryOutcome, RepositoryExists);
  }
}
