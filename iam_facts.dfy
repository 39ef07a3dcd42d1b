/** What CreateIAMUsersAndPolicies and createIAMPolicy issue and return. */
module IamFacts {
  import opened Wrappers
  import opened Types
  import opened GoLib
  import opened Cloud
  import opened Bootstrap
  import opened TraceFacts

  /** ListPolicies answers with the account's policies and changes nothing. */
  lemma ListAnswersPolicies(w: World, scope: string)
    ensures var list := Issue(w, ListPolicies(scope));
      list.world == w && (list.reply.Ok? ==> ListedPolicies(list.reply) == w.policies)
  {
  }

  lemma UpsertListFails(t: Trace, userName: string, policy: IamPolicy)
    requires Issue(t.world, ListPolicies("Local")).reply.Failed?
    ensures var u := UpsertOutcome(t, userName, policy);
      && u.trace.log == t.log + [ListPolicies("Local")]
      && u.trace.notices == t.notices
      && u.arn == Failure("failed to list IAM policies: " + Issue(t.world, ListPolicies("Local")).reply.message)
  {
  }

  lemma UpsertUpdates(t: Trace, userName: string, policy: IamPolicy)
    requires Issue(t.world, ListPolicies("Local")).reply.Ok?
    requires FindPolicy(t.world.policies, FullPolicyName(userName, policy.name)).Some?
    ensures var u := UpsertOutcome(t, userName, policy);
      var full := FullPolicyName(userName, policy.name);
      var existing := t.world.policies[FindPolicy(t.world.policies, full).value];
      var version := CreatePolicyVersion(existing.arn, policy.policyDocument, true);
      var reply := Issue(t.world, version).reply;
      && u.trace.log == t.log + [ListPolicies("Local"), version]
      && u.trace.notices == t.notices
      && (reply.Ok? ==> u.arn == Success(existing.arn))
      && (reply.Failed? ==> u.arn == Failure("failed to update IAM policy " + full + ": " + reply.message))
  {
    var full := FullPolicyName(userName, policy.name);
    var list := Send(t, ListPolicies("Local"));
    ListAnswersPolicies(t.world, "Local");
    var existing := t.world.policies[FindPolicy(t.world.policies, full).value];
    var version := CreatePolicyVersion(existing.arn, policy.policyDocument, true);
    SendStep(t, ListPolicies("Local"));
    SendStep(list.trace, version);
    Associative(t.log, [ListPolicies("Local")], [version]);
    assert [ListPolicies("Local")] + [version] == [ListPolicies("Local"), version];
  }

  lemma UpsertCreates(t: Trace, userName: string, policy: IamPolicy)
    requires Issue(t.world, ListPolicies("Local")).reply.Ok?
    requires FindPolicy(t.world.policies, FullPolicyName(userName, policy.name)).None?
    ensures var u := UpsertOutcome(t, userName, policy);
      var full := FullPolicyName(userName, policy.name);
      var create := CreatePolicy(full, policy.description, policy.policyDocument);
      var reply := Issue(t.world, create).reply;
      && u.trace.log == t.log + [ListPolicies("Local"), create]
      && u.trace.notices == t.notices
      && (reply.Ok? ==> u.arn == Success(PolicyArn(full)))
      && (reply.Failed? ==> u.arn == Failure("failed to create IAM policy " + full + ": " + reply.message))
  {
    var full := FullPolicyName(userName, policy.name);
    var list := Send(t, ListPolicies("Local"));
    ListAnswersPolicies(t.world, "Local");
    var create := CreatePolicy(full, policy.description, policy.policyDocument);
    SendStep(t, ListPolicies("Local"));
    SendStep(list.trace, create);
    Associative(t.log, [ListPolicies("Local")], [create]);
    assert [ListPolicies("Local")] + [create] == [ListPolicies("Local"), create];
  }

  /** createIAMPolicy lists the account's local policies first. If the first one called
      `<user>-<policy>` exists it gets a new default version with the configured document and its
      ARN is returned, and no policy is created; otherwise the policy is created under that name.
      A failing list, version or creation is an error. */
  lemma UpsertCalls(t: Trace, userName: string, policy: IamPolicy)
    ensures var u := UpsertOutcome(t, userName, policy);
      var full := FullPolicyName(userName, policy.name);
      var list := Issue(t.world, ListPolicies("Local")).reply;
      var k := FindPolicy(t.world.policies, full);
      && u.trace.notices == t.notices
      && (list.Failed? ==>
            u.trace.log == t.log + [ListPolicies("Local")]
            && u.arn == Failure("failed to list IAM policies: " + list.message))
      && (list.Ok? && k.Some? ==>
            var existing := t.world.policies[k.value];
            var version := CreatePolicyVersion(existing.arn, policy.policyDocument, true);
            && u.trace.log == t.log + [ListPolicies("Local"), version]
            && (u.arn.Success? <==> Issue(t.world, version).reply.Ok?)
            && (u.arn.Success? ==> u.arn.value == existing.arn))
      && (list.Ok? && k.None? ==>
            var create := CreatePolicy(full, policy.description, policy.policyDocument);
            && u.trace.log == t.log + [ListPolicies("Local"), create]
            && (u.arn.Success? <==> Issue(t.world, create).reply.Ok?)
            && (u.arn.Success? ==> u.arn.value == PolicyArn(full)))
  {
    var full := FullPolicyName(userName, policy.name);
    if Issue(t.world, ListPolicies("Local")).reply.Failed? {
      UpsertListFails(t, userName, policy);
    } else if FindPolicy(t.world.policies, full).Some? {
      UpsertUpdates(t, userName, policy);
    } else {
      UpsertCreates(t, userName, policy);
    }
  }

  lemma UpsertExtends(t: Trace, userName: string, policy: IamPolicy)
    ensures Extends(t, UpsertOutcome(t, userName, policy).trace)
  {
    var full := FullPolicyName(userName, policy.name);
    var list := Send(t, ListPolicies("Local"));
    SendStep(t, ListPolicies("Local"));
    if list.reply.Ok? {
      var listed := ListedPolicies(list.reply);
      var k := FindPolicy(listed, full);
      var c := if k.Some? then CreatePolicyVersion(listed[k.value].arn, policy.policyDocument, true)
               else CreatePolicy(full, policy.description, policy.policyDocument);
      SendStep(list.trace, c);
      ExtendsTransitive(t, list.trace, Send(list.trace, c).trace);
    }
  }

  /** After a successful createIAMPolicy the account holds a policy called `<user>-<policy>`. */
  lemma UpsertEnsured(t: Trace, userName: string, policy: IamPolicy)
    ensures var u := UpsertOutcome(t, userName, policy);
      u.arn.Success? ==> HasPolicyNamed(u.trace.world.policies, FullPolicyName(userName, policy.name))
  {
    var full := FullPolicyName(userName, policy.name);
    var u := UpsertOutcome(t, userName, policy);
    ListAnswersPolicies(t.world, "Local");
    if u.arn.Success? {
      var k := FindPolicy(t.world.policies, full);
      if k.Some? {
        var version := CreatePolicyVersion(t.world.policies[k.value].arn, policy.policyDocument, true);
        assert u.trace.world == Issue(t.world, version).world;
        assert u.trace.world.policies[k.value].name == full;
      } else {
        var create := CreatePolicy(full, policy.description, policy.policyDocument);
        assert u.trace.world == Issue(t.world, create).world;
        assert u.trace.world.policies[|t.world.policies|].name == full;
      }
    }
  }

  /** What is printed about a failed attachment: "already attached" exactly when the error says
      EntityAlreadyExists, a warning otherwise, nothing when it succeeds. */
  lemma AttachNoticesMeaning(reply: Reply, attach: Call, policyName: string, userName: string)
    ensures var ns := AttachNotices(reply, attach, policyName, userName);
      && (reply.Ok? <==> ns == [])
      && (reply.Failed? ==>
            && (Contains(reply.message, "EntityAlreadyExists") <==> ns == [PolicyAlreadyAttached(policyName, userName)])
            && (!Contains(reply.message, "EntityAlreadyExists") <==> ns == [Warning(attach, reply.message)]))
  {
  }

  /** Only createIAMPolicy can make a policy's iteration fail: the attachment that follows a
      successful upsert is always issued, and its failure is never an error. */
  lemma AttachNeverFatal(t: Trace, userName: string, policy: IamPolicy)
    ensures var u := UpsertOutcome(t, userName, policy);
      var o := PolicyOutcome(t, userName, policy);
      && (u.arn.Failure? ==> o == Outcome(u.trace, Some(u.arn.error)))
      && (u.arn.Success? ==>
            var attach := AttachUserPolicy(userName, u.arn.value);
            var reply := Issue(u.trace.world, attach).reply;
            && o.err.None?
            && o.trace.log == u.trace.log + [attach]
            && o.trace.notices == u.trace.notices + AttachNotices(reply, attach, policy.name, userName))
  {
  }

  predicate FatalIamCall(c: Call) {
    c.CreateUser? || c.ListPolicies? || c.CreatePolicyVersion? || c.CreatePolicy?
  }

  lemma UpsertTouchesOnlyIam(t: Trace, userName: string, policy: IamPolicy)
    ensures var u := UpsertOutcome(t, userName, policy);
      && Extends(t, u.trace)
      && IssuedOnly(t, u.trace, IAM)
      && (u.arn.Failure? ==> |u.trace.log| > |t.log| && FatalIamCall(u.trace.log[|u.trace.log| - 1]))
  {
    UpsertExtends(t, userName, policy);
    var u := UpsertOutcome(t, userName, policy);
    var calls := UpsertCallsOf(t, userName, policy);
    UpsertLog(t, userName, policy);
    IssuedOnlyAppended(t, u.trace, calls, IAM);
  }

  /** The calls createIAMPolicy issues against an account. */
  function UpsertCallsOf(t: Trace, userName: string, policy: IamPolicy): seq<Call> {
    var full := FullPolicyName(userName, policy.name);
    var k := FindPolicy(t.world.policies, full);
    if Issue(t.world, ListPolicies("Local")).reply.Failed? then [ListPolicies("Local")]
    else if k.Some? then [ListPolicies("Local"), CreatePolicyVersion(t.world.policies[k.value].arn, policy.policyDocument, true)]
    else [ListPolicies("Local"), CreatePolicy(full, policy.description, policy.policyDocument)]
  }

  lemma UpsertLog(t: Trace, userName: string, policy: IamPolicy)
    ensures var u := UpsertOutcome(t, userName, policy);
      var calls := UpsertCallsOf(t, userName, policy);
      && u.trace.log == t.log + calls
      && (u.arn.Failure? ==> FatalIamCall(calls[|calls| - 1]))
  {
    var full := FullPolicyName(userName, policy.name);
    if Issue(t.world, ListPolicies("Local")).reply.Failed? {
      UpsertListFails(t, userName, policy);
    } else if FindPolicy(t.world.policies, full).Some? {
      UpsertUpdates(t, userName, policy);
    } else {
      UpsertCreates(t, userName, policy);
    }
  }

  lemma PolicyTouchesOnlyIam(t: Trace, userName: string, policy: IamPolicy)
    ensures StaysWithin(t, PolicyOutcome(t, userName, policy), IAM, FatalIamCall)
  {
    var u := UpsertOutcome(t, userName, policy);
    var o := PolicyOutcome(t, userName, policy);
    UpsertTouchesOnlyIam(t, userName, policy);
    if u.arn.Success? {
      var attach := AttachUserPolicy(userName, u.arn.value);
      var a := Send(u.trace, attach);
      SendStep(u.trace, attach);
      PrintStep(a.trace, AttachNotices(a.reply, attach, policy.name, userName));
      ExtendsTransitive(u.trace, a.trace, o.trace);
      ExtendsTransitive(t, u.trace, o.trace);
      IssuedOnlyAppended(u.trace, o.trace, [attach], IAM);
      IssuedOnlyTransitive(t, u.trace, o.trace, IAM);
    }
  }

  lemma UserTouchesOnlyIam(t: Trace, user: IamUser)
    ensures StaysWithin(t, UserOutcome(t, user), IAM, FatalIamCall)
  {
    forall t': Trace, p: IamPolicy
      ensures StaysWithin(t', PolicyStep(user.name)(t', p), IAM, FatalIamCall)
    {
      PolicyTouchesOnlyIam(t', user.name, p);
    }
    var get := Send(t, GetUser(user.name));
    SendStep(t, GetUser(user.name));
    IssuedOnlyAppended(t, get.trace, [GetUser(user.name)], IAM);
    var start := get.trace;
    if get.reply.Failed? {
      var made := Send(get.trace, CreateUser(user.name));
      SendStep(get.trace, CreateUser(user.name));
      IssuedOnlyAppended(get.trace, made.trace, [CreateUser(user.name)], IAM);
      ExtendsTransitive(t, get.trace, made.trace);
      IssuedOnlyTransitive(t, get.trace, made.trace, IAM);
      start := made.trace;
      if made.reply.Failed? {
        assert FatalIamCall(made.trace.log[|made.trace.log| - 1]);
        return;
      }
    }
    var o := PoliciesOutcome(start, user.name, user.policies);
    EachStaysWithin(start, user.policies, PolicyStep(user.name), IAM, FatalIamCall);
    ExtendsTransitive(t, start, o.trace);
    IssuedOnlyTransitive(t, start, o.trace, IAM);
  }

  /** CreateIAMUsersAndPolicies only talks to IAM, and when it fails its last call is a failed
      CreateUser, ListPolicies, CreatePolicyVersion or CreatePolicy: GetUser and
      AttachUserPolicy failures are never fatal. */
  lemma UsersTouchOnlyIam(t: Trace, users: seq<IamUser>)
    ensures StaysWithin(t, UsersOutcome(t, users), IAM, FatalIamCall)
  {
    forall t': Trace, u: IamUser
      ensures StaysWithin(t', UserOutcome(t', u), IAM, FatalIamCall)
    {
      UserTouchesOnlyIam(t', u);
    }
    EachStaysWithin(t, users, UserOutcome, IAM, FatalIamCall);
  }

  /** The policy `<userName>-<p>` exists in the account. */
  function PolicyNamed(userName: string): (World, IamPolicy) -> bool {
    (w: World, p: IamPolicy) => HasPolicyNamed(w.policies, FullPolicyName(userName, p.name))
  }

  lemma PolicyNamesLast(w: World, w': World, name: string)
    requires Grows(w, w') && HasPolicyNamed(w.policies, name)
    ensures HasPolicyNamed(w'.policies, name)
  {
    var j :| 0 <= j < |w.policies| && w.policies[j].name == name;
    assert w'.policies[j].name == name;
  }

  lemma PolicyNamedLasts(userName: string)
    ensures Lasting(PolicyNamed(userName))
  {
    forall w: World, w': World, p: IamPolicy | Grows(w, w') && PolicyNamed(userName)(w, p)
      ensures PolicyNamed(userName)(w', p)
    {
      PolicyNamesLast(w, w', FullPolicyName(userName, p.name));
    }
  }

  lemma PolicyEnsured(t: Trace, userName: string, policy: IamPolicy)
    ensures var o := PolicyOutcome(t, userName, policy);
      Extends(t, o.trace) && (o.err.None? ==> PolicyNamed(userName)(o.trace.world, policy))
  {
    PolicyTouchesOnlyIam(t, userName, policy);
    UpsertEnsured(t, userName, policy);
    var u := UpsertOutcome(t, userName, policy);
    var o := PolicyOutcome(t, userName, policy);
    if u.arn.Success? {
      AttachNeverFatal(t, userName, policy);
      PolicyNamesLast(u.trace.world, o.trace.world, FullPolicyName(userName, policy.name));
    }
  }

  /** The user exists and so does each of its policies, under its prefixed name. */
  predicate UserProvisioned(w: World, user: IamUser) {
    && user.name in w.users
    && forall j :: 0 <= j < |user.policies| ==> HasPolicyNamed(w.policies, FullPolicyName(user.name, user.policies[j].name))
  }

  lemma UserProvisionedLasts()
    ensures Lasting(UserProvisioned)
  {
    forall w: World, w': World, user: IamUser | Grows(w, w') && UserProvisioned(w, user)
      ensures UserProvisioned(w', user)
    {
      forall j | 0 <= j < |user.policies|
        ensures HasPolicyNamed(w'.policies, FullPolicyName(user.name, user.policies[j].name))
      {
        PolicyNamesLast(w, w', FullPolicyName(user.name, user.policies[j].name));
      }
    }
  }

  /** Once the user exists, an error-free policy loop leaves the user fully provisioned. */
  lemma PoliciesEnsured(start: Trace, user: IamUser)
    requires user.name in start.world.users
    ensures var o := PoliciesOutcome(start, user.name, user.policies);
      o.err.None? ==> UserProvisioned(o.trace.world, user)
  {
    var step := PolicyStep(user.name);
    var named := PolicyNamed(user.name);
    forall t': Trace, p: IamPolicy
      ensures Extends(t', step(t', p).trace)
      ensures step(t', p).err.None? ==> named(step(t', p).trace.world, p)
    {
      PolicyEnsured(t', user.name, p);
    }
    PolicyNamedLasts(user.name);
    EachEnsures(start, user.policies, step, named);
    var o := PoliciesOutcome(start, user.name, user.policies);
    assert Grows(start.world, o.trace.world);
    if o.err.None? {
      forall j | 0 <= j < |user.policies|
        ensures HasPolicyNamed(o.trace.world.policies, FullPolicyName(user.name, user.policies[j].name))
      {
        assert PolicyNamed(user.name)(o.trace.world, user.policies[j]);
      }
    }
  }

  lemma UserEnsured(t: Trace, user: IamUser)
    ensures var o := UserOutcome(t, user);
      Extends(t, o.trace) && (o.err.None? ==> UserProvisioned(o.trace.world, user))
  {
    UserTouchesOnlyIam(t, user);
    var get := Send(t, GetUser(user.name));
    if get.reply.Ok? {
      PoliciesEnsured(get.trace, user);
    } else {
      var made := Send(get.trace, CreateUser(user.name));
      if made.reply.Ok? {
        PoliciesEnsured(made.trace, user);
      }
    }
  }

  /** When CreateIAMUsersAndPolicies returns no error, every configured user exists and so does
      every one of its policies, under the name `<user>-<policy>`. */
  lemma UsersEnsured(t: Trace, users: seq<IamUser>)
    ensures var o := UsersOutcome(t, users);
      o.err.None? ==> forall i :: 0 <= i < |users| ==> UserProvisioned(o.trace.world, users[i])
  {
    forall t': Trace, u: IamUser
      ensures var o := UserOutcome(t', u);
        Extends(t', o.trace) && (o.err.None? ==> UserProvisioned(o.trace.world, u))
    {
      UserEnsured(t', u);
    }
    UserProvisionedLasts();
    EachEnsures(t, users, UserOutcome, UserProvisioned);
  }
}
