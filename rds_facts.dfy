/** What ManageRDSInstances issues, reports and returns, for every answer the account can give. */
module RdsFacts {
  import opened Wrappers
  import opened Types
  import opened GoLib
  import opened Cloud
  import opened Bootstrap
  import opened TraceFacts

  /** A reported instance is resized exactly when its storage (nil read as 0) differs from the
      configured one and its status (nil read as "") is "available". */
  predicate Resizes(inst: RdsInstance, current: DbInstanceState) {
    current.allocatedStorage.GetOr(0) != ToInt32(inst.allocatedStorage) && current.status.GetOr("") == "available"
  }

  /** A reported instance whose storage differs but that cannot be modified now. */
  predicate Blocked(inst: RdsInstance, current: DbInstanceState) {
    current.allocatedStorage.GetOr(0) != ToInt32(inst.allocatedStorage) && current.status.GetOr("") != "available"
  }

  /** The class and engine-version differences are reported, never acted on: a class notice
      exactly when the reported class is set and differs, a version notice exactly when both
      versions are set and differ. */
  lemma DriftNoticesMeaning(inst: RdsInstance, current: DbInstanceState)
    ensures var ns := DriftNotices(inst, current);
      var cls := current.instanceClass.GetOr("");
      var ver := current.engineVersion.GetOr("");
      && (ClassChangeDetected(inst.identifier, cls, inst.instanceClass) in ns
          <==> cls != "" && cls != inst.instanceClass)
      && (EngineVersionChangeDetected(inst.identifier, ver, inst.engineVersion) in ns
          <==> inst.engineVersion != "" && ver != "" && ver != inst.engineVersion)
      && forall n :: n in ns ==> n.ClassChangeDetected? || n.EngineVersionChangeDetected?
  {
  }

  /** The handling of a reported instance: ModifyDBInstance, with the configured storage and
      ApplyImmediately, is issued exactly when `Resizes` holds; a blocked instance gets only the
      not-modifiable notice, so its class and version are not compared; otherwise the drift
      notices follow, after a warning if the modification failed. */
  lemma ExistingInstanceCalls(t: Trace, inst: RdsInstance, current: DbInstanceState)
    ensures var r := ExistingInstanceTrace(t, inst, current);
      var reply := Issue(t.world, ResizeCall(inst)).reply;
      && Extends(t, r)
      && r.log == t.log + Gated(Resizes(inst, current), ResizeCall(inst))
      && (Blocked(inst, current) ==>
            r.notices == t.notices + [NotModifiable(inst.identifier, current.status.GetOr(""))])
      && (Resizes(inst, current) ==>
            r.notices == t.notices + (if reply.Failed? then [Warning(ResizeCall(inst), reply.message)] else [])
                                   + DriftNotices(inst, current))
      && (current.allocatedStorage.GetOr(0) == ToInt32(inst.allocatedStorage) ==>
            r.world == t.world && r.notices == t.notices + DriftNotices(inst, current))
  {
    var r := ExistingInstanceTrace(t, inst, current);
    if Resizes(inst, current) {
      var a := Attempted(t, ResizeCall(inst));
      AttemptedStep(t, ResizeCall(inst));
      PrintStep(a, DriftNotices(inst, current));
      ExtendsTransitive(t, a, r);
    } else if Blocked(inst, current) {
      PrintStep(t, [NotModifiable(inst.identifier, current.status.GetOr(""))]);
    } else {
      PrintStep(t, DriftNotices(inst, current));
    }
  }

  /** The calls after a successful DescribeDBInstances: the modification, when the first
      reported instance needs and allows one. */
  function ReportedCalls(inst: RdsInstance, reply: Reply): seq<Call> {
    var found := DescribedInstances(reply);
    if |found| > 0 then Gated(Resizes(inst, found[0]), ResizeCall(inst)) else []
  }

  function Describe(inst: RdsInstance): Call {
    DescribeDBInstances(inst.identifier)
  }

  function Create(inst: RdsInstance): Call {
    CreateDBInstance(CreateDbInstanceRequest(inst))
  }

  /** A successful describe reports the account's own record of the instance. */
  lemma DescribeReports(w: World, inst: RdsInstance)
    requires Issue(w, Describe(inst)).reply.Ok?
    ensures inst.identifier in w.instances
    ensures DescribedInstances(Issue(w, Describe(inst)).reply) == [w.instances[inst.identifier]]
  {
  }

  lemma ReportedInstanceCalls(t: Trace, inst: RdsInstance)
    requires Issue(t.world, Describe(inst)).reply.Ok?
    ensures var o := InstanceOutcome(t, inst);
      && Extends(t, o.trace)
      && o.err.None?
      && o.trace.log == t.log + ([Describe(inst)] + ReportedCalls(inst, Issue(t.world, Describe(inst)).reply))
  {
    var d := Send(t, Describe(inst));
    SendStep(t, Describe(inst));
    var found := DescribedInstances(d.reply);
    if |found| > 0 {
      ExistingInstanceCalls(d.trace, inst, found[0]);
      ExtendsTransitive(t, d.trace, ExistingInstanceTrace(d.trace, inst, found[0]));
      Associative(t.log, [Describe(inst)], ReportedCalls(inst, d.reply));
    } else {
      assert t.log + [Describe(inst)] + [] == t.log + [Describe(inst)];
    }
  }

  lemma CreatedInstanceCalls(t: Trace, inst: RdsInstance)
    requires Issue(t.world, Describe(inst)).reply.Failed?
    requires Contains(Issue(t.world, Describe(inst)).reply.message, "DBInstanceNotFound")
    requires Issue(Issue(t.world, Describe(inst)).world, Create(inst)).reply.Ok?
    ensures var o := InstanceOutcome(t, inst);
      && Extends(t, o.trace)
      && o.err.None?
      && o.trace.log == t.log + [Describe(inst), Create(inst)]
      && o.trace.notices == t.notices
  {
    var d := Send(t, Describe(inst));
    SendStep(t, Describe(inst));
    SendStep(d.trace, Create(inst));
    ExtendsTransitive(t, d.trace, Send(d.trace, Create(inst)).trace);
    assert t.log + [Describe(inst)] + [Create(inst)] == t.log + [Describe(inst), Create(inst)];
  }

  lemma FailedCreateCalls(t: Trace, inst: RdsInstance)
    requires Issue(t.world, Describe(inst)).reply.Failed?
    requires Contains(Issue(t.world, Describe(inst)).reply.message, "DBInstanceNotFound")
    requires Issue(Issue(t.world, Describe(inst)).world, Create(inst)).reply.Failed?
    ensures var o := InstanceOutcome(t, inst);
      var made := Issue(Issue(t.world, Describe(inst)).world, Create(inst)).reply;
      && Extends(t, o.trace)
      && o.err == Some("failed to create RDS instance " + inst.identifier + ": " + made.message)
      && o.trace.log == t.log + [Describe(inst), Create(inst)]
      && o.trace.notices == t.notices
  {
    var d := Send(t, Describe(inst));
    SendStep(t, Describe(inst));
    SendStep(d.trace, Create(inst));
    ExtendsTransitive(t, d.trace, Send(d.trace, Create(inst)).trace);
    assert t.log + [Describe(inst)] + [Create(inst)] == t.log + [Describe(inst), Create(inst)];
  }

  lemma FailedDescribeCalls(t: Trace, inst: RdsInstance)
    requires Issue(t.world, Describe(inst)).reply.Failed?
    requires !Contains(Issue(t.world, Describe(inst)).reply.message, "DBInstanceNotFound")
    ensures var o := InstanceOutcome(t, inst);
      var d := Issue(t.world, Describe(inst)).reply;
      && Extends(t, o.trace)
      && o.err == Some("error checking RDS instance " + inst.identifier + ": " + d.message)
      && o.trace.log == t.log + [Describe(inst)]
      && o.trace.notices == t.notices
  {
    SendStep(t, Describe(inst));
  }

  /** One instance of ManageRDSInstances: CreateDBInstance, with the request built from the
      configuration, is issued exactly when the describe fails with a DBInstanceNotFound error;
      the instance fails exactly when the describe fails otherwise or the creation fails; a
      reported instance never fails, whatever its modification does. */
  lemma InstanceCalls(t: Trace, inst: RdsInstance)
    ensures var o := InstanceOutcome(t, inst);
      var d := Issue(t.world, Describe(inst));
      var missing := d.reply.Failed? && Contains(d.reply.message, "DBInstanceNotFound");
      var made := Issue(d.world, Create(inst)).reply;
      && Extends(t, o.trace)
      && (d.reply.Ok? ==> o.err.None? && o.trace.log == t.log + ([Describe(inst)] + ReportedCalls(inst, d.reply)))
      && (missing ==> o.trace.log == t.log + [Describe(inst), Create(inst)])
      && (d.reply.Failed? && !missing ==> o.trace.log == t.log + [Describe(inst)])
      && (o.err.Some? <==> d.reply.Failed? && (!missing || made.Failed?))
  {
    var d := Issue(t.world, Describe(inst));
    if d.reply.Ok? {
      ReportedInstanceCalls(t, inst);
    } else if !Contains(d.reply.message, "DBInstanceNotFound") {
      FailedDescribeCalls(t, inst);
    } else if Issue(d.world, Create(inst)).reply.Ok? {
      CreatedInstanceCalls(t, inst);
    } else {
      FailedCreateCalls(t, inst);
    }
  }

  /** An instance the account does not have, and whose describe the oracle does not fail, is
      created with the request built from its configuration. */
  lemma MissingInstanceCreated(t: Trace, inst: RdsInstance)
    requires inst.identifier !in t.world.instances && Describe(inst) !in t.world.faults
    ensures Create(inst) in InstanceOutcome(t, inst).trace.log
  {
    var d := Issue(t.world, Describe(inst));
    assert d.reply.message == InstanceNotFound(inst.identifier);
    assert IsPrefix("DBInstanceNotFound", d.reply.message);
    InstanceCalls(t, inst);
    assert InstanceOutcome(t, inst).trace.log[|t.log| + 1] == Create(inst);
  }

  predicate FatalRdsCall(c: Call) {
    c.DescribeDBInstances? || c.CreateDBInstance?
  }

  lemma ReportedWithin(t: Trace, inst: RdsInstance)
    requires Issue(t.world, Describe(inst)).reply.Ok?
    ensures StaysWithin(t, InstanceOutcome(t, inst), RDS, FatalRdsCall)
  {
    ReportedInstanceCalls(t, inst);
    var calls := [Describe(inst)] + ReportedCalls(inst, Issue(t.world, Describe(inst)).reply);
    AppendedWithin(t, InstanceOutcome(t, inst), calls, RDS, FatalRdsCall);
  }

  lemma MissingWithin(t: Trace, inst: RdsInstance)
    requires Issue(t.world, Describe(inst)).reply.Failed?
    requires Contains(Issue(t.world, Describe(inst)).reply.message, "DBInstanceNotFound")
    ensures StaysWithin(t, InstanceOutcome(t, inst), RDS, FatalRdsCall)
  {
    if Issue(Issue(t.world, Describe(inst)).world, Create(inst)).reply.Ok? {
      CreatedInstanceCalls(t, inst);
    } else {
      FailedCreateCalls(t, inst);
    }
    AppendedWithin(t, InstanceOutcome(t, inst), [Describe(inst), Create(inst)], RDS, FatalRdsCall);
  }

  lemma InstanceTouchesOnlyRds(t: Trace, inst: RdsInstance)
    ensures StaysWithin(t, InstanceOutcome(t, inst), RDS, FatalRdsCall)
  {
    var d := Issue(t.world, Describe(inst));
    if d.reply.Ok? {
      ReportedWithin(t, inst);
    } else if Contains(d.reply.message, "DBInstanceNotFound") {
      MissingWithin(t, inst);
    } else {
      FailedDescribeCalls(t, inst);
      AppendedWithin(t, InstanceOutcome(t, inst), [Describe(inst)], RDS, FatalRdsCall);
    }
  }

  /** ManageRDSInstances only talks to RDS, issues nothing for an empty list, and when it fails
      its last call is a failed DescribeDBInstances or CreateDBInstance: a failed modification is
      never fatal. */
  lemma RdsTouchesOnlyRds(t: Trace, instances: seq<RdsInstance>)
    ensures StaysWithin(t, RdsOutcome(t, instances), RDS, FatalRdsCall)
    ensures instances == [] ==> RdsOutcome(t, instances).trace == t
  {
    forall t': Trace, i: RdsInstance
      ensures StaysWithin(t', InstanceOutcome(t', i), RDS, FatalRdsCall)
    {
      InstanceTouchesOnlyRds(t', i);
    }
    EachStaysWithin(t, instances, InstanceOutcome, RDS, FatalRdsCall);
  }

  predicate InstanceExists(w: World, inst: RdsInstance) {
    inst.identifier in w.instances
  }

  lemma InstanceEnsured(t: Trace, inst: RdsInstance)
    ensures var o := InstanceOutcome(t, inst);
      Extends(t, o.trace) && (o.err.None? ==> InstanceExists(o.trace.world, inst))
  {
    InstanceCalls(t, inst);
    var d := Send(t, Describe(inst));
    if d.reply.Ok? {
      DescribeReports(t.world, inst);
    } else if Contains(d.reply.message, "DBInstanceNotFound") {
      var made := Send(d.trace, Create(inst));
      if made.reply.Ok? {
        assert Create(inst) !in d.trace.world.faults;
      }
    }
  }

  /** When ManageRDSInstances returns no error, every configured instance exists. */
  lemma InstancesEnsured(t: Trace, instances: seq<RdsInstance>)
    ensures var o := RdsOutcome(t, instances);
      o.err.None? ==> forall i :: 0 <= i < |instances| ==> instances[i].identifier in o.trace.world.instances
  {
    forall t': Trace, i: RdsInstance
      ensures Extends(t', InstanceOutcome(t', i).trace)
      ensures InstanceOutcome(t', i).err.None? ==> InstanceExists(InstanceOutcome(t', i).trace.world, i)
    {
      InstanceEnsured(t', i);
    }
    EachEnsures(t, instances, InstanceOutcome, InstanceExists);
  }
}
