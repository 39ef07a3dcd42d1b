/** What CreateS3Buckets issues and returns, for every answer the account can give. */
module BucketFacts {
  import opened Wrappers
  import opened Types
  import opened Cloud
  import opened Bootstrap
  import opened TraceFacts

  /** The configuration calls a bucket's settings call for, whatever the account answers. */
  function ConfigCalls(b: S3Bucket): seq<Call> {
    Gated(b.versioning == "enabled", PutBucketVersioning(b.name, "Enabled"))
    + Gated(b.encryption != "", PutBucketEncryption(b.name, "AES256"))
    + Gated(b.cors.Some?, CorsCall(b))
    + Gated(b.policy != "", PutBucketPolicy(b.name, b.policy))
  }

  /** A call that configures an existing bucket. */
  predicate IsBucketSetting(c: Call) {
    c.PutBucketVersioning? || c.PutBucketEncryption? || c.PutBucketCors? || c.PutBucketPolicy?
  }

  lemma ConfigCallsAreSettings(b: S3Bucket)
    ensures forall c :: c in ConfigCalls(b) ==> IsBucketSetting(c) && c.bucket == b.name && ServiceOf(c) == S3
  {
  }

  /** Every gated configuration call is issued whatever the earlier ones answered, and a
      failing one only adds a warning about itself. */
  lemma ConfigureBucketCalls(t: Trace, b: S3Bucket)
    ensures var r := ConfigureBucket(t, b);
      Extends(t, r) && r.log == t.log + ConfigCalls(b) && WarnsOnlyAbout(t, r, ConfigCalls(b))
  {
    var vs := Gated(b.versioning == "enabled", PutBucketVersioning(b.name, "Enabled"));
    var es := Gated(b.encryption != "", PutBucketEncryption(b.name, "AES256"));
    var cs := Gated(b.cors.Some?, CorsCall(b));
    var ps := Gated(b.policy != "", PutBucketPolicy(b.name, b.policy));
    var v := Optional(t, b.versioning == "enabled", PutBucketVersioning(b.name, "Enabled"));
    var e := Optional(v, b.encryption != "", PutBucketEncryption(b.name, "AES256"));
    var c := Optional(e, b.cors.Some?, CorsCall(b));
    var p := Optional(c, b.policy != "", PutBucketPolicy(b.name, b.policy));
    OptionalStep(t, b.versioning == "enabled", PutBucketVersioning(b.name, "Enabled"));
    OptionalStep(v, b.encryption != "", PutBucketEncryption(b.name, "AES256"));
    OptionalStep(e, b.cors.Some?, CorsCall(b));
    OptionalStep(c, b.policy != "", PutBucketPolicy(b.name, b.policy));
    ExtendsTransitive(t, v, e);
    WarnsOnlyAboutTransitive(t, v, e, vs, es);
    Associative(t.log, vs, es);
    ExtendsTransitive(t, e, c);
    WarnsOnlyAboutTransitive(t, e, c, vs + es, cs);
    Associative(t.log, vs + es, cs);
    ExtendsTransitive(t, c, p);
    WarnsOnlyAboutTransitive(t, c, p, vs + es + cs, ps);
    Associative(t.log, vs + es + cs, ps);
  }

  lemma BucketExtends(t: Trace, region: string, b: S3Bucket)
    ensures Extends(t, BucketOutcome(t, region, b).trace)
  {
    var head := Send(t, HeadBucket(b.name));
    SendStep(t, HeadBucket(b.name));
    if head.reply.Ok? {
      ConfigureBucketCalls(head.trace, b);
      ExtendsTransitive(t, head.trace, ConfigureBucket(head.trace, b));
    } else {
      var made := Send(head.trace, CreateBucket(b.name, LocationConstraint(region)));
      SendStep(head.trace, CreateBucket(b.name, LocationConstraint(region)));
      ExtendsTransitive(t, head.trace, made.trace);
      if made.reply.Ok? {
        ConfigureBucketCalls(made.trace, b);
        ExtendsTransitive(t, made.trace, ConfigureBucket(made.trace, b));
      }
    }
  }

  lemma ExistingBucketCalls(t: Trace, region: string, b: S3Bucket)
    requires Issue(t.world, HeadBucket(b.name)).reply.Ok?
    ensures var o := BucketOutcome(t, region, b);
      o.err.None? && o.trace.log == t.log + ([HeadBucket(b.name)] + ConfigCalls(b))
  {
    var head := Send(t, HeadBucket(b.name));
    SendStep(t, HeadBucket(b.name));
    ConfigureBucketCalls(head.trace, b);
    Associative(t.log, [HeadBucket(b.name)], ConfigCalls(b));
  }

  lemma CreatedBucketCalls(t: Trace, region: string, b: S3Bucket)
    requires Issue(t.world, HeadBucket(b.name)).reply.Failed?
    requires Issue(Issue(t.world, HeadBucket(b.name)).world, CreateBucket(b.name, LocationConstraint(region))).reply.Ok?
    ensures var o := BucketOutcome(t, region, b);
      o.err.None? && o.trace.log == t.log + ([HeadBucket(b.name), CreateBucket(b.name, LocationConstraint(region))] + ConfigCalls(b))
  {
    var head := Send(t, HeadBucket(b.name));
    var create := CreateBucket(b.name, LocationConstraint(region));
    var made := Send(head.trace, create);
    SendStep(t, HeadBucket(b.name));
    SendStep(head.trace, create);
    Associative(t.log, [HeadBucket(b.name)], [create]);
    assert [HeadBucket(b.name)] + [create] == [HeadBucket(b.name), create];
    ConfigureBucketCalls(made.trace, b);
    Associative(t.log, [HeadBucket(b.name), create], ConfigCalls(b));
  }

  lemma FailedBucketCalls(t: Trace, region: string, b: S3Bucket)
    requires Issue(t.world, HeadBucket(b.name)).reply.Failed?
    requires Issue(Issue(t.world, HeadBucket(b.name)).world, CreateBucket(b.name, LocationConstraint(region))).reply.Failed?
    ensures var o := BucketOutcome(t, region, b);
      var create := CreateBucket(b.name, LocationConstraint(region));
      && o.trace.log == t.log + [HeadBucket(b.name), create]
      && o.err == Some("failed to create bucket " + b.name + ": "
                       + Issue(Issue(t.world, HeadBucket(b.name)).world, create).reply.message)
  {
    var create := CreateBucket(b.name, LocationConstraint(region));
    var head := Send(t, HeadBucket(b.name));
    SendStep(t, HeadBucket(b.name));
    SendStep(head.trace, create);
    Associative(t.log, [HeadBucket(b.name)], [create]);
    assert [HeadBucket(b.name)] + [create] == [HeadBucket(b.name), create];
  }

  /** The calls and the result of one iteration, for each answer to HeadBucket and CreateBucket:
      a failing CreateBucket is the only error, and it skips the configuration calls. */
  lemma BucketCalls(t: Trace, region: string, b: S3Bucket)
    ensures var o := BucketOutcome(t, region, b);
      var head := Issue(t.world, HeadBucket(b.name));
      var create := CreateBucket(b.name, LocationConstraint(region));
      var made := Issue(head.world, create).reply;
      && Extends(t, o.trace)
      && (head.reply.Ok? ==> o.err.None? && o.trace.log == t.log + ([HeadBucket(b.name)] + ConfigCalls(b)))
      && (head.reply.Failed? && made.Failed? ==>
            o.trace.log == t.log + [HeadBucket(b.name), create]
            && o.err == Some("failed to create bucket " + b.name + ": " + made.message))
      && (head.reply.Failed? && made.Ok? ==>
            o.err.None? && o.trace.log == t.log + ([HeadBucket(b.name), create] + ConfigCalls(b)))
  {
    BucketExtends(t, region, b);
    var head := Issue(t.world, HeadBucket(b.name));
    if head.reply.Ok? {
      ExistingBucketCalls(t, region, b);
    } else if Issue(head.world, CreateBucket(b.name, LocationConstraint(region))).reply.Ok? {
      CreatedBucketCalls(t, region, b);
    } else {
      FailedBucketCalls(t, region, b);
    }
  }

  /** Among `calls`, which start with HeadBucket, CreateBucket appears exactly when HeadBucket
      failed, always for the bucket and with a location constraint exactly outside us-east-1,
      equal to the region. */
  predicate CreatesIffHeadFails(calls: seq<Call>, name: string, region: string, headFailed: bool) {
    && |calls| >= 1 && calls[0] == HeadBucket(name)
    && ((exists i :: 0 <= i < |calls| && calls[i].CreateBucket?) <==> headFailed)
    && (forall i :: 0 <= i < |calls| && calls[i].CreateBucket? ==>
          && calls[i].bucket == name
          && (calls[i].locationConstraint.Some? <==> region != "us-east-1")
          && (calls[i].locationConstraint.Some? ==> calls[i].locationConstraint.value == region))
  }

  lemma CreateShape(calls: seq<Call>, name: string, region: string, headFailed: bool, configs: seq<Call>)
    requires forall c :: c in configs ==> !c.CreateBucket?
    requires calls == [HeadBucket(name)] + Gated(headFailed, CreateBucket(name, LocationConstraint(region))) + configs
    ensures CreatesIffHeadFails(calls, name, region, headFailed)
  {
    if headFailed {
      assert calls[1].CreateBucket?;
    }
  }

  /** The shape of an iteration's calls, stated over any trace the three cases of `BucketCalls`
      describe. */
  lemma ShapeSince(t: Trace, t': Trace, region: string, b: S3Bucket, headFailed: bool, createFailed: bool)
    requires !headFailed ==> t'.log == t.log + ([HeadBucket(b.name)] + ConfigCalls(b))
    requires headFailed && createFailed ==> t'.log == t.log + [HeadBucket(b.name), CreateBucket(b.name, LocationConstraint(region))]
    requires headFailed && !createFailed ==>
      t'.log == t.log + ([HeadBucket(b.name), CreateBucket(b.name, LocationConstraint(region))] + ConfigCalls(b))
    ensures CreatesIffHeadFails(CallsSince(t, t'), b.name, region, headFailed)
  {
    ConfigCallsAreSettings(b);
    var create := CreateBucket(b.name, LocationConstraint(region));
    var configs := if headFailed && createFailed then [] else ConfigCalls(b);
    var calls := [HeadBucket(b.name)] + Gated(headFailed, create) + configs;
    if !headFailed {
      assert calls == [HeadBucket(b.name)] + ConfigCalls(b);
    } else if createFailed {
      assert calls == [HeadBucket(b.name), create];
    } else {
      assert calls == [HeadBucket(b.name), create] + ConfigCalls(b);
    }
    CallsSinceAppended(t, t', calls);
    CreateShape(calls, b.name, region, headFailed, configs);
  }

  /** A bucket is created exactly when HeadBucket fails, and the creation carries a location
      constraint exactly outside us-east-1, equal to the configured region. */
  lemma CreateIffHeadFails(t: Trace, region: string, b: S3Bucket)
    ensures CreatesIffHeadFails(CallsSince(t, BucketOutcome(t, region, b).trace), b.name, region,
                                Issue(t.world, HeadBucket(b.name)).reply.Failed?)
  {
    var head := Issue(t.world, HeadBucket(b.name));
    BucketCalls(t, region, b);
    ShapeSince(t, BucketOutcome(t, region, b).trace, region, b, head.reply.Failed?,
               Issue(head.world, CreateBucket(b.name, LocationConstraint(region))).reply.Failed?);
  }

  predicate CreatesBucket(c: Call) {
    c.CreateBucket?
  }

  /** One iteration only talks to S3, and when it fails its last call is the failed CreateBucket. */
  lemma BucketTouchesOnlyS3(t: Trace, region: string, b: S3Bucket)
    ensures StaysWithin(t, BucketOutcome(t, region, b), S3, CreatesBucket)
  {
    BucketExtends(t, region, b);
    ConfigCallsAreSettings(b);
    var o := BucketOutcome(t, region, b);
    var head := Issue(t.world, HeadBucket(b.name));
    var create := CreateBucket(b.name, LocationConstraint(region));
    if head.reply.Ok? {
      ExistingBucketCalls(t, region, b);
      IssuedOnlyAppended(t, o.trace, [HeadBucket(b.name)] + ConfigCalls(b), S3);
    } else if Issue(head.world, create).reply.Failed? {
      FailedBucketCalls(t, region, b);
      IssuedOnlyAppended(t, o.trace, [HeadBucket(b.name), create], S3);
      assert CreatesBucket(o.trace.log[|o.trace.log| - 1]);
    } else {
      CreatedBucketCalls(t, region, b);
      IssuedOnlyAppended(t, o.trace, [HeadBucket(b.name), create] + ConfigCalls(b), S3);
    }
  }

  /** CreateS3Buckets only talks to S3, and when it fails its last call is a failed CreateBucket:
      no configuration failure is fatal. */
  lemma BucketsTouchOnlyS3(t: Trace, region: string, buckets: seq<S3Bucket>)
    ensures StaysWithin(t, BucketsOutcome(t, region, buckets), S3, CreatesBucket)
  {
    forall t': Trace, b: S3Bucket
      ensures StaysWithin(t', BucketStep(region)(t', b), S3, CreatesBucket)
    {
      BucketTouchesOnlyS3(t', region, b);
    }
    EachStaysWithin(t, buckets, BucketStep(region), S3, CreatesBucket);
  }

  predicate BucketExists(w: World, b: S3Bucket) {
    b.name in w.buckets
  }

  /** One successful iteration leaves the bucket in the account. */
  lemma BucketEnsured(t: Trace, region: string, b: S3Bucket)
    ensures var o := BucketOutcome(t, region, b);
      Extends(t, o.trace) && (o.err.None? ==> BucketExists(o.trace.world, b))
  {
    BucketExtends(t, region, b);
    var head := Send(t, HeadBucket(b.name));
    if head.reply.Ok? {
      ConfigureBucketCalls(head.trace, b);
    } else {
      var made := Send(head.trace, CreateBucket(b.name, LocationConstraint(region)));
      if made.reply.Ok? {
        ConfigureBucketCalls(made.trace, b);
      }
    }
  }

  /** When CreateS3Buckets returns no error, every configured bucket exists in the account. */
  lemma BucketsEnsured(t: Trace, region: string, buckets: seq<S3Bucket>)
    ensures var o := BucketsOutcome(t, region, buckets);
      o.err.None? ==> forall i :: 0 <= i < |buckets| ==> buckets[i].name in o.trace.world.buckets
  {
    forall t': Trace, b: S3Bucket
      ensures var o := BucketStep(region)(t', b);
        Extends(t', o.trace) && (o.err.None? ==> BucketExists(o.trace.world, b))
    {
      BucketEnsured(t', region, b);
    }
    EachEnsures(t, buckets, BucketStep(region), BucketExists);
  }
}
