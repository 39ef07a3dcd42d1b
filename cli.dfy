/**
 * The command of main.go: the order of its steps (load the configuration, check the
 * credentials, stop for --check-creds, stop for --dry-run after printing the plan, provision),
 * and the plan printed in dry-run mode. Output is a sequence of lines, one per Println or Printf call,
 * without the newline that ends it.
 */
module Cli {
  import opened Wrappers
  import opened Types
  import opened Cloud
  import opened Bootstrap
  import opened AwsHelper
  import ProvisionFacts

  // ---------------------------------------------------------------- the dry-run plan

  /** The first line of the plan (written in two parts so that its first characters are
      visible to the verifier, which does not index into long string literals). */
  const Intro := "The " + "following resources would be provisioned:"
  const BucketsHeader := "\nS3 Buckets:"
  const RepositoriesHeader := "\nECR Repositories:"
  const UsersHeader := "\nIAM Users:"
  /** The indentation of the lines under a bucket, repository or user. */
  const Indent := "    "
  const PoliciesHeader := Indent + "Policies:"
  const VersioningLine := Indent + "- Versioning: enabled"
  const CorsLine := Indent + "- CORS configuration would be applied"
  const PolicyAppliedLine := Indent + "- Bucket policy would be applied"
  const LifecycleLine := Indent + "- Lifecycle policy would be applied"

  /** The line naming a bucket, repository or user. */
  function Item(name: string): string {
    "  - " + name
  }

  function EncryptionLine(encryption: string): string {
    Indent + "- Encryption: " + encryption
  }

  function PolicyLine(p: IamPolicy): string {
    Indent + "- " + p.name + ": " + p.description
  }

  /** `line` when `gate` holds, nothing otherwise. */
  function When(gate: bool, line: string): seq<string> {
    if gate then [line] else []
  }

  /** The lines of `f` for each item, in order. */
  function Flatten<T>(items: seq<T>, f: T -> seq<string>): seq<string> {
    if items == [] then [] else f(items[0]) + Flatten(items[1..], f)
  }

  /** One more item adds its lines at the end, which is how the plan is printed. */
  lemma {:induction false} FlattenAppend<T>(items: seq<T>, x: T, f: T -> seq<string>)
    ensures Flatten(items + [x], f) == Flatten(items, f) + f(x)
    decreases |items|
  {
    if items == [] {
      assert [x][1..] == [];
    } else {
      assert (items + [x])[1..] == items[1..] + [x];
      FlattenAppend(items[1..], x, f);
    }
  }

  lemma Associative(a: seq<string>, b: seq<string>, c: seq<string>)
    ensures a + b + c == a + (b + c)
  {
  }

  /** The lines under a bucket's name, one per configured setting. */
  function SettingLines(b: S3Bucket): seq<string> {
    When(b.versioning == "enabled", VersioningLine)
    + When(b.encryption != "", EncryptionLine(b.encryption))
    + When(b.cors.Some?, CorsLine)
    + When(b.policy != "", PolicyAppliedLine)
  }

  function BucketLines(b: S3Bucket): seq<string> {
    [Item(b.name)] + SettingLines(b)
  }

  function RepositoryLines(r: EcrRepository): seq<string> {
    [Item(r.name)] + When(r.lifecyclePolicy != "", LifecycleLine)
  }

  function PolicyLines(p: IamPolicy): seq<string> {
    [PolicyLine(p)]
  }

  function UserLines(u: IamUser): seq<string> {
    [Item(u.name)] + (if |u.policies| > 0 then [PoliciesHeader] + Flatten(u.policies, PolicyLines) else [])
  }

  /** A section: its header and the lines of its items, or nothing for an empty list. */
  function Section<T>(header: string, items: seq<T>, f: T -> seq<string>): seq<string> {
    if |items| > 0 then [header] + Flatten(items, f) else []
  }

  /** printPlannedChanges. The database instances are not part of the plan. */
  function PlanLines(config: Config): seq<string> {
    [Intro]
    + Section(BucketsHeader, config.s3Buckets, BucketLines)
    + Section(RepositoriesHeader, config.ecrRepositories, RepositoryLines)
    + Section(UsersHeader, config.iamUsers, UserLines)
  }

  /** The lines printed for one bucket: its name, then one line per configured setting. */
  method PrintBucket(lines: seq<string>, bucket: S3Bucket) returns (out: seq<string>)
    ensures out == lines + BucketLines(bucket)
  {
    out := lines + [Item(bucket.name)];
    if bucket.versioning == "enabled" {
      out := out + [VersioningLine];
    }
    if bucket.encryption != "" {
      out := out + [EncryptionLine(bucket.encryption)];
    }
    if bucket.cors.Some? {
      out := out + [CorsLine];
    }
    if bucket.policy != "" {
      out := out + [PolicyAppliedLine];
    }
  }

  method PrintRepository(lines: seq<string>, repo: EcrRepository) returns (out: seq<string>)
    ensures out == lines + RepositoryLines(repo)
  {
    out := lines + [Item(repo.name)];
    if repo.lifecyclePolicy != "" {
      out := out + [LifecycleLine];
    }
  }

  /** The lines printed for one user: its name, then its policies under a header of their own. */
  method PrintUser(lines: seq<string>, user: IamUser) returns (out: seq<string>)
    ensures out == lines + UserLines(user)
  {
    out := lines + [Item(user.name)];
    if |user.policies| > 0 {
      out := out + [PoliciesHeader];
      ghost var first := out;
      for j := 0 to |user.policies|
        invariant out == first + Flatten(user.policies[..j], PolicyLines)
      {
        var policy := user.policies[j];
        out := out + [PolicyLine(policy)];
        FlattenAppend(user.policies[..j], policy, PolicyLines);
        assert user.policies[..j + 1] == user.policies[..j] + [policy];
      }
      assert user.policies[..|user.policies|] == user.policies;
    }
  }

  method PrintBuckets(lines: seq<string>, buckets: seq<S3Bucket>) returns (out: seq<string>)
    ensures out == lines + Section(BucketsHeader, buckets, BucketLines)
  {
    out := lines;
    if |buckets| > 0 {
      out := out + [BucketsHeader];
      ghost var start := out;
      for i := 0 to |buckets|
        invariant out == start + Flatten(buckets[..i], BucketLines)
      {
        ghost var done := Flatten(buckets[..i], BucketLines);
        out := PrintBucket(out, buckets[i]);
        Associative(start, done, BucketLines(buckets[i]));
        FlattenAppend(buckets[..i], buckets[i], BucketLines);
        assert buckets[..i + 1] == buckets[..i] + [buckets[i]];
      }
      assert buckets[..|buckets|] == buckets;
    }
  }

  method PrintRepositories(lines: seq<string>, repos: seq<EcrRepository>) returns (out: seq<string>)
    ensures out == lines + Section(RepositoriesHeader, repos, RepositoryLines)
  {
    out := lines;
    if |repos| > 0 {
      out := out + [RepositoriesHeader];
      ghost var start := out;
      for i := 0 to |repos|
        invariant out == start + Flatten(repos[..i], RepositoryLines)
      {
        ghost var done := Flatten(repos[..i], RepositoryLines);
        out := PrintRepository(out, repos[i]);
        Associative(start, done, RepositoryLines(repos[i]));
        FlattenAppend(repos[..i], repos[i], RepositoryLines);
        assert repos[..i + 1] == repos[..i] + [repos[i]];
      }
      assert repos[..|repos|] == repos;
    }
  }

  method PrintUsers(lines: seq<string>, users: seq<IamUser>) returns (out: seq<string>)
    ensures out == lines + Section(UsersHeader, users, UserLines)
  {
    out := lines;
    if |users| > 0 {
      out := out + [UsersHeader];
      ghost var start := out;
      for i := 0 to |users|
        invariant out == start + Flatten(users[..i], UserLines)
      {
        ghost var done := Flatten(users[..i], UserLines);
        out := PrintUser(out, users[i]);
        Associative(start, done, UserLines(users[i]));
        FlattenAppend(users[..i], users[i], UserLines);
        assert users[..i + 1] == users[..i] + [users[i]];
      }
      assert users[..|users|] == users;
    }
  }

  /** printPlannedChanges: the introduction, then a header and a loop for each non-empty list. */
  method PrintPlannedChanges(config: Config) returns (lines: seq<string>)
    ensures lines == PlanLines(config)
  {
    lines := [Intro];
    lines := PrintBuckets(lines, config.s3Buckets);
    lines := PrintRepositories(lines, config.ecrRepositories);
    lines := PrintUsers(lines, config.iamUsers);
  }

  // ---------------------------------------------------------------- what the plan shows

  /** A line naming a bucket, repository or user: two spaces and a dash, where the setting lines
      below it have four spaces and section headers begin a new paragraph. */
  predicate IsItem(line: string) {
    |line| >= 4 && line[..4] == "  - "
  }

  predicate IsHeader(line: string) {
    |line| > 0 && line[0] == '\n'
  }

  /** The lines of `lines` that satisfy `p`, in order. */
  function Keep(lines: seq<string>, p: string -> bool): seq<string> {
    if lines == [] then []
    else (if p(lines[0]) then [lines[0]] else []) + Keep(lines[1..], p)
  }

  lemma {:induction false} KeepConcat(a: seq<string>, b: seq<string>, p: string -> bool)
    ensures Keep(a + b, p) == Keep(a, p) + Keep(b, p)
    decreases |a|
  {
    if a == [] {
      assert a + b == b;
    } else {
      assert (a + b)[0] == a[0] && (a + b)[1..] == a[1..] + b;
      KeepConcat(a[1..], b, p);
    }
  }

  lemma {:induction false} KeepFlatten<T>(xs: seq<T>, f: T -> seq<string>, g: T -> seq<string>, p: string -> bool)
    requires forall x :: Keep(f(x), p) == g(x)
    ensures Keep(Flatten(xs, f), p) == Flatten(xs, g)
    decreases |xs|
  {
    if xs != [] {
      KeepConcat(f(xs[0]), Flatten(xs[1..], f), p);
      KeepFlatten(xs[1..], f, g, p);
    }
  }

  /** Items of one line each give one line per item, in order. */
  lemma {:induction false} FlattenSingles<T>(xs: seq<T>, g: T -> seq<string>)
    requires forall x :: |g(x)| == 1
    ensures |Flatten(xs, g)| == |xs|
    ensures forall k :: 0 <= k < |xs| ==> Flatten(xs, g)[k] == g(xs[k])[0]
    decreases |xs|
  {
    if xs != [] {
      FlattenSingles(xs[1..], g);
      forall k | 0 <= k < |xs|
        ensures Flatten(xs, g)[k] == g(xs[k])[0]
      {
        if k > 0 {
          assert xs[k] == xs[1..][k - 1];
        }
      }
    }
  }

  lemma {:induction false} FlattenNone<T>(xs: seq<T>, f: T -> seq<string>, p: string -> bool)
    requires forall x :: Keep(f(x), p) == []
    ensures Keep(Flatten(xs, f), p) == []
    decreases |xs|
  {
    if xs != [] {
      KeepConcat(f(xs[0]), Flatten(xs[1..], f), p);
      FlattenNone(xs[1..], f, p);
    }
  }

  lemma ItemLine(name: string)
    ensures IsItem(Item(name)) && !IsHeader(Item(name))
  {
    assert Item(name)[..4] == "  - ";
  }

  predicate Indented(line: string) {
    |line| >= 4 && line[..4] == Indent
  }

  /** A line under a bucket, repository or user is neither an item nor a header. */
  lemma IndentedLine(line: string)
    requires Indented(line)
    ensures !IsItem(line) && !IsHeader(line)
  {
    assert line[2] == Indent[2] && line[0] == Indent[0];
  }

  lemma IndentedPrefix(rest: string)
    ensures Indented(Indent + rest)
  {
    assert (Indent + rest)[..4] == Indent;
  }

  lemma {:induction false} KeepNone(lines: seq<string>, p: string -> bool)
    requires forall k :: 0 <= k < |lines| ==> !p(lines[k])
    ensures Keep(lines, p) == []
    decreases |lines|
  {
    if lines != [] {
      assert forall k :: 0 <= k < |lines[1..]| ==> lines[1..][k] == lines[k + 1];
      KeepNone(lines[1..], p);
    }
  }

  /** Lines that are all indented contain no item and no header. */
  lemma KeepIndented(lines: seq<string>)
    requires forall k :: 0 <= k < |lines| ==> Indented(lines[k])
    ensures Keep(lines, IsItem) == [] && Keep(lines, IsHeader) == []
  {
    forall k | 0 <= k < |lines|
      ensures !IsItem(lines[k]) && !IsHeader(lines[k])
    {
      IndentedLine(lines[k]);
    }
    KeepNone(lines, IsItem);
    KeepNone(lines, IsHeader);
  }

  function BucketItem(b: S3Bucket): seq<string> {
    [Item(b.name)]
  }

  function RepositoryItem(r: EcrRepository): seq<string> {
    [Item(r.name)]
  }

  function UserItem(u: IamUser): seq<string> {
    [Item(u.name)]
  }

  lemma SettingsIndented(b: S3Bucket)
    ensures forall k :: 0 <= k < |SettingLines(b)| ==> Indented(SettingLines(b)[k])
  {
    IndentedPrefix("- Versioning: enabled");
    IndentedPrefix("- Encryption: " + b.encryption);
    assert EncryptionLine(b.encryption) == Indent + ("- Encryption: " + b.encryption);
    IndentedPrefix("- CORS configuration would be applied");
    IndentedPrefix("- Bucket policy would be applied");
    var settings := SettingLines(b);
    forall k | 0 <= k < |settings|
      ensures Indented(settings[k])
    {
      assert settings[k] in settings;
    }
  }

  lemma BucketItems(b: S3Bucket)
    ensures Keep(BucketLines(b), IsItem) == BucketItem(b)
    ensures Keep(BucketLines(b), IsHeader) == []
  {
    ItemLine(b.name);
    SettingsIndented(b);
    KeepIndented(SettingLines(b));
    KeepConcat([Item(b.name)], SettingLines(b), IsItem);
    KeepConcat([Item(b.name)], SettingLines(b), IsHeader);
  }

  lemma PolicyLineIndented(p: IamPolicy)
    ensures Indented(PolicyLine(p)) && PolicyLine(p)[4] == '-'
  {
    assert PolicyLine(p) == Indent + ("- " + p.name + ": " + p.description);
    IndentedPrefix("- " + p.name + ": " + p.description);
  }

  lemma UserItems(u: IamUser)
    ensures Keep(UserLines(u), IsItem) == UserItem(u)
    ensures Keep(UserLines(u), IsHeader) == []
  {
    ItemLine(u.name);
    var rest := if |u.policies| > 0 then [PoliciesHeader] + Flatten(u.policies, PolicyLines) else [];
    if |u.policies| > 0 {
      IndentedPrefix("Policies:");
      forall x: IamPolicy
        ensures |PolicyLines(x)| == 1
      {
      }
      FlattenSingles(u.policies, PolicyLines);
      forall k | 0 <= k < |rest|
        ensures Indented(rest[k])
      {
        if k > 0 {
          PolicyLineIndented(u.policies[k - 1]);
        }
      }
    }
    KeepIndented(rest);
    KeepConcat([Item(u.name)], rest, IsItem);
    KeepConcat([Item(u.name)], rest, IsHeader);
  }

  lemma RepositoryItems(r: EcrRepository)
    ensures Keep(RepositoryLines(r), IsItem) == RepositoryItem(r)
    ensures Keep(RepositoryLines(r), IsHeader) == []
  {
    ItemLine(r.name);
    IndentedPrefix("- Lifecycle policy would be applied");
    var rest := When(r.lifecyclePolicy != "", LifecycleLine);
    KeepIndented(rest);
    KeepConcat([Item(r.name)], rest, IsItem);
    KeepConcat([Item(r.name)], rest, IsHeader);
  }

  /** What a section contributes to the lines `p` keeps: the header when `p` keeps it and the
      section is printed, then what `p` keeps of each item. */
  lemma SectionKeep<T>(header: string, xs: seq<T>, f: T -> seq<string>, g: T -> seq<string>, p: string -> bool)
    requires forall x :: Keep(f(x), p) == g(x)
    ensures Keep(Section(header, xs, f), p) == (if p(header) then When(|xs| > 0, header) else []) + Flatten(xs, g)
  {
    KeepFlatten(xs, f, g, p);
    if |xs| > 0 {
      KeepConcat([header], Flatten(xs, f), p);
    }
  }

  /** A section whose items hold no line that `p` keeps contributes only its header. */
  lemma SectionHeaderOnly<T>(header: string, xs: seq<T>, f: T -> seq<string>, p: string -> bool)
    requires p(header)
    requires forall x :: Keep(f(x), p) == []
    ensures Keep(Section(header, xs, f), p) == When(|xs| > 0, header)
  {
    FlattenNone(xs, f, p);
    if |xs| > 0 {
      KeepConcat([header], Flatten(xs, f), p);
    }
  }

  lemma IntroIsPlain()
    ensures !IsItem(Intro) && !IsHeader(Intro)
  {
    assert Intro[0] == 'T';
  }

  lemma HeadersAreHeaders()
    ensures IsHeader(BucketsHeader) && IsHeader(RepositoriesHeader) && IsHeader(UsersHeader)
    ensures !IsItem(BucketsHeader) && !IsItem(RepositoriesHeader) && !IsItem(UsersHeader)
  {
    assert BucketsHeader[0] == '\n' && RepositoriesHeader[0] == '\n' && UsersHeader[0] == '\n';
  }

  lemma BucketSection(bs: seq<S3Bucket>)
    ensures Keep(Section(BucketsHeader, bs, BucketLines), IsItem) == Flatten(bs, BucketItem)
    ensures Keep(Section(BucketsHeader, bs, BucketLines), IsHeader) == When(|bs| > 0, BucketsHeader)
  {
    forall b ensures Keep(BucketLines(b), IsItem) == BucketItem(b) && Keep(BucketLines(b), IsHeader) == [] {
      BucketItems(b);
    }
    HeadersAreHeaders();
    SectionKeep(BucketsHeader, bs, BucketLines, BucketItem, IsItem);
    SectionHeaderOnly(BucketsHeader, bs, BucketLines, IsHeader);
  }

  lemma RepositorySection(rs: seq<EcrRepository>)
    ensures Keep(Section(RepositoriesHeader, rs, RepositoryLines), IsItem) == Flatten(rs, RepositoryItem)
    ensures Keep(Section(RepositoriesHeader, rs, RepositoryLines), IsHeader) == When(|rs| > 0, RepositoriesHeader)
  {
    forall r ensures Keep(RepositoryLines(r), IsItem) == RepositoryItem(r) && Keep(RepositoryLines(r), IsHeader) == [] {
      RepositoryItems(r);
    }
    HeadersAreHeaders();
    SectionKeep(RepositoriesHeader, rs, RepositoryLines, RepositoryItem, IsItem);
    SectionHeaderOnly(RepositoriesHeader, rs, RepositoryLines, IsHeader);
  }

  lemma UserSection(us: seq<IamUser>)
    ensures Keep(Section(UsersHeader, us, UserLines), IsItem) == Flatten(us, UserItem)
    ensures Keep(Section(UsersHeader, us, UserLines), IsHeader) == When(|us| > 0, UsersHeader)
  {
    forall u ensures Keep(UserLines(u), IsItem) == UserItem(u) && Keep(UserLines(u), IsHeader) == [] {
      UserItems(u);
    }
    HeadersAreHeaders();
    SectionKeep(UsersHeader, us, UserLines, UserItem, IsItem);
    SectionHeaderOnly(UsersHeader, us, UserLines, IsHeader);
  }

  /** What `p` keeps of the plan is what it keeps of each section, when it drops the
      introduction. */
  lemma KeepPlan(config: Config, p: string -> bool, kb: seq<string>, kr: seq<string>, ku: seq<string>)
    requires !p(Intro)
    requires Keep(Section(BucketsHeader, config.s3Buckets, BucketLines), p) == kb
    requires Keep(Section(RepositoriesHeader, config.ecrRepositories, RepositoryLines), p) == kr
    requires Keep(Section(UsersHeader, config.iamUsers, UserLines), p) == ku
    ensures Keep(PlanLines(config), p) == kb + kr + ku
  {
    var sb := Section(BucketsHeader, config.s3Buckets, BucketLines);
    var sr := Section(RepositoriesHeader, config.ecrRepositories, RepositoryLines);
    var su := Section(UsersHeader, config.iamUsers, UserLines);
    KeepConcat([Intro] + sb + sr, su, p);
    KeepConcat([Intro] + sb, sr, p);
    KeepConcat([Intro], sb, p);
    assert Keep([Intro], p) == [];
  }

  lemma KeptItems(config: Config)
    ensures Keep(PlanLines(config), IsItem)
      == Flatten(config.s3Buckets, BucketItem)
       + Flatten(config.ecrRepositories, RepositoryItem)
       + Flatten(config.iamUsers, UserItem)
  {
    IntroIsPlain();
    BucketSection(config.s3Buckets);
    RepositorySection(config.ecrRepositories);
    UserSection(config.iamUsers);
    KeepPlan(config, IsItem, Flatten(config.s3Buckets, BucketItem),
             Flatten(config.ecrRepositories, RepositoryItem), Flatten(config.iamUsers, UserItem));
  }

  /** A list of single lines, one per item. */
  lemma Singles<T>(xs: seq<T>, g: T -> seq<string>, name: T -> string)
    requires forall x :: g(x) == [Item(name(x))]
    ensures |Flatten(xs, g)| == |xs|
    ensures forall k :: 0 <= k < |xs| ==> Flatten(xs, g)[k] == Item(name(xs[k]))
  {
    FlattenSingles(xs, g);
  }

  function BucketName(b: S3Bucket): string { b.name }
  function RepositoryName(r: EcrRepository): string { r.name }
  function UserName(u: IamUser): string { u.name }

  /** The plan names every bucket, then every repository, then every user, once each and in the
      order of the configuration, and nothing else: the database instances never appear. */
  lemma PlanItems(config: Config)
    ensures var items := Keep(PlanLines(config), IsItem);
      var bs, rs, us := config.s3Buckets, config.ecrRepositories, config.iamUsers;
      && |items| == |bs| + |rs| + |us|
      && (forall k :: 0 <= k < |bs| ==> items[k] == Item(bs[k].name))
      && (forall k :: 0 <= k < |rs| ==> items[|bs| + k] == Item(rs[k].name))
      && (forall k :: 0 <= k < |us| ==> items[|bs| + |rs| + k] == Item(us[k].name))
  {
    var bs, rs, us := config.s3Buckets, config.ecrRepositories, config.iamUsers;
    KeptItems(config);
    Singles(bs, BucketItem, BucketName);
    Singles(rs, RepositoryItem, RepositoryName);
    Singles(us, UserItem, UserName);
  }

  /** Each section header is printed exactly when its list is non-empty, in the fixed order. */
  lemma PlanHeaders(config: Config)
    ensures Keep(PlanLines(config), IsHeader)
      == When(|config.s3Buckets| > 0, BucketsHeader)
       + When(|config.ecrRepositories| > 0, RepositoriesHeader)
       + When(|config.iamUsers| > 0, UsersHeader)
  {
    IntroIsPlain();
    BucketSection(config.s3Buckets);
    RepositorySection(config.ecrRepositories);
    UserSection(config.iamUsers);
    KeepPlan(config, IsHeader, When(|config.s3Buckets| > 0, BucketsHeader),
             When(|config.ecrRepositories| > 0, RepositoriesHeader), When(|config.iamUsers| > 0, UsersHeader));
  }

  // ---------------------------------------------------------------- what each item shows

  lemma SettingLinesDiffer(name: string, encryption: string)
    ensures Item(name)[2] == '-' && VersioningLine[2] == ' ' && EncryptionLine(encryption)[2] == ' '
    ensures CorsLine[2] == ' ' && PolicyAppliedLine[2] == ' '
    ensures VersioningLine[6] == 'V' && EncryptionLine(encryption)[6] == 'E'
    ensures CorsLine[6] == 'C' && PolicyAppliedLine[6] == 'B'
  {
    assert EncryptionLine(encryption) == Indent + ("- Encryption: " + encryption);
    assert (Indent + ("- Encryption: " + encryption))[6] == 'E';
  }

  /** Under a bucket's name, each setting line appears exactly when the bucket configures it:
      versioning only when it is "enabled", encryption, CORS and a policy when they are set. */
  lemma BucketSettings(b: S3Bucket)
    ensures var lines := BucketLines(b);
      && lines[0] == Item(b.name)
      && (VersioningLine in lines <==> b.versioning == "enabled")
      && (EncryptionLine(b.encryption) in lines <==> b.encryption != "")
      && (CorsLine in lines <==> b.cors.Some?)
      && (PolicyAppliedLine in lines <==> b.policy != "")
  {
    SettingLinesDiffer(b.name, b.encryption);
  }

  /** Under a repository's name, the lifecycle line appears exactly when it has a policy. */
  lemma RepositorySettings(r: EcrRepository)
    ensures var lines := RepositoryLines(r);
      && lines[0] == Item(r.name)
      && (LifecycleLine in lines <==> r.lifecyclePolicy != "")
      && |lines| == (if r.lifecyclePolicy != "" then 2 else 1)
  {
    assert Item(r.name)[2] == '-' && LifecycleLine[2] == ' ';
  }

  /** Under a user's name come, when it has any, a policies header and one line per policy in
      the order of the configuration; a user without policies is one line. */
  lemma UserPolicies(u: IamUser)
    ensures var lines := UserLines(u);
      var ps := u.policies;
      && lines[0] == Item(u.name)
      && |lines| == (if |ps| > 0 then 2 + |ps| else 1)
      && (|ps| > 0 ==> lines[1] == PoliciesHeader)
      && (forall k :: 0 <= k < |ps| ==> lines[2 + k] == PolicyLine(ps[k]))
  {
    forall x: IamPolicy
      ensures |PolicyLines(x)| == 1
    {
    }
    FlattenSingles(u.policies, PolicyLines);
  }

  // ---------------------------------------------------------------- the command

  /** The command-line flags, with the defaults of main.go. */
  datatype Options = Options(configFile: string, dryRun: bool, checkCreds: bool)

  const DefaultOptions := Options("aws-resources.yaml", false, false)

  /** How the command ends: four ways through log.Fatalf, with the message it logs, and three
      successful returns. */
  datatype Exit =
    | LoadFailed(message: string)
    | CredentialsFailed(message: string)
    | CredentialsChecked
    | DryRunDone
    | InitFailed(message: string)
    | ProvisionFailed(message: string)
    | Configured

  /** The endings that exit with a failure status. */
  predicate Fatal(e: Exit) {
    e.LoadFailed? || e.CredentialsFailed? || e.InitFailed? || e.ProvisionFailed?
  }

  const InitAdvice := "\n\nPlease check your AWS credentials and region configuration.\n"
    + "Make sure you have valid credentials in ~/.aws/credentials or environment variables.\n"

  const ProvisionPrefix := "Failed to provision resources: "
  const ConfiguredLine := "\U{2705} All resources configured successfully."

  function AuthenticatedLine(arn: string): string {
    "\U{2705} AWS credentials validated. Authenticated as: " + arn + "\n"
  }

  /** The ending, the printed lines and the run's trace: the account, its call log and the
      bootstrapper's warnings. */
  datatype RunResult = RunResult(exit: Exit, output: seq<string>, trace: Trace)

  /** main, given the flags, the environment, what loading each configuration file gives, what
      loading the SDK configuration gives, whether creating the bootstrapper fails, and the
      account with its call log. */
  function RunSpec(options: Options, env: Env, load: string -> Result<Config, string>,
                   awsLoadError: Option<string>, initError: Option<string>,
                   w: World, log: seq<Call>): RunResult
  {
    var start := Trace(w, log, []);
    var loaded := load(options.configFile);
    if loaded.Failure? then RunResult(LoadFailed("Failed to load configuration: " + loaded.error), [], start)
    else
      var config := loaded.value;
      var checking := ["Checking AWS credentials...", GetAwsProfileInfo(env)];
      var checked := if awsLoadError.Some? then start else start.(log := log + [GetCallerIdentity]);
      var check := CredentialCheck(w, awsLoadError);
      if check.err.Some? then
        RunResult(CredentialsFailed("AWS credential check failed: " + check.err.value), checking, checked)
      else ActSpec(options, config, initError, checking + [AuthenticatedLine(check.arn)], checked)
  }

  /** What main does once the credentials are validated, after printing `validated`. */
  function ActSpec(options: Options, config: Config, initError: Option<string>,
                   validated: seq<string>, checked: Trace): RunResult
  {
    if options.checkCreds then
      RunResult(CredentialsChecked, validated + ["Credential check completed successfully."], checked)
    else if options.dryRun then
      RunResult(DryRunDone, validated + ["Running in dry-run mode. No changes will be made."] + PlanLines(config), checked)
    else if initError.Some? then
      RunResult(InitFailed("Failed to initialize bootstrapper: " + initError.value + InitAdvice), validated, checked)
    else
      var o := ProvisionOutcome(checked, config.region, config);
      if o.err.Some? then RunResult(ProvisionFailed(ProvisionPrefix + o.err.value), validated, o.trace)
      else RunResult(Configured, validated + [ConfiguredLine], o.trace)
  }

  /** main: load the configuration, check the credentials, then stop for --check-creds, stop
      after printing the plan for --dry-run, or create the bootstrapper and provision. */
  method Run(options: Options, env: Env, load: string -> Result<Config, string>,
             awsLoadError: Option<string>, initError: Option<string>, cloud: Provider)
    returns (exit: Exit, output: seq<string>, notices: seq<Notice>)
    modifies cloud
    ensures RunResult(exit, output, Trace(cloud.State(), cloud.log, notices))
         == RunSpec(options, env, load, awsLoadError, initError, old(cloud.State()), old(cloud.log))
  {
    notices := [];
    var loaded := load(options.configFile);
    if loaded.Failure? {
      return LoadFailed("Failed to load configuration: " + loaded.error), [], notices;
    }
    var config := loaded.value;
    output := ["Checking AWS credentials...", GetAwsProfileInfo(env)];
    var arn, err := CheckAwsCredentials(awsLoadError, cloud);
    if err.Some? {
      return CredentialsFailed("AWS credential check failed: " + err.value), output, notices;
    }
    output := output + [AuthenticatedLine(arn)];
    exit, output, notices := Act(options, config, initError, output, cloud);
  }

  /** The steps of main after the credential check. */
  method Act(options: Options, config: Config, initError: Option<string>, validated: seq<string>, cloud: Provider)
    returns (exit: Exit, output: seq<string>, notices: seq<Notice>)
    modifies cloud
    ensures RunResult(exit, output, Trace(cloud.State(), cloud.log, notices))
         == ActSpec(options, config, initError, validated, Trace(old(cloud.State()), old(cloud.log), []))
  {
    output, notices := validated, [];
    if options.checkCreds {
      output := output + ["Credential check completed successfully."];
      return CredentialsChecked, output, notices;
    }
    if options.dryRun {
      output := output + ["Running in dry-run mode. No changes will be made."];
      var plan := PrintPlannedChanges(config);
      output := output + plan;
      return DryRunDone, output, notices;
    }
    if initError.Some? {
      return InitFailed("Failed to initialize bootstrapper: " + initError.value + InitAdvice), output, notices;
    }
    var bootstrapper := new Bootstrapper(config.region, cloud);
    var err := bootstrapper.ProvisionResources(config);
    notices := bootstrapper.notices;
    if err.Some? {
      return ProvisionFailed(ProvisionPrefix + err.value), output, notices;
    }
    output := output + [ConfiguredLine];
    exit := Configured;
  }
}
