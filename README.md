# cloud-bootstrap in Dafny

A verified model of the decision logic of cloud-bootstrap. The tool reads a declarative description of AWS
resources and ensures each of them exists:

- S3 buckets with versioning, encryption, CORS and a bucket policy;
- ECR repositories with a lifecycle policy;
- IAM users with their managed policies;
- RDS database instances.

The model covers:

- the four reconcilers and their orchestration (`pkg/bootstrap/bootstrap.go`);
- the command's branch order and its dry-run plan (`main.go`);
- the profile line and the credential check (`pkg/bootstrap/aws_helper.go`).

## How the model is built

- **The account.** `Cloud.Provider` is a class whose fields hold the account's state:
  - buckets, repositories and users;
  - local managed policies with their ARNs, documents and version counts;
  - policy attachments;
  - DB instances, each with its storage, status, class and engine version;
  - the log of every SDK call it has received.

  `Cloud.Issue` answers a call from that state. A *fault oracle* (`World.faults`, a map from call to error
  message) makes chosen calls fail with a chosen message and leave the state unchanged. The oracle is
  keyed by the call itself and is fixed for the run, so every repeat of an identical call fails or
  succeeds in the same way. A missing
  resource answers with the service's own not-found error. For example, DescribeDBInstances answers
  `DBInstanceNotFound: …`.
- **Spec functions.** Each reconciler is specified by a function over a `Trace`. A trace holds the account,
  the call log and the *notices* printed so far: warnings, "already attached", "cannot modify" and the
  detected class and engine-version drift. The function also gives the error returned (`None` is Go's
  `nil`). `Bootstrap.Each` is the shared loop: it stops at the first item that returns an error.
- **Methods.** The methods of `Bootstrap.Bootstrapper` are the reconcilers themselves, with their loops,
  early returns and the `continue` of ManageRDSInstances. Each method is proved to move the provider and
  the notices exactly as its spec function says. The properties are then lemmas about the spec functions.
- **The command.** `main` is `Cli.Run`. It ends in one `Cli.Exit` value:
  - the four `log.Fatalf` endings, each with the message it logs: load failure, credential failure,
    bootstrapper failure and provisioning failure;
  - three successful endings: credentials checked, dry run done, configured.

  Everything the command prints with `fmt.Println` or `fmt.Printf` is a sequence of lines, each without
  its final newline.
- **Numbers.** Go's `int32(x)` conversions of `AllocatedStorage`, `BackupRetentionPeriod` and
  `MaxAgeSeconds` are written out as the 32-bit two's-complement wrap `GoLib.ToInt32`. Values outside the
  32-bit range are therefore covered too. `strings.ToUpper` is modelled on ASCII letters only.
- **Quirks kept as the code has them.**
  - When `SkipFinalSnapshot` is false, the CreateDBInstance request's `DBName` is overwritten with
    `<identifier>-final-snapshot`.
  - An existing instance whose storage differs but whose status is not `available` gets only the
    "cannot modify" notice. The `continue` skips its class and engine-version checks.
  - createIAMPolicy acts on the first listed policy with the derived name.

## Model

| member | source | states |
|---|---|---|
| Bootstrap.Bootstrapper.ProvisionResources | pkg/bootstrap/bootstrap.go:68-90 | moves the account, call log and notices exactly as `ProvisionOutcome`: buckets, repositories, users, then instances, stopping at the first error, which is wrapped with that stage's prefix |
| ProvisionFacts.ProvisionStages | pkg/bootstrap/bootstrap.go:68-90 | the calls go to S3, then ECR, then IAM, then RDS, never back; an error ends on a fatal call of the stage whose prefix the error carries, and no later service was touched |
| ProvisionFacts.ProvisionEnsured | pkg/bootstrap/bootstrap.go:68-90 | an error-free run leaves every configured bucket, repository, user (with each of its `<user>-<policy>` policies) and DB instance in the account |
| ProvisionFacts.WrapPrefix | pkg/bootstrap/bootstrap.go:70-87 | wrapping an error with a stage prefix keeps the trace and whether there is an error, and the wrapped message is the prefix followed by the original |
| Bootstrap.Bootstrapper.CreateS3Buckets | pkg/bootstrap/bootstrap.go:93-202 | runs `EnsureBucket` for each bucket in order and returns at the first error, as `BucketsOutcome` |
| Bootstrap.Bootstrapper.EnsureBucket | pkg/bootstrap/bootstrap.go:97-198 | one iteration of CreateS3Buckets, exactly as `BucketOutcome` |
| Bootstrap.Bootstrapper.ConfigureBucketSteps | pkg/bootstrap/bootstrap.go:126-198 | the four gated configuration calls, each only warning on failure, exactly as `ConfigureBucket` |
| BucketFacts.BucketCalls | pkg/bootstrap/bootstrap.go:99-124 | for each HeadBucket/CreateBucket answer, the exact calls issued; a failing CreateBucket is the only error, carries the bucket's name and skips the configuration calls |
| BucketFacts.CreateIffHeadFails | pkg/bootstrap/bootstrap.go:99-117 | CreateBucket is issued iff HeadBucket fails; it names the bucket and carries a location constraint iff the region is not us-east-1, equal to the region |
| BucketFacts.ConfigureBucketCalls | pkg/bootstrap/bootstrap.go:126-198 | versioning iff `Versioning == "enabled"`; AES256 encryption iff `Encryption != ""`; one CORS rule iff CORS is set; the policy, verbatim, iff non-empty; each one is issued whatever the earlier ones answered, and a failure only adds a warning about that call |
| BucketFacts.ConfigCallsAreSettings | pkg/bootstrap/bootstrap.go:126-198 | every configuration call is a bucket setting call on the bucket itself, sent to S3 |
| BucketFacts.BucketExtends | pkg/bootstrap/bootstrap.go:97-198 | an iteration only appends to the call log and the notices, and never removes anything from the account |
| BucketFacts.ExistingBucketCalls | pkg/bootstrap/bootstrap.go:104-124 | when HeadBucket succeeds: no error, no CreateBucket, then the configuration calls |
| BucketFacts.CreatedBucketCalls | pkg/bootstrap/bootstrap.go:104-121 | when HeadBucket fails and CreateBucket succeeds: no error, the creation then the configuration calls |
| BucketFacts.FailedBucketCalls | pkg/bootstrap/bootstrap.go:117-120 | when CreateBucket fails: the error `failed to create bucket <name>: <message>` and nothing after it |
| BucketFacts.CreateShape | pkg/bootstrap/bootstrap.go:104-117 | a call sequence of HeadBucket, an optional CreateBucket and configuration calls creates the bucket exactly when HeadBucket failed, with the region-dependent constraint |
| BucketFacts.BucketTouchesOnlyS3 | pkg/bootstrap/bootstrap.go:97-198 | an iteration only talks to S3; when it fails, its last call is the failed CreateBucket |
| BucketFacts.BucketsTouchOnlyS3 | pkg/bootstrap/bootstrap.go:93-202 | CreateS3Buckets only talks to S3; when it fails, its last call is a failed CreateBucket |
| BucketFacts.BucketEnsured | pkg/bootstrap/bootstrap.go:97-198 | an error-free iteration leaves the bucket in the account |
| BucketFacts.BucketsEnsured | pkg/bootstrap/bootstrap.go:93-202 | an error-free CreateS3Buckets leaves every configured bucket in the account |
| TraceFacts.EachStopsAtFirstError | pkg/bootstrap/bootstrap.go:96-120 | a reconciler loop returns the first failing item's error, after the error-free items before it, and runs no later item |
| TraceFacts.EachRunsEveryItem | pkg/bootstrap/bootstrap.go:96-201 | a reconciler loop that returns no error has run every item's step without error |
| TraceFacts.EachStaysWithin | pkg/bootstrap/bootstrap.go:96-201 | if every step only talks to one service and fails only on one of its fatal calls, so does the loop |
| TraceFacts.EachEnsures | pkg/bootstrap/bootstrap.go:96-201 | if every error-free step leaves its item in the account, and no later call undoes that, an error-free loop leaves every item there |
| TraceFacts.AttemptedStep | pkg/bootstrap/bootstrap.go:134-138 | an attempted call is logged, and a warning about it is printed exactly when it fails |
| TraceFacts.OptionalStep | pkg/bootstrap/bootstrap.go:127-139 | a gated call is issued exactly when its gate holds, and only warns |
| Bootstrap.ConvertToMethodsEnum | pkg/bootstrap/bootstrap.go:349-355 | the result has the same length, and each element is the upper-cased method at the same position |
| Bootstrap.Bootstrapper.CreateECRRepositories | pkg/bootstrap/bootstrap.go:205-244 | runs `EnsureRepository` for each repository in order and returns at the first error, as `RepositoriesOutcome` |
| Bootstrap.Bootstrapper.EnsureRepository | pkg/bootstrap/bootstrap.go:209-240 | one iteration of CreateECRRepositories, exactly as `RepositoryOutcome` |
| RepositoryFacts.RepositoryCalls | pkg/bootstrap/bootstrap.go:212-240 | CreateRepository is issued iff DescribeRepositories fails; a failing creation is the only error and skips the lifecycle policy; the lifecycle policy is set iff configured, and its failure only warns |
| RepositoryFacts.RepositoryExtends | pkg/bootstrap/bootstrap.go:209-240 | an iteration only appends to the log and the notices, and removes nothing from the account |
| RepositoryFacts.ExistingRepositoryCalls | pkg/bootstrap/bootstrap.go:216-240 | when the describe succeeds: no creation, no error, then the optional lifecycle call |
| RepositoryFacts.CreatedRepositoryCalls | pkg/bootstrap/bootstrap.go:216-240 | when the describe fails and the creation succeeds: the creation, then the optional lifecycle call |
| RepositoryFacts.FailedRepositoryCalls | pkg/bootstrap/bootstrap.go:218-223 | a failed creation returns `failed to create ECR repository <name>: <message>` and issues nothing after it |
| RepositoryFacts.RepositoryTouchesOnlyEcr | pkg/bootstrap/bootstrap.go:209-240 | an iteration only talks to ECR; when it fails, its last call is the failed CreateRepository |
| RepositoryFacts.RepositoriesTouchOnlyEcr | pkg/bootstrap/bootstrap.go:205-244 | CreateECRRepositories only talks to ECR; when it fails, its last call is a failed CreateRepository |
| RepositoryFacts.RepositoryEnsured | pkg/bootstrap/bootstrap.go:209-240 | an error-free iteration leaves the repository in the account |
| RepositoryFacts.RepositoriesEnsured | pkg/bootstrap/bootstrap.go:205-244 | an error-free CreateECRRepositories leaves every configured repository in the account |
| Bootstrap.Bootstrapper.CreateIAMUsersAndPolicies | pkg/bootstrap/bootstrap.go:247-297 | runs `EnsureUser` for each user in order and returns at the first error, as `UsersOutcome` |
| Bootstrap.Bootstrapper.EnsureUser | pkg/bootstrap/bootstrap.go:251-293 | GetUser, CreateUser when it fails (a failing creation is fatal), then the policy loop, exactly as `UserOutcome` |
| Bootstrap.Bootstrapper.AttachPolicy | pkg/bootstrap/bootstrap.go:272-292 | one policy: createIAMPolicy, then AttachUserPolicy with the returned ARN, exactly as `PolicyOutcome` |
| Bootstrap.Bootstrapper.CreateIamPolicy | pkg/bootstrap/bootstrap.go:300-346 | returns the ARN or the error, and moves the account and log exactly as `UpsertOutcome` |
| Bootstrap.FindPolicy | pkg/bootstrap/bootstrap.go:312-313 | the first position whose policy name matches; none exactly when no listed policy has the name |
| IamFacts.UpsertCalls | pkg/bootstrap/bootstrap.go:300-346 | ListPolicies("Local") first. If the first policy named `<user>-<policy>` exists, it gets CreatePolicyVersion with `SetAsDefault=true` and its ARN is returned, with no CreatePolicy. Otherwise CreatePolicy is issued under that name and the new ARN is returned. A list, version or create failure is an error |
| IamFacts.UpsertListFails | pkg/bootstrap/bootstrap.go:305-310 | a failing ListPolicies returns `failed to list IAM policies: <message>` and issues nothing else |
| IamFacts.UpsertUpdates | pkg/bootstrap/bootstrap.go:312-331 | an existing policy gets a new default version with the configured document, and its ARN is returned |
| IamFacts.UpsertCreates | pkg/bootstrap/bootstrap.go:334-345 | a missing policy is created with the derived name, the description and the document |
| IamFacts.UpsertExtends | pkg/bootstrap/bootstrap.go:300-346 | createIAMPolicy only appends to the log, and removes nothing from the account |
| IamFacts.UpsertEnsured | pkg/bootstrap/bootstrap.go:300-346 | after a successful createIAMPolicy, the account holds a policy called `<user>-<policy>` |
| IamFacts.UpsertLog | pkg/bootstrap/bootstrap.go:300-346 | the calls createIAMPolicy appends to the log are `UpsertCallsOf`'s, and when it fails the last of them is a fatal IAM call |
| IamFacts.ListAnswersPolicies | pkg/bootstrap/bootstrap.go:305-312 | ListPolicies answers with the account's policies and changes nothing |
| IamFacts.AttachNeverFatal | pkg/bootstrap/bootstrap.go:273-292 | an error from createIAMPolicy aborts with that error; otherwise AttachUserPolicy is always issued and never makes the step fail |
| IamFacts.AttachNoticesMeaning | pkg/bootstrap/bootstrap.go:283-291 | a failed attachment prints "already attached" exactly when the error contains EntityAlreadyExists, and a warning otherwise; a successful one prints nothing |
| IamFacts.UpsertTouchesOnlyIam | pkg/bootstrap/bootstrap.go:300-346 | createIAMPolicy only talks to IAM, and its failure is the failure of its last call |
| IamFacts.PolicyTouchesOnlyIam | pkg/bootstrap/bootstrap.go:272-292 | one policy step only talks to IAM, and a failure ends on a fatal IAM call (CreateUser, ListPolicies, CreatePolicyVersion or CreatePolicy) |
| IamFacts.UserTouchesOnlyIam | pkg/bootstrap/bootstrap.go:251-293 | one user only talks to IAM; when it fails, its last call is CreateUser or a failed policy call |
| IamFacts.UsersTouchOnlyIam | pkg/bootstrap/bootstrap.go:247-297 | CreateIAMUsersAndPolicies only talks to IAM, and fails only on a fatal IAM call |
| IamFacts.PolicyEnsured | pkg/bootstrap/bootstrap.go:272-292 | an error-free policy step leaves `<user>-<policy>` in the account |
| IamFacts.PolicyNamesLast | pkg/bootstrap/bootstrap.go:300-346 | a policy name, once present, stays present as the account grows |
| IamFacts.PolicyNamedLasts | pkg/bootstrap/bootstrap.go:300-346 | no later call removes a user's derived policy name |
| IamFacts.UserProvisionedLasts | pkg/bootstrap/bootstrap.go:247-297 | a fully provisioned user stays provisioned as the account grows |
| IamFacts.PoliciesEnsured | pkg/bootstrap/bootstrap.go:272-293 | when the user exists, an error-free policy loop leaves every one of its policies in the account |
| IamFacts.UserEnsured | pkg/bootstrap/bootstrap.go:251-293 | an error-free user iteration leaves the user and each of its policies in the account |
| IamFacts.UsersEnsured | pkg/bootstrap/bootstrap.go:247-297 | an error-free CreateIAMUsersAndPolicies leaves every user and each of its policies in the account |
| Bootstrap.Bootstrapper.ManageRDSInstances | pkg/bootstrap/bootstrap.go:358-515 | an empty list returns at once; otherwise runs `EnsureDbInstance` for each instance and returns at the first error, as `RdsOutcome` |
| Bootstrap.Bootstrapper.EnsureDbInstance | pkg/bootstrap/bootstrap.go:367-511 | one iteration of ManageRDSInstances, exactly as `InstanceOutcome` |
| Bootstrap.Bootstrapper.ReconcileExisting | pkg/bootstrap/bootstrap.go:442-509 | the handling of a reported instance, including the `continue`, exactly as `ExistingInstanceTrace` |
| Bootstrap.Bootstrapper.Attempt | pkg/bootstrap/bootstrap.go:475-482 | issues the call and prints a warning exactly when it fails |
| Bootstrap.CreateInput | pkg/bootstrap/bootstrap.go:384-427 | builds the CreateDBInstance request field by field, equal to `CreateDbInstanceRequest` |
| Bootstrap.CreateDbInstanceRequest | pkg/bootstrap/bootstrap.go:384-427 | the identifier, engine and class; storage as `int32`. Engine version, storage type, master user name and master password are set iff non-empty. Backup retention is set iff > 0, as `int32`. PubliclyAccessible and MultiAZ are always set. DBName is the configured name if `SkipFinalSnapshot`, otherwise `<identifier>-final-snapshot` |
| Bootstrap.NonEmpty | pkg/bootstrap/bootstrap.go:393-407 | an optional request field is set exactly when the string is non-empty, and then holds it |
| RdsFacts.InstanceCalls | pkg/bootstrap/bootstrap.go:367-511 | CreateDBInstance is issued exactly when the describe fails with DBInstanceNotFound. The instance fails exactly when the describe fails otherwise or the creation fails. A reported instance never fails |
| RdsFacts.FailedDescribeCalls | pkg/bootstrap/bootstrap.go:436-439 | any other describe error returns `error checking RDS instance <id>: <message>` and issues nothing else |
| RdsFacts.FailedCreateCalls | pkg/bootstrap/bootstrap.go:429-433 | a failing creation returns `failed to create RDS instance <id>: <message>` |
| RdsFacts.CreatedInstanceCalls | pkg/bootstrap/bootstrap.go:379-435 | a missing instance is created with the request built from its configuration, without error |
| RdsFacts.ReportedInstanceCalls | pkg/bootstrap/bootstrap.go:440-511 | a successful describe never fails the instance; the calls are those of the first reported instance |
| RdsFacts.DescribeReports | pkg/bootstrap/bootstrap.go:375-443 | a successful describe reports the account's own record of the instance |
| RdsFacts.ExistingInstanceCalls | pkg/bootstrap/bootstrap.go:442-509 | ModifyDBInstance, with the configured storage and ApplyImmediately, is issued iff the storage (nil as 0) differs and the status (nil as "") is available. A blocked instance gets only the not-modifiable notice. A modify failure only warns. Matching storage changes nothing |
| RdsFacts.DriftNoticesMeaning | pkg/bootstrap/bootstrap.go:488-509 | a class notice iff the reported class is set and differs; a version notice iff both versions are set and differ; nothing else is printed |
| RdsFacts.MissingInstanceCreated | pkg/bootstrap/bootstrap.go:375-430 | an instance the account lacks, whose describe the oracle does not fail, gets a CreateDBInstance |
| RdsFacts.ReportedWithin | pkg/bootstrap/bootstrap.go:440-511 | a reported instance only talks to RDS and does not fail |
| RdsFacts.MissingWithin | pkg/bootstrap/bootstrap.go:377-439 | a failed describe only leads to RDS calls, and a failure ends on the describe or the creation |
| RdsFacts.InstanceTouchesOnlyRds | pkg/bootstrap/bootstrap.go:367-511 | one instance only talks to RDS; it fails only on DescribeDBInstances or CreateDBInstance |
| RdsFacts.RdsTouchesOnlyRds | pkg/bootstrap/bootstrap.go:358-515 | ManageRDSInstances only talks to RDS, and issues nothing and changes nothing for an empty list |
| RdsFacts.InstanceEnsured | pkg/bootstrap/bootstrap.go:367-511 | an error-free iteration leaves the instance in the account |
| RdsFacts.InstancesEnsured | pkg/bootstrap/bootstrap.go:358-515 | an error-free ManageRDSInstances leaves every configured instance in the account |
| Cloud.Provider.Invoke | pkg/bootstrap/bootstrap.go:100-102 | an SDK call moves the account as `Issue` says and is appended to the call log |
| Cloud.Issue | pkg/bootstrap/bootstrap.go:100-102 | a call the fault oracle names fails with its message and changes nothing; any other call is served from the account, which only grows |
| GoLib.ToInt32 | pkg/bootstrap/bootstrap.go:388 | Go's `int32(x)`: the result is in the 32-bit range, congruent to `x` modulo 2^32, and equal to `x` when `x` is in range |
| GoLib.ToUpper | pkg/bootstrap/bootstrap.go:352 | `strings.ToUpper` on ASCII: same length; every lower-case letter is capitalised and nothing else changes |
| GoLib.ContainsAt | pkg/bootstrap/bootstrap.go:285 | `strings.Contains` holds exactly when the substring occurs at some position |
| Cli.PrintPlannedChanges | main.go:64-111 | the printed lines are `PlanLines(config)` |
| Cli.PrintBuckets | main.go:68-85 | appends the bucket section: the header, then each bucket's lines, only for a non-empty list |
| Cli.PrintRepositories | main.go:88-96 | appends the repository section, only for a non-empty list |
| Cli.PrintUsers | main.go:99-110 | appends the user section, only for a non-empty list |
| Cli.PrintBucket | main.go:71-83 | appends one bucket's name line and its setting lines |
| Cli.PrintRepository | main.go:91-94 | appends one repository's name line and its lifecycle line |
| Cli.PrintUser | main.go:102-108 | appends one user's name line and, when it has policies, the header and one line per policy, in order |
| Cli.PlanItems | main.go:64-111 | the `  - <name>` lines are exactly one per bucket, then one per repository, then one per user, in configuration order; DB instances never appear |
| Cli.PlanHeaders | main.go:68-100 | each section header is printed iff its list is non-empty, in the order buckets, repositories, users |
| Cli.BucketSettings | main.go:71-83 | under the name: the versioning line iff `Versioning == "enabled"`, the encryption line with its value iff set, the CORS line iff CORS is set, the policy line iff a policy is set |
| Cli.RepositorySettings | main.go:91-94 | under the name, the lifecycle line iff a lifecycle policy is set |
| Cli.UserPolicies | main.go:102-108 | under the name: the `Policies:` header iff the user has policies, then one `- name: description` line per policy, in order |
| Cli.KeptItems | main.go:64-111 | the name lines of the plan are the buckets', then the repositories', then the users' |
| Cli.BucketItems | main.go:71-83 | one bucket's lines hold exactly one name line and no header |
| Cli.RepositoryItems | main.go:91-94 | one repository's lines hold exactly one name line and no header |
| Cli.UserItems | main.go:102-108 | one user's lines hold exactly one name line and no header |
| Cli.BucketSection | main.go:68-85 | the bucket section holds one name line per bucket, and its header iff the list is non-empty |
| Cli.RepositorySection | main.go:88-96 | the repository section holds one name line per repository, and its header iff the list is non-empty |
| Cli.UserSection | main.go:99-110 | the user section holds one name line per user, and its header iff the list is non-empty |
| Cli.Run | main.go:12-61 | `main`: the ending, the printed lines, the account, its call log and the warnings are exactly `RunSpec` |
| Cli.Act | main.go:36-60 | the steps after the credential check, exactly as `ActSpec` |
| RunFacts.RunStartsWithCheck | main.go:19-32 | a configuration that does not load ends the run with nothing printed or sent; otherwise the run first prints the check line and the profile line, and a refused check ends it there |
| RunFacts.FlagOrder | main.go:36-53 | once the credentials are validated: `--check-creds` wins over `--dry-run`, `--dry-run` wins over provisioning, and a failing bootstrapper ends the run before provisioning |
| RunFacts.RunChecksCredentialsFirst | main.go:29-34 | when the configuration and the SDK configuration load, the account's first call is GetCallerIdentity, whatever follows, dry runs included |
| RunFacts.RunLeavesAccount | main.go:12-53 | every ending other than provisioning leaves the account unchanged, prints no warning, and sends at most the identity call |
| RunFacts.DryRunPrintsPlan | main.go:43-47 | a dry run prints the validation lines, the dry-run line and then exactly the plan, and sends only the identity call |
| RunFacts.ProvisionFailureNamed | main.go:55-58 | a provisioning failure ends on a fatal call, and the logged message names the reconciler that made it |
| RunFacts.RunConfigured | main.go:55-60 | a configured ending leaves every configured resource in the account and ends with the success line |
| RunFacts.DefaultsProvision | main.go:14-60 | with the default flags (config `aws-resources.yaml`), a validated run provisions, and it fails exactly when provisioning does |
| RunFacts.ActKeepsLines | main.go:36-60 | the steps after the check only append to what was printed |
| RunFacts.ActLeavesAccount | main.go:36-53 | the steps after the check touch the account only when they provision |
| RunFacts.ActExtends | main.go:55-58 | the steps after the check keep every earlier call |
| RunFacts.ActDryRun | main.go:43-47 | after the check, a dry run prints its line and the plan and sends nothing |
| RunFacts.ActFailureNamed | main.go:55-58 | after the check, a provisioning failure ends on a fatal call whose stage the message names |
| RunFacts.ActConfigured | main.go:55-60 | after the check, a configured ending leaves every configured resource in the account |
| RunFacts.ProvisionFailureEnds | pkg/bootstrap/bootstrap.go:68-90 | a failed ProvisionResources ends on a fatal call, and `main`'s message starts with that stage's prefix |
| AwsHelper.GetAwsProfileInfo | pkg/bootstrap/aws_helper.go:51-66 | the line is `AWS Profile: <p>, Region: <r>`, where `p` is the first non-empty of `AWS_PROFILE`, else `default`, and `r` is the first non-empty of `AWS_REGION` and `AWS_DEFAULT_REGION`, else `unknown`; `FirstSet` and `FirstSetIsFirst` state what "first non-empty" means |
| AwsHelper.ProfileInfoChoices | pkg/bootstrap/aws_helper.go:51-66 | the profile is the first non-empty of `AWS_PROFILE`, else `default`. The region is the first non-empty of `AWS_REGION`, `AWS_DEFAULT_REGION`, else `unknown`. The line is `AWS Profile: <profile>, Region: <region>` |
| AwsHelper.FirstSet | pkg/bootstrap/aws_helper.go:52-63 | the fallback chain picks a non-empty candidate, or the fallback |
| AwsHelper.FirstSetIsFirst | pkg/bootstrap/aws_helper.go:52-63 | the chosen candidate is the earliest non-empty one; the fallback is chosen only when all candidates are empty |
| AwsHelper.CheckAwsCredentials | pkg/bootstrap/aws_helper.go:14-48 | a configuration that does not load ends the check before any call. Otherwise GetCallerIdentity is the only call, and the ARN or error is `CredentialCheck`'s. The account is unchanged |
| AwsHelper.CredentialCheckOutcomes | pkg/bootstrap/aws_helper.go:14-48 | a load failure gives `failed to load AWS config: …`. A refused identity call gives the wrapped message followed by exactly the three credential sources in fixed order. Otherwise the caller's ARN is returned with no error. No error exactly when both steps succeed |
| AwsHelper.ListCredSources | pkg/bootstrap/aws_helper.go:33-42 | the loop builds one `  - <source>\n` line per credential source, in order |
| AwsHelper.CredInfoAppend | pkg/bootstrap/aws_helper.go:39-42 | appending a source appends its bullet line |
| AwsHelper.CredInfoLines | pkg/bootstrap/aws_helper.go:33-42 | the list is exactly the three bullets for the environment variables, the credentials file and the instance or task role |

## Left out

- The AWS SDK clients. S3, ECR, IAM, RDS and STS are the abstract account in `Cloud`, whose answers follow the services' documented behaviour and whose failures come from the fault oracle. Retries, back-off and `context` are not modelled.
- `LoadConfig` (file reading and YAML decoding) is not part of this model. `Cli.Run` receives the loading as a function from path to configuration or error.
- `NewBootstrapper`: SDK configuration and credential retrieval are not modelled. Whether it fails is an input of `Cli.Run`.
- NewBootstrapper's region fallback is not modelled: the bootstrapper's region is the configuration's region as written, and an empty region does not fall back to the SDK default.
- Flag parsing: the flags are an `Options` value whose defaults are `Cli.DefaultOptions`. The process exit of `log.Fatalf` is the `Cli.Exit` value.
- `os.Getenv`: the environment is a map, and a missing variable reads as "".
- Progress and success messages of the reconcilers ("Ensuring …", "Created …", "already exists"): not modelled. Warnings and detected drift are modelled as `Notice` values, without their emoji and exact text.
- `CheckAWSCredentials`'s region and retry options only configure the SDK: not modelled. Whether the SDK configuration loads is an input.
- Transient faults: a call fails the same way every time it is issued in a run, because the fault oracle is keyed by the call and fixed. So a run where a repeated identical call first succeeds and later fails is not modelled. Examples are the ListPolicies("Local") sent once per policy, and the HeadBucket, DescribeRepositories, GetUser or DescribeDBInstances of a name listed twice. The reconciler lemmas are stated over any trace, so they do not depend on this.
- ListPolicies pagination: the model's ListPolicies answers every local policy. The source reads only the first page of the answer.
- DescribeDBInstances: the account answers with the one instance asked for. A reply with several instances is not modelled, although the code would use the first.
- `strings.ToUpper` outside ASCII: not modelled. Other letters are left unchanged.
- Concurrent runs racing to create the same resource: not modelled. The code has no control over them.
