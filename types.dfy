/**
 * The declarative configuration records of pkg/bootstrap/types.go. A `*CORSConfig` that may be
 * nil is an `Option<CorsConfig>`; Go's `int` is an unbounded `int` here (its conversion to the
 * SDK's int32 fields is written out where it happens).
 */
module Types {
  import opened Wrappers

  datatype Config = Config(
    region: string,
    s3Buckets: seq<S3Bucket>,
    ecrRepositories: seq<EcrRepository>,
    iamUsers: seq<IamUser>,
    rdsInstances: seq<RdsInstance>)

  datatype S3Bucket = S3Bucket(
    name: string,
    versioning: string,
    encryption: string,
    cors: Option<CorsConfig>,
    policy: string)

  datatype CorsConfig = CorsConfig(
    allowedOrigins: seq<string>,
    allowedMethods: seq<string>,
    allowedHeaders: seq<string>,
    exposeHeaders: seq<string>,
    maxAgeSeconds: int)

  datatype EcrRepository = EcrRepository(name: string, lifecyclePolicy: string)

  datatype IamUser = IamUser(name: string, policies: seq<IamPolicy>)

  datatype IamPolicy = IamPolicy(name: string, description: string, policyDocument: string)

  datatype RdsInstance = RdsInstance(
    identifier: string,
    engine: string,
    engineVersion: string,
    instanceClass: string,
    storageType: string,
    allocatedStorage: int,
    dbName: string,
    masterUsername: string,
    masterPassword: string,
    publiclyAccessible: bool,
    backupRetentionPeriod: int,
    multiAZ: bool,
    skipFinalSnapshot: bool)
}
