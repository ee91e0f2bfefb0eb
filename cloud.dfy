/** What the scripts see of the cloud provider: the outcome of a remote call
    and the calls themselves. Every operation in this model returns the trace
    of calls it made, in order; the provider's answers come from a script
    supplied by the caller (see the Oracle datatypes of Setup and Cleanup). */
module Cloud {
  import opened Documents

  datatype Option<+T> = None | Some(value: T)

  /** dict.get with a default: the value when present, the default when
      absent. */
  function OrElse<T>(o: Option<T>, default: T): T
  {
    if o.Some? then o.value else default
  }

  /** A botocore ClientError: the provider's error code and message. */
  datatype ClientError = ClientError(code: string, message: string)

  /** Answer to a call whose return value the scripts ignore. */
  datatype Outcome = Ok | Err(error: ClientError)

  /** Answer to a call whose return value the scripts use. */
  datatype Answer<+T> = Got(value: T) | Error(error: ClientError)

  /** The call raised a ClientError carrying this code. */
  predicate Raised(o: Outcome, code: string)
  {
    o.Err? && o.error.code == code
  }

  /** What each script's object holds: the bucket it works on and the
      region its clients use. */
  datatype Config = Config(bucketName: string, region: string)

  /** A CSV row, as its field strings. */
  type Row = seq<string>

  /** One entry of a delete_objects batch: a key, and a version id when a
      specific version or delete marker is deleted. */
  datatype ObjectId = ObjectId(key: string, versionId: Option<string>)

  /** The remote calls the scripts make (and the one console pause of the
      interactive setup), with the arguments that matter. */
  datatype Call =
    // Amazon S3
    | HeadBucket(bucket: string)
    | CreateBucket(bucket: string, locationConstraint: Option<string>)
    | PutBucketPolicy(bucket: string, policy: Policy)
    | UploadFile(bucket: string, key: string, rows: seq<Row>)
    | PutObject(bucket: string, key: string, rows: seq<Row>)
    | ListObjectsV2(bucket: string)
    | ListObjectVersions(bucket: string)
    | DeleteObjects(bucket: string, objects: seq<ObjectId>)
    | DeleteBucket(bucket: string)
    // Console pause of the interactive setup
    | ShowManualInstructions(bucket: string)
    // AWS CloudTrail
    | DescribeTrails
    | CreateTrail(trail: string, bucket: string, keyPrefix: string, multiRegion: bool, logFileValidation: bool)
    | PutEventSelectors(trail: string, selectors: seq<AdvancedEventSelector>)
    | StartLogging(trail: string)
    | DeleteTrail(trail: string)
    // IAM Identity Center
    | ListInstances
    | ListUsers(identityStoreId: string, nextToken: Option<string>)
    // Amazon EventBridge
    | ListTargetsByRule(rule: string)
    | RemoveTargets(rule: string, ids: seq<string>)
    | DeleteRule(rule: string)
    // AWS Lambda
    | DeleteFunction(functionName: string)
    // AWS IAM
    | DeleteRolePolicy(role: string, policyName: string)
    | DeleteRole(role: string)

  /** Decimal rendering of a count, as an f-string renders an int. */
  function NatToString(n: nat): (s: string)
    ensures |s| >= 1
    ensures forall i :: 0 <= i < |s| ==> '0' <= s[i] <= '9'
  {
    if n < 10 then ["0123456789"[n]]
    else NatToString(n / 10) + ["0123456789"[n % 10]]
  }
}
