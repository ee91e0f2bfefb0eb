/** The interactive setup (QDeveloper3PSetup in the command-line script):
    create or reuse the S3 bucket and give it its policy, pause for the manual
    Amazon Q Developer console step, create or reuse the CloudTrail trail and
    turn on its data-event selectors, and optionally export the IAM Identity
    Center users to the bucket. The Lambda variant (module SetupLambda) runs
    the same bucket and trail steps. */
module Setup {
  import opened Documents
  import opened Cloud
  import opened Directory

  const DefaultRegion := "us-east-1"
  const TrailName := "QDeveloper3PTrail"
  const TrailKeyPrefix := "cloudtrail"
  const DefaultOutputFile := "users.csv"

  const QService := "q.amazonaws.com"
  const CloudTrailService := "cloudtrail.amazonaws.com"
  const AclKey := "s3:x-amz-acl"
  const OwnerFullControl := "bucket-owner-full-control"
  const QActions: seq<string> := ["s3:GetObject", "s3:ListBucket", "s3:PutObject"]

  // ---------------------------------------------------------------------------
  // The documents the setup sends
  // ---------------------------------------------------------------------------

  function BucketArn(bucket: string): string
  {
    "arn:aws:s3:::" + bucket
  }

  function ObjectArn(bucket: string, key: string): string
  {
    BucketArn(bucket) + "/" + key
  }

  /** The bucket policy: Amazon Q may read, list and write the bucket; the
      CloudTrail service may read its ACL and write objects under
      "cloudtrail/" handing ownership to the bucket owner. */
  function BucketPolicy(bucket: string): Policy
  {
    Policy("2012-10-17", [
      Statement("AllowAmazonQAccess", Allow, QService, QActions,
                [BucketArn(bucket), BucketArn(bucket) + "/*"], map[]),
      Statement("AWSCloudTrailAclCheck", Allow, CloudTrailService, ["s3:GetBucketAcl"],
                [BucketArn(bucket)], map[]),
      Statement("AWSCloudTrailWrite", Allow, CloudTrailService, ["s3:PutObject"],
                [BucketArn(bucket) + "/cloudtrail/*"], map[AclKey := OwnerFullControl])
    ])
  }

  lemma ArnLiteral(bucket: string)
    requires Literal(bucket)
    ensures Literal(BucketArn(bucket))
    ensures Literal(BucketArn(bucket) + "/")
    ensures Literal(BucketArn(bucket) + "/cloudtrail/")
  {
  }

  lemma PrefixCancel(p: string, x: string, y: string)
    ensures p + x <= p + y <==> x <= y
  {
    if x <= y {
      assert (p + y)[..|p + x|] == p + x;
    }
    if p + x <= p + y {
      assert y[..|x|] == (p + y)[..|p + x|][|p|..];
    }
  }

  /** Amazon Q may perform each of its three actions on the bucket and on
      every object in it, whatever the request context. */
  lemma QReachesBucketAndObjects(bucket: string, key: string, action: string, context: map<string, string>)
    requires Literal(bucket)
    requires action in QActions
    ensures Allows(BucketPolicy(bucket), QService, action, BucketArn(bucket), context)
    ensures Allows(BucketPolicy(bucket), QService, action, ObjectArn(bucket, key), context)
  {
    var p := BucketPolicy(bucket);
    var arn := BucketArn(bucket);
    ArnLiteral(bucket);
    GlobLiteral(arn, arn);
    assert StatementMatches(p.statements[0], QService, action, arn, context);
    assert arn + "/*" == (arn + "/") + "*";
    GlobPrefix(arn + "/", ObjectArn(bucket, key));
    assert Glob(arn + "/*", ObjectArn(bucket, key));
    assert StatementMatches(p.statements[0], QService, action, ObjectArn(bucket, key), context);
  }

  /** CloudTrail may read the bucket ACL, which it checks before delivering. */
  lemma CloudTrailReadsAcl(bucket: string, context: map<string, string>)
    requires Literal(bucket)
    ensures Allows(BucketPolicy(bucket), CloudTrailService, "s3:GetBucketAcl", BucketArn(bucket), context)
  {
    var arn := BucketArn(bucket);
    ArnLiteral(bucket);
    GlobLiteral(arn, arn);
    assert StatementMatches(BucketPolicy(bucket).statements[1], CloudTrailService, "s3:GetBucketAcl", arn, context);
  }

  /** CloudTrail may write an object exactly when its key lies under
      "cloudtrail/" and the request grants the bucket owner full control. */
  lemma CloudTrailWritesOnlyLogs(bucket: string, key: string, context: map<string, string>)
    requires Literal(bucket)
    ensures Allows(BucketPolicy(bucket), CloudTrailService, "s3:PutObject", ObjectArn(bucket, key), context)
        <==> "cloudtrail/" <= key && AclKey in context && context[AclKey] == OwnerFullControl
  {
    var p := BucketPolicy(bucket);
    var arn := BucketArn(bucket);
    var obj := ObjectArn(bucket, key);
    ArnLiteral(bucket);
    assert arn + "/cloudtrail/*" == (arn + "/cloudtrail/") + "*";
    GlobPrefix(arn + "/cloudtrail/", obj);
    assert arn + "/cloudtrail/" == (arn + "/") + "cloudtrail/";
    PrefixCancel(arn + "/", "cloudtrail/", key);
    assert Glob(arn + "/cloudtrail/*", obj) <==> "cloudtrail/" <= key;
    assert p.statements[2].stringEquals == map[AclKey := OwnerFullControl];
    assert ConditionHolds(p.statements[2].stringEquals, context)
      <==> AclKey in context && context[AclKey] == OwnerFullControl;
    assert forall s :: (s in p.statements && s.effect == Allow
                        && StatementMatches(s, CloudTrailService, "s3:PutObject", obj, context)) ==> s == p.statements[2];
  }

  /** Nothing in the policy lets CloudTrail read objects back. */
  lemma CloudTrailCannotRead(bucket: string, resource: string, context: map<string, string>)
    ensures !Allows(BucketPolicy(bucket), CloudTrailService, "s3:GetObject", resource, context)
  {
  }

  const LoggedResourceTypes: seq<string> :=
    ["AWS::CodeWhisperer::Profile", "AWS::QDeveloper::Integration", "AWS::CodeWhisperer::Customization"]

  /** A selector for the data events on one resource type. */
  function DataSelector(name: string, resourceType: string): AdvancedEventSelector
  {
    AdvancedEventSelector(name, [
      FieldSelector("eventCategory", ["Data"]),
      FieldSelector("resources.type", [resourceType])])
  }

  /** The advanced event selectors the trail is given. */
  function EventSelectors(): seq<AdvancedEventSelector>
  {
    [ DataSelector("Log CodeWhisperer events", LoggedResourceTypes[0]),
      DataSelector("Log Q Developer Integration events", LoggedResourceTypes[1]),
      DataSelector("Log CodeWhisperer Customization events", LoggedResourceTypes[2]) ]
  }

  lemma DataSelectorMatches(name: string, resourceType: string, e: Event)
    ensures SelectorMatches(DataSelector(name, resourceType), e)
        <==> "eventCategory" in e && e["eventCategory"] == "Data"
             && "resources.type" in e && e["resources.type"] == resourceType
  {
    var fs := DataSelector(name, resourceType).fieldSelectors;
    if "eventCategory" in e && e["eventCategory"] == "Data" && "resources.type" in e && e["resources.type"] == resourceType {
      assert FieldMatches(fs[0], e) && FieldMatches(fs[1], e);
    }
    if SelectorMatches(DataSelector(name, resourceType), e) {
      assert FieldMatches(fs[0], e) && FieldMatches(fs[1], e);
    }
  }

  /** The trail logs an event exactly when it is a data event on one of the
      three Amazon Q Developer resource types. */
  lemma TrailLogsQDeveloperData(e: Event)
    ensures Logs(EventSelectors(), e)
        <==> "eventCategory" in e && e["eventCategory"] == "Data"
             && "resources.type" in e && e["resources.type"] in LoggedResourceTypes
  {
    var sel := EventSelectors();
    forall i | 0 <= i < 3
      ensures SelectorMatches(sel[i], e)
          <==> "eventCategory" in e && e["eventCategory"] == "Data"
               && "resources.type" in e && e["resources.type"] == LoggedResourceTypes[i]
    {
      DataSelectorMatches(sel[i].name, LoggedResourceTypes[i], e);
    }
  }

  /** The bucket's region, as create_bucket's LocationConstraint: none in the
      default region, the region itself anywhere else. */
  function LocationConstraint(region: string): (c: Option<string>)
    ensures c.None? <==> region == DefaultRegion
    ensures c.Some? ==> c.value == region
  {
    if region == DefaultRegion then None else Some(region)
  }

  // ---------------------------------------------------------------------------
  // The provider's answers
  // ---------------------------------------------------------------------------

  /** An entry of describe_trails' trail list; Name may be absent. */
  datatype TrailSummary = TrailSummary(name: Option<string>)

  /** The provider's answer to each call of one setup run. */
  datatype Oracle = Oracle(
    headBucket: Outcome,
    createBucket: Outcome,
    putBucketPolicy: Outcome,
    describeTrails: Answer<seq<TrailSummary>>,
    createTrail: Outcome,
    putEventSelectors: Outcome,
    startLogging: Outcome,
    directory: DirectoryScript)

  /** The bucket exists (or is created after a "404" probe) and takes the
      policy. */
  predicate BucketStepSucceeds(o: Oracle)
  {
    (o.headBucket.Ok? || (Raised(o.headBucket, "404") && o.createBucket.Ok?))
    && o.putBucketPolicy.Ok?
  }

  /** Some entry of the trail list has this name. */
  predicate TrailListed(trails: seq<TrailSummary>, name: string)
  {
    exists i :: 0 <= i < |trails| && trails[i].name == Some(name)
  }

  /** The trail list is read, the trail exists or is created, and it takes
      its selectors and starts logging. */
  predicate TrailStepSucceeds(o: Oracle, name: string)
  {
    o.describeTrails.Got?
    && (!TrailListed(o.describeTrails.value, name) ==> o.createTrail.Ok?)
    && o.putEventSelectors.Ok?
    && o.startLogging.Ok?
  }

  /** Both mandatory steps succeed; the user export never affects the
      result. */
  predicate SetupSucceeds(o: Oracle)
  {
    BucketStepSucceeds(o) && TrailStepSucceeds(o, TrailName)
  }

  /** The phase a setup call belongs to: bucket, manual pause, trail, export. */
  function SetupStage(c: Call): int
  {
    match c
    case HeadBucket(_) => 0
    case CreateBucket(_, _) => 0
    case PutBucketPolicy(_, _) => 0
    case ShowManualInstructions(_) => 1
    case DescribeTrails => 2
    case CreateTrail(_, _, _, _, _) => 2
    case PutEventSelectors(_, _) => 2
    case StartLogging(_) => 2
    case ListInstances => 3
    case ListUsers(_, _) => 3
    case UploadFile(_, _, _) => 3
    case PutObject(_, _, _) => 3
    case _ => 4
  }

  /** Order of the bucket step's calls. */
  function BucketRank(c: Call): int
  {
    match c
    case HeadBucket(_) => 0
    case CreateBucket(_, _) => 1
    case PutBucketPolicy(_, _) => 2
    case _ => 3
  }

  /** Order of the trail step's calls. */
  function TrailRank(c: Call): int
  {
    match c
    case DescribeTrails => 0
    case CreateTrail(_, _, _, _, _) => 1
    case PutEventSelectors(_, _) => 2
    case StartLogging(_) => 3
    case _ => 4
  }

  /** Every call the bucket step can make, in order. */
  function BucketCalls(cfg: Config): seq<Call>
  {
    [ HeadBucket(cfg.bucketName),
      CreateBucket(cfg.bucketName, LocationConstraint(cfg.region)),
      PutBucketPolicy(cfg.bucketName, BucketPolicy(cfg.bucketName)) ]
  }

  /** Every call the trail step can make, in order. */
  function TrailCalls(cfg: Config, trailName: string): seq<Call>
  {
    [ DescribeTrails,
      CreateTrail(trailName, cfg.bucketName, TrailKeyPrefix, true, true),
      PutEventSelectors(trailName, EventSelectors()),
      StartLogging(trailName) ]
  }

  /** The setup's phases run one after the other. */
  predicate InPhaseOrder(trace: seq<Call>)
  {
    forall i, j :: 0 <= i < j < |trace| ==> SetupStage(trace[i]) <= SetupStage(trace[j])
  }

  /** Appending a phase-k block to a trace of phases up to k keeps the
      phases in order. */
  lemma PhaseAppend(a: seq<Call>, b: seq<Call>, k: int)
    requires InPhaseOrder(a) && forall c <- a :: SetupStage(c) <= k
    requires forall c <- b :: SetupStage(c) == k
    ensures InPhaseOrder(a + b)
    ensures forall c <- a + b :: SetupStage(c) <= k
  {
    forall i, j | 0 <= i < j < |a + b|
      ensures SetupStage((a + b)[i]) <= SetupStage((a + b)[j])
    {
      if j >= |a| {
        assert (a + b)[j] == b[j - |a|];
        if i < |a| {
          assert (a + b)[i] == a[i];
        } else {
          assert (a + b)[i] == b[i - |a|];
        }
      }
    }
  }

  lemma StepStages(cfg: Config)
    ensures forall c <- BucketCalls(cfg) :: SetupStage(c) == 0
    ensures forall c <- TrailCalls(cfg, TrailName) :: SetupStage(c) == 2
  {
  }

  // ---------------------------------------------------------------------------
  // The steps
  // ---------------------------------------------------------------------------

  /** Probe the bucket; create it only when the probe says "404" (any other
      error ends the step); then put the policy. Every ClientError makes the
      step fail. */
  method CreateS3Bucket(cfg: Config, o: Oracle) returns (ok: bool, trace: seq<Call>)
    ensures ok <==> BucketStepSucceeds(o)
    ensures |trace| > 0 && trace[0] == HeadBucket(cfg.bucketName)
    ensures forall c <- trace :: c in BucketCalls(cfg)
    ensures forall i, j :: 0 <= i < j < |trace| ==> BucketRank(trace[i]) < BucketRank(trace[j])
    ensures CreateBucket(cfg.bucketName, LocationConstraint(cfg.region)) in trace <==> Raised(o.headBucket, "404")
    ensures PutBucketPolicy(cfg.bucketName, BucketPolicy(cfg.bucketName)) in trace
        <==> o.headBucket.Ok? || (Raised(o.headBucket, "404") && o.createBucket.Ok?)
  {
    var bucket := cfg.bucketName;
    trace := [HeadBucket(bucket)];
    if o.headBucket.Err? {
      if o.headBucket.error.code == "404" {
        if cfg.region == DefaultRegion {
          trace := trace + [CreateBucket(bucket, None)];
        } else {
          trace := trace + [CreateBucket(bucket, Some(cfg.region))];
        }
        if o.createBucket.Err? {
          return false, trace;
        }
      } else {
        return false, trace;
      }
    }
    trace := trace + [PutBucketPolicy(bucket, BucketPolicy(bucket))];
    ok := o.putBucketPolicy.Ok?;
  }

  /** Scan the trail list for an entry with this name, stopping at the
      first. */
  method FindTrail(trails: seq<TrailSummary>, trailName: string) returns (trailExists: bool)
    ensures trailExists <==> TrailListed(trails, trailName)
  {
    trailExists := false;
    var i := 0;
    while i < |trails|
      invariant 0 <= i <= |trails|
      invariant trailExists ==> TrailListed(trails, trailName)
      invariant !trailExists ==> forall j :: 0 <= j < i ==> trails[j].name != Some(trailName)
    {
      if trails[i].name == Some(trailName) {
        trailExists := true;
        break;
      }
      i := i + 1;
    }
  }

  /** Look the trail up in describe_trails' list; create it (in the bucket,
      under "cloudtrail", multi-region, with log file validation) only when
      no entry has its name; then set the event selectors and start logging.
      Every ClientError makes the step fail. */
  method SetupCloudTrail(cfg: Config, o: Oracle, trailName: string) returns (ok: bool, trace: seq<Call>)
    ensures ok <==> TrailStepSucceeds(o, trailName)
    ensures |trace| > 0 && trace[0] == DescribeTrails
    ensures forall c <- trace :: c in TrailCalls(cfg, trailName)
    ensures forall i, j :: 0 <= i < j < |trace| ==> TrailRank(trace[i]) < TrailRank(trace[j])
    ensures CreateTrail(trailName, cfg.bucketName, TrailKeyPrefix, true, true) in trace
        <==> o.describeTrails.Got? && !TrailListed(o.describeTrails.value, trailName)
    ensures PutEventSelectors(trailName, EventSelectors()) in trace
        <==> o.describeTrails.Got? && (!TrailListed(o.describeTrails.value, trailName) ==> o.createTrail.Ok?)
    ensures StartLogging(trailName) in trace
        <==> o.describeTrails.Got? && (!TrailListed(o.describeTrails.value, trailName) ==> o.createTrail.Ok?)
             && o.putEventSelectors.Ok?
  {
    trace := [DescribeTrails];
    if o.describeTrails.Error? {
      return false, trace;
    }
    var trailExists := FindTrail(o.describeTrails.value, trailName);
    if !trailExists {
      trace := trace + [CreateTrail(trailName, cfg.bucketName, TrailKeyPrefix, true, true)];
      if o.createTrail.Err? {
        return false, trace;
      }
    }
    trace := trace + [PutEventSelectors(trailName, EventSelectors())];
    if o.putEventSelectors.Err? {
      return false, trace;
    }
    trace := trace + [StartLogging(trailName)];
    ok := o.startLogging.Ok?;
  }

  /** Export the users of the first Identity Center instance as CSV and
      upload the file to users/<output file>. It fails, with no upload, when
      there is no instance, a call raises, or a primary email lacks a value. */
  method ExportUsers(cfg: Config, s: DirectoryScript, outputFile: string) returns (ok: bool, trace: seq<Call>)
    requires Scripted(s)
    ensures ok <==> ExportSucceeds(s)
    ensures trace == LookupCalls(s)
        + if ExportRows(s).Some? then [UploadFile(cfg.bucketName, ExportKey(outputFile), ExportRows(s).value)] else []
    ensures |trace| > 0 && trace[0] == ListInstances
    ensures forall c <- trace :: SetupStage(c) == 3
    ensures forall c <- trace :: c.UploadFile? ==> c.bucket == cfg.bucketName && c.key == ExportKey(outputFile)
  {
    trace := [ListInstances];
    if !FindsInstance(s) {
      return false, trace;
    }
    var listed, calls := ListAllUsers(s.listInstances.value[0].identityStoreId, s.listUsers);
    trace := trace + calls;
    if listed.Error? {
      return false, trace;
    }
    var rows := WriteCsv(listed.value);
    if rows.None? {
      return false, trace;
    }
    trace := trace + [UploadFile(cfg.bucketName, ExportKey(outputFile), rows.value)];
    ok := s.upload.Ok?;
  }

  /** The bucket step seen from the run: its success and its phase. */
  method BucketPhase(cfg: Config, o: Oracle) returns (ok: bool, trace: seq<Call>)
    ensures ok <==> BucketStepSucceeds(o)
    ensures |trace| > 0 && trace[0] == HeadBucket(cfg.bucketName)
    ensures forall c <- trace :: SetupStage(c) == 0
  {
    StepStages(cfg);
    ok, trace := CreateS3Bucket(cfg, o);
  }

  /** The trail step seen from the run: its success and its phase. */
  method TrailPhase(cfg: Config, o: Oracle) returns (ok: bool, trace: seq<Call>)
    ensures ok <==> TrailStepSucceeds(o, TrailName)
    ensures DescribeTrails in trace
    ensures forall c <- trace :: SetupStage(c) == 2
  {
    StepStages(cfg);
    ok, trace := SetupCloudTrail(cfg, o, TrailName);
    assert trace[0] in trace;
  }

  /** The bucket step, the manual pause and the trail step: a failed
      bucket step stops before the pause, and the result is true exactly
      when both steps succeed. No export call is made here. */
  method SetupSteps(cfg: Config, o: Oracle) returns (ok: bool, trace: seq<Call>)
    ensures ok <==> SetupSucceeds(o)
    ensures InPhaseOrder(trace)
    ensures forall c <- trace :: SetupStage(c) < 3
    ensures |trace| > 0 && trace[0] == HeadBucket(cfg.bucketName)
    ensures BucketStepSucceeds(o) ==> ShowManualInstructions(cfg.bucketName) in trace && DescribeTrails in trace
    ensures !BucketStepSucceeds(o) ==> forall c <- trace :: SetupStage(c) == 0
  {
    var bucketOk, bucketCalls := BucketPhase(cfg, o);
    PhaseAppend([], bucketCalls, 0);
    assert [] + bucketCalls == bucketCalls;
    if !bucketOk {
      return false, bucketCalls;
    }
    var pause := [ShowManualInstructions(cfg.bucketName)];
    PhaseAppend(bucketCalls, pause, 1);
    var trailOk, trailCalls := TrailPhase(cfg, o);
    PhaseAppend(bucketCalls + pause, trailCalls, 2);
    trace := bucketCalls + pause + trailCalls;
    ok := trailOk;
  }

  /** The whole setup: bucket, manual pause, trail, then the optional export.
      A failed bucket or trail step aborts the run; a failed export does not
      change the result. */
  method RunSetup(cfg: Config, o: Oracle, exportUsers: bool, outputFile: string) returns (ok: bool, trace: seq<Call>)
    requires Scripted(o.directory)
    ensures ok <==> SetupSucceeds(o)
    ensures InPhaseOrder(trace)
    ensures |trace| > 0 && trace[0] == HeadBucket(cfg.bucketName)
    ensures BucketStepSucceeds(o) ==> ShowManualInstructions(cfg.bucketName) in trace && DescribeTrails in trace
    ensures !BucketStepSucceeds(o) ==> forall c <- trace :: SetupStage(c) == 0
    ensures SetupSucceeds(o) && exportUsers ==> ListInstances in trace
    ensures !(SetupSucceeds(o) && exportUsers) ==> forall c <- trace :: SetupStage(c) < 3
  {
    ok, trace := SetupSteps(cfg, o);
    if ok && exportUsers {
      var exported, exportCalls := ExportUsers(cfg, o.directory, outputFile);
      PhaseAppend(trace, exportCalls, 3);
      assert exportCalls[0] == ListInstances;
      trace := trace + exportCalls;
    }
  }
}
