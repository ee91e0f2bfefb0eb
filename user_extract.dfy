/** The user-extraction Lambda (iam_identity_center_user_extract_lambda.py):
    list the users of the first IAM Identity Center instance, write them as
    CSV to users/<output file> in the bucket, and report the outcome as a
    result record and an HTTP-style response. */
module UserExtract {
  import opened Cloud
  import opened Directory

  const DefaultRegion := "us-east-1"
  const DefaultOutputFile := "users.csv"
  const MissingBucketMessage := "Missing required parameter: bucket_name"
  const NoInstancesMessage := "No IAM Identity Center instances found"
  const ClientErrorPrefix := "Error exporting IAM Identity Center users: "
  const UnexpectedErrorPrefix := "Unexpected error exporting users: "
  /** How a KeyError for the missing email 'Value' renders. */
  const MissingValueText := "'Value'"

  /** How botocore renders a ClientError raised by an operation. */
  function Rendered(e: ClientError, operation: string): string
  {
    "An error occurred (" + e.code + ") when calling the " + operation + " operation: " + e.message
  }

  /** The record extract_users returns; user_count only on success. */
  datatype ExtractResult = ExtractResult(success: bool, message: string, userCount: Option<nat>)

  /** What extract_users reports for a given directory. */
  function ExpectedResult(s: DirectoryScript): ExtractResult
    requires Scripted(s)
  {
    match s.listInstances
    case Error(e) => ExtractResult(false, ClientErrorPrefix + Rendered(e, "ListInstances"), None)
    case Got(instances) =>
      if instances == [] then ExtractResult(false, NoInstancesMessage, None)
      else match Listed(s.listUsers)
        case Error(e) => ExtractResult(false, ClientErrorPrefix + Rendered(e, "ListUsers"), None)
        case Got(users) =>
          if CsvRows(users).None? then ExtractResult(false, UnexpectedErrorPrefix + MissingValueText, None)
          else match s.upload
            case Err(e) => ExtractResult(false, ClientErrorPrefix + Rendered(e, "PutObject"), None)
            case Ok => ExtractResult(true, "Successfully exported " + NatToString(|users|) + " users to S3", Some(|users|))
  }

  /** The number of users the listing returned, when it ended without
      error. */
  function ListedCount(s: DirectoryScript): nat
    requires Scripted(s)
  {
    if FindsInstance(s) && Listed(s.listUsers).Got? then |Listed(s.listUsers).value| else 0
  }

  /** The report is a success exactly when the CSV was written; a success
      carries the number of users listed, which is the sum of the page
      sizes; every ClientError, from any of the three calls, is reported
      with the ClientError prefix. */
  lemma ResultReportsExport(s: DirectoryScript)
    requires Scripted(s)
    ensures ExpectedResult(s).success <==> ExportSucceeds(s)
    ensures ExpectedResult(s).userCount.Some? <==> ExpectedResult(s).success
    ensures ExpectedResult(s).success ==>
      ExpectedResult(s).userCount == Some(ListedCount(s))
      && ListedCount(s) == UserTotal(s.listUsers[..CallCount(s.listUsers)])
    ensures s.listInstances.Got? && s.listInstances.value == [] ==> ExpectedResult(s).message == NoInstancesMessage
    ensures s.listInstances.Error? || (FindsInstance(s) && Listed(s.listUsers).Error?)
            || (ExportRows(s).Some? && s.upload.Err?)
        ==> !ExpectedResult(s).success && ClientErrorPrefix <= ExpectedResult(s).message
  {
    if FindsInstance(s) {
      ListedIsConcat(s.listUsers);
    }
  }

  /** extract_users: list the instances, page through the users, build the
      rows and write them with put_object; any error ends the run with a
      failed result. */
  method ExtractUsers(cfg: Config, s: DirectoryScript, outputFile: string) returns (result: ExtractResult, trace: seq<Call>)
    requires Scripted(s)
    ensures result == ExpectedResult(s)
    ensures trace == LookupCalls(s)
        + if ExportRows(s).Some? then [PutObject(cfg.bucketName, ExportKey(outputFile), ExportRows(s).value)] else []
  {
    trace := [ListInstances];
    if s.listInstances.Error? {
      return ExtractResult(false, ClientErrorPrefix + Rendered(s.listInstances.error, "ListInstances"), None), trace;
    }
    if s.listInstances.value == [] {
      return ExtractResult(false, NoInstancesMessage, None), trace;
    }
    var listed, calls := ListAllUsers(s.listInstances.value[0].identityStoreId, s.listUsers);
    trace := trace + calls;
    if listed.Error? {
      return ExtractResult(false, ClientErrorPrefix + Rendered(listed.error, "ListUsers"), None), trace;
    }
    var users := listed.value;
    var rows := WriteCsv(users);
    if rows.None? {
      return ExtractResult(false, UnexpectedErrorPrefix + MissingValueText, None), trace;
    }
    trace := trace + [PutObject(cfg.bucketName, ExportKey(outputFile), rows.value)];
    if s.upload.Err? {
      return ExtractResult(false, ClientErrorPrefix + Rendered(s.upload.error, "PutObject"), None), trace;
    }
    result := ExtractResult(true, "Successfully exported " + NatToString(|users|) + " users to S3", Some(|users|));
  }

  /** The invocation event; every key may be absent. */
  datatype Event = Event(bucketName: Option<string>, region: Option<string>, outputFile: Option<string>)

  /** The JSON body of the response. */
  datatype Body =
    | Message(message: string)
    | Report(message: string, bucketName: string, region: string, outputFile: string, userCount: nat)

  datatype Response = Response(statusCode: int, body: Body)

  /** bucket_name is present and not empty. */
  predicate HasBucket(e: Event)
  {
    e.bucketName.Some? && e.bucketName.value != ""
  }

  /** The handler: 400 without a bucket name (and no call at all);
      otherwise the extraction runs with the event's parameters and their
      defaults; the status is 200 exactly when the CSV was written, and the
      body reports the extraction's message and count (0 on failure). */
  method LambdaHandler(event: Event, s: DirectoryScript) returns (resp: Response, trace: seq<Call>)
    requires Scripted(s)
    ensures !HasBucket(event) ==> resp == Response(400, Message(MissingBucketMessage)) && trace == []
    ensures HasBucket(event) ==> resp.statusCode == if ExportSucceeds(s) then 200 else 500
    ensures HasBucket(event) ==>
      resp.body == Report(
        ExpectedResult(s).message,
        event.bucketName.value,
        OrElse(event.region, DefaultRegion),
        OrElse(event.outputFile, DefaultOutputFile),
        if ExportSucceeds(s) then ListedCount(s) else 0)
    ensures HasBucket(event) ==>
      trace == LookupCalls(s)
               + if ExportRows(s).Some?
                 then [PutObject(event.bucketName.value, ExportKey(OrElse(event.outputFile, DefaultOutputFile)), ExportRows(s).value)]
                 else []
  {
    if event.bucketName.None? || event.bucketName.value == "" {
      return Response(400, Message(MissingBucketMessage)), [];
    }
    var bucketName := event.bucketName.value;
    var region := OrElse(event.region, DefaultRegion);
    var outputFile := OrElse(event.outputFile, DefaultOutputFile);
    var result;
    result, trace := ExtractUsers(Config(bucketName, region), s, outputFile);
    ResultReportsExport(s);
    resp := Response(
      if result.success then 200 else 500,
      Report(result.message, bucketName, region, outputFile, OrElse(result.userCount, 0)));
  }
}
