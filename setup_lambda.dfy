/** The Lambda variant of the setup (q_developer_3p_metrics_setup_lambda.py):
    the same bucket and trail steps as the interactive setup (module Setup),
    no manual pause, an export that writes the CSV with put_object instead of
    a temporary file, and a handler that reads its parameters from the
    invocation event. */
module SetupLambda {
  import opened Cloud
  import opened Directory
  import Setup

  const MissingBucketMessage := "Missing required parameter: bucket_name"
  const SuccessMessage := "Setup completed successfully"
  const FailureMessage := "Setup failed"

  /** The export as the Lambda ships it. After the listing it creates its
      CSV buffer with io.StringIO, but the module never imports io: the
      NameError is caught by the generic handler, so the export reports
      failure and never writes the object, whatever the provider answers. */
  method ExportUsersAsWritten(cfg: Config, s: DirectoryScript, outputFile: string) returns (ok: bool, trace: seq<Call>)
    requires Scripted(s)
    ensures !ok
    ensures trace == LookupCalls(s)
    ensures forall c <- trace :: !c.PutObject?
    ensures forall c <- trace :: Setup.SetupStage(c) == 3
  {
    trace := [ListInstances];
    if !FindsInstance(s) {
      return false, trace;
    }
    var listed, calls := ListAllUsers(s.listInstances.value[0].identityStoreId, s.listUsers);
    trace := trace + calls;
    if listed.Error? {
      return false, trace;
    }
    // Building the CSV buffer raises NameError here; the generic handler
    // turns it into a failed export.
    ok := false;
  }

  /** The calls of the intended export: the lookup, then the upload of the
      rows exactly when they were built. */
  function ExportCalls(bucket: string, s: DirectoryScript, outputFile: string): seq<Call>
    requires Scripted(s)
  {
    LookupCalls(s) + if ExportRows(s).Some? then [PutObject(bucket, ExportKey(outputFile), ExportRows(s).value)] else []
  }

  /** The export with the buffer available: the users' CSV is written to
      users/<output file> with put_object. It fails, with no write, when
      there is no instance, a call raises, or a primary email lacks a
      value. */
  method ExportUsers(cfg: Config, s: DirectoryScript, outputFile: string) returns (ok: bool, trace: seq<Call>)
    requires Scripted(s)
    ensures ok <==> ExportSucceeds(s)
    ensures trace == ExportCalls(cfg.bucketName, s, outputFile)
    ensures |trace| > 0 && trace[0] == ListInstances
    ensures forall c <- trace :: Setup.SetupStage(c) == 3
  {
    trace := [ListInstances];
    if !FindsInstance(s) {
      return false, trace;
    }
    var listed, calls := ListAllUsers(s.listInstances.value[0].identityStoreId, s.listUsers);
    trace := trace + calls;
    if listed.Error? {
      return false, trace;
    }
    var rows := WriteCsv(listed.value);
    if rows.None? {
      return false, trace;
    }
    trace := trace + [PutObject(cfg.bucketName, ExportKey(outputFile), rows.value)];
    ok := s.upload.Ok?;
  }

  /** A directory with one instance and no users, whose write succeeds. */
  function EmptyDirectory(): DirectoryScript
  {
    DirectoryScript(Got([Instance("arn:aws:sso:::instance/ssoins-1", "d-1")]), [Got(Page([], None))], Ok)
  }

  /** On a directory where every call succeeds the intended export writes
      the header-only CSV, while the shipped export reports failure. */
  lemma ExportSucceedsOnEmptyDirectory()
    ensures Scripted(EmptyDirectory())
    ensures ExportSucceeds(EmptyDirectory())
    ensures ExportRows(EmptyDirectory()) == Some([Header])
  {
    var s := EmptyDirectory();
    assert Last(s.listUsers[0]);
    assert Ends(s.listUsers);
    var noUsers: seq<User> := [];
    assert Listed(s.listUsers) == Got(noUsers);
    var noRows: seq<Row> := [];
    assert DataRows(noUsers) == Some(noRows);
    assert [Header] + noRows == [Header];
    assert CsvRows(noUsers) == Some([Header]);
  }

  /** The bucket and trail steps shared by both runs: a failed bucket step
      aborts before the trail, and the result is true exactly when both
      steps succeed. No export call is made here. */
  method SetupSteps(cfg: Config, o: Setup.Oracle) returns (ok: bool, trace: seq<Call>)
    ensures ok <==> Setup.SetupSucceeds(o)
    ensures Setup.InPhaseOrder(trace)
    ensures forall c <- trace :: Setup.SetupStage(c) < 3
    ensures |trace| > 0 && trace[0] == HeadBucket(cfg.bucketName)
    ensures Setup.BucketStepSucceeds(o) ==> DescribeTrails in trace
    ensures !Setup.BucketStepSucceeds(o) ==> forall c <- trace :: Setup.SetupStage(c) == 0
  {
    var bucketOk, bucketCalls := Setup.BucketPhase(cfg, o);
    Setup.PhaseAppend([], bucketCalls, 0);
    assert [] + bucketCalls == bucketCalls;
    if !bucketOk {
      return false, bucketCalls;
    }
    var trailOk, trailCalls := Setup.TrailPhase(cfg, o);
    Setup.PhaseAppend(bucketCalls, trailCalls, 2);
    trace := bucketCalls + trailCalls;
    ok := trailOk;
  }

  /** The Lambda's setup as it ships: bucket, trail, then the optional
      export, which always fails. The run still reports success when both
      steps succeed, its export phase is the directory lookup alone, and no
      object is ever written. */
  method RunSetupAsWritten(cfg: Config, o: Setup.Oracle, exportUsers: bool, outputFile: string) returns (ok: bool, trace: seq<Call>)
    requires Scripted(o.directory)
    ensures ok <==> Setup.SetupSucceeds(o)
    ensures Setup.InPhaseOrder(trace)
    ensures |trace| > 0 && trace[0] == HeadBucket(cfg.bucketName)
    ensures Setup.BucketStepSucceeds(o) ==> DescribeTrails in trace
    ensures !Setup.BucketStepSucceeds(o) ==> forall c <- trace :: Setup.SetupStage(c) == 0
    ensures Setup.SetupSucceeds(o) && exportUsers ==>
      var lookup := LookupCalls(o.directory);
      |trace| >= |lookup| && trace[|trace| - |lookup|..] == lookup
    ensures Setup.SetupSucceeds(o) && exportUsers ==> ListInstances in trace
    ensures !(Setup.SetupSucceeds(o) && exportUsers) ==> forall c <- trace :: Setup.SetupStage(c) < 3
    ensures forall c <- trace :: !c.PutObject?
  {
    ok, trace := SetupSteps(cfg, o);
    if ok && exportUsers {
      var exported, exportCalls := ExportUsersAsWritten(cfg, o.directory, outputFile);
      Setup.PhaseAppend(trace, exportCalls, 3);
      assert exportCalls[0] == ListInstances;
      trace := trace + exportCalls;
    }
  }

  /** The Lambda's setup with the intended export: as RunSetupAsWritten,
      except that the export phase is the intended export's calls, ending
      with the put_object of the CSV rows when they were built. */
  method RunSetup(cfg: Config, o: Setup.Oracle, exportUsers: bool, outputFile: string) returns (ok: bool, trace: seq<Call>)
    requires Scripted(o.directory)
    ensures ok <==> Setup.SetupSucceeds(o)
    ensures Setup.InPhaseOrder(trace)
    ensures |trace| > 0 && trace[0] == HeadBucket(cfg.bucketName)
    ensures Setup.BucketStepSucceeds(o) ==> DescribeTrails in trace
    ensures !Setup.BucketStepSucceeds(o) ==> forall c <- trace :: Setup.SetupStage(c) == 0
    ensures Setup.SetupSucceeds(o) && exportUsers ==>
      var exportCalls := ExportCalls(cfg.bucketName, o.directory, outputFile);
      |trace| >= |exportCalls| && trace[|trace| - |exportCalls|..] == exportCalls
    ensures Setup.SetupSucceeds(o) && exportUsers ==> ListInstances in trace
    ensures !(Setup.SetupSucceeds(o) && exportUsers) ==> forall c <- trace :: Setup.SetupStage(c) < 3
  {
    ok, trace := SetupSteps(cfg, o);
    if ok && exportUsers {
      var exported, exportCalls := ExportUsers(cfg, o.directory, outputFile);
      Setup.PhaseAppend(trace, exportCalls, 3);
      assert exportCalls[0] == ListInstances;
      trace := trace + exportCalls;
    }
  }

  /** The invocation event; every key may be absent. */
  datatype Event = Event(
    bucketName: Option<string>,
    region: Option<string>,
    exportUsers: Option<bool>,
    outputFile: Option<string>)

  /** The JSON body of the response. */
  datatype Body =
    | Message(message: string)
    | Report(message: string, bucketName: string, region: string, exportUsers: bool, outputFile: Option<string>)

  datatype Response = Response(statusCode: int, body: Body)

  /** bucket_name is present and not empty. */
  predicate HasBucket(e: Event)
  {
    e.bucketName.Some? && e.bucketName.value != ""
  }

  /** The handler: 400 without a bucket name (and no call at all);
      otherwise the shipped setup runs with the event's parameters and their
      defaults, and the status is 200 exactly when it succeeds. The shipped
      export writes nothing, so neither does the handler. */
  method LambdaHandler(event: Event, o: Setup.Oracle) returns (resp: Response, trace: seq<Call>)
    requires Scripted(o.directory)
    ensures !HasBucket(event) ==> resp == Response(400, Message(MissingBucketMessage)) && trace == []
    ensures HasBucket(event) ==> resp.statusCode == if Setup.SetupSucceeds(o) then 200 else 500
    ensures HasBucket(event) ==>
      var exportUsers := OrElse(event.exportUsers, false);
      resp.body == Report(
        if Setup.SetupSucceeds(o) then SuccessMessage else FailureMessage,
        event.bucketName.value,
        OrElse(event.region, Setup.DefaultRegion),
        exportUsers,
        if exportUsers then Some(OrElse(event.outputFile, Setup.DefaultOutputFile)) else None)
    ensures HasBucket(event) ==> |trace| > 0 && trace[0] == HeadBucket(event.bucketName.value)
    ensures HasBucket(event) && OrElse(event.exportUsers, false) && Setup.SetupSucceeds(o) ==> ListInstances in trace
    ensures HasBucket(event) && !OrElse(event.exportUsers, false) ==> forall c <- trace :: Setup.SetupStage(c) < 3
    ensures forall c <- trace :: !c.PutObject?
  {
    if event.bucketName.None? || event.bucketName.value == "" {
      return Response(400, Message(MissingBucketMessage)), [];
    }
    var bucketName := event.bucketName.value;
    var region := OrElse(event.region, Setup.DefaultRegion);
    var exportUsers := OrElse(event.exportUsers, false);
    var outputFile := OrElse(event.outputFile, Setup.DefaultOutputFile);
    var result;
    result, trace := RunSetupAsWritten(Config(bucketName, region), o, exportUsers, outputFile);
    resp := Response(
      if result then 200 else 500,
      Report(if result then SuccessMessage else FailureMessage, bucketName, region, exportUsers,
             if exportUsers then Some(outputFile) else None));
  }
}
