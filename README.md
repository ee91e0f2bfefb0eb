# Amazon Q Developer logging-stats setup, export and cleanup, in Dafny

This project models the orchestration scripts of the Amazon Q Developer
"3P logging stats" sample. Each script drives AWS through boto3:

- **The interactive setup.** `QDeveloper3PSetup` in `setup_q_developer_3p_metrcis.py`:
  - create the S3 bucket, or reuse it, and give it a policy for Amazon Q and CloudTrail;
  - pause for the manual console step;
  - create the CloudTrail trail, or reuse it, with advanced event selectors for the Amazon Q Developer data events, and start logging;
  - optionally, export the IAM Identity Center users as CSV to `users/<file>` in the bucket.
- **The setup Lambda.** It runs the same steps without the pause, reads its parameters from the invocation event and answers 200, 400 or 500.
- **The user-extract Lambda.** It runs only the user export, and reports a success flag, a message and a user count.
- **The cleanup script.** It deletes, in this order:
  - the EventBridge rules, after removing their targets;
  - the Lambda functions;
  - the IAM roles with their inline policies;
  - the trail;
  - the bucket's objects, object versions and delete markers;
  - the bucket itself.

  It runs after a confirmation prompt.

**How AWS is modelled.** Every answer AWS gives comes from a script value supplied by the caller:
- an `Oracle`, or a `DirectoryScript` for the user directory;
- each remote call is an `Outcome` or an `Answer`, and a `ClientError` carries its error code.

Every operation returns the trace of calls it made, in order. The contracts relate each result and trace to the answers. The documents the setup sends are judged by a small independent evaluator (module `Documents`):
- a bucket policy, evaluated with glob ARN matching and `StringEquals` conditions;
- the advanced event selectors, where field selectors are AND-ed and selectors OR-ed.

So the lemmas state what the policy grants and which events the trail logs.

**Modules:**
- `Documents`: policy and selector documents and their evaluators.
- `Cloud`: calls, outcomes and errors.
- `Directory`: the user export shared by three scripts. It covers the `list_users` cursor pagination, the five-column CSV projection and the export pipeline.
- `Setup`: the interactive setup.
- `SetupLambda`: the setup Lambda.
- `UserExtract`: the user-extract Lambda.
- `Cleanup`: the cleanup script.

**The trail the cleanup deletes.**
- The cleanup deletes the trail `q-developer-3p-trail-<bucket>`.
- Both setups create `QDeveloper3PTrail`.
- The model keeps both names as written. `Cleanup.CleanupAttemptsEverything` proves that the cleanup never deletes the setup's trail.
- It is not evident which name is intended, so the cleanup is not "corrected".

## Model

| member | source | states |
|---|---|---|
| Documents.GlobLiteral | src/setup_q_developer_3p_metrcis.py:72-75 | A resource pattern without wildcards matches exactly the identical ARN. |
| Documents.GlobPrefix | src/setup_q_developer_3p_metrcis.py:74 | A literal prefix followed by `*` matches exactly the strings that start with that prefix. |
| Setup.QReachesBucketAndObjects | src/setup_q_developer_3p_metrcis.py:58-76 | The policy lets the Amazon Q service perform each of its three actions on the bucket ARN and on every object ARN in it, whatever the request context. |
| Setup.CloudTrailReadsAcl | src/setup_q_developer_3p_metrcis.py:77-85 | The policy lets CloudTrail read the bucket ACL. |
| Setup.CloudTrailWritesOnlyLogs | src/setup_q_developer_3p_metrcis.py:86-99 | CloudTrail may put an object if and only if its key starts with `cloudtrail/` and the request carries `s3:x-amz-acl = bucket-owner-full-control`. |
| Setup.CloudTrailCannotRead | src/setup_q_developer_3p_metrcis.py:58-101 | No statement lets CloudTrail read objects. |
| Setup.DataSelectorMatches | src/setup_q_developer_3p_metrcis.py:158-170 | One selector matches an event if and only if the event is a Data event on that resource type. |
| Setup.TrailLogsQDeveloperData | src/setup_q_developer_3p_metrcis.py:156-197 | The trail logs an event if and only if it is a Data event on one of the three CodeWhisperer / Q Developer resource types. |
| Setup.LocationConstraint | src/setup_q_developer_3p_metrcis.py:46-52 | The bucket gets no LocationConstraint exactly in us-east-1, and its own region anywhere else. |
| Setup.CreateS3Bucket | src/setup_q_developer_3p_metrcis.py:36-112 | Success if and only if the bucket exists (or a "404" probe is followed by a successful create) and the policy is accepted. The probe comes first. Calls come in bucket-step order, and each call is one of the step's calls. The bucket is created if and only if the probe raised "404". The policy is put if and only if the bucket exists or was just created. |
| Setup.FindTrail | src/setup_q_developer_3p_metrcis.py:135-141 | The scan finds the trail if and only if some listed trail carries that name. |
| Setup.SetupCloudTrail | src/setup_q_developer_3p_metrcis.py:131-212 | Success if and only if the trail list is read, the trail exists or is created, and the selectors and start_logging are accepted. describe_trails comes first, and calls are in order. The trail is created (multi-region, log validation, prefix `cloudtrail`, in the bucket) only when no listed trail has its name. The selectors and start_logging calls are made exactly when the earlier calls succeeded. |
| Setup.ExportUsers | src/setup_q_developer_3p_metrcis.py:214-300 | The export succeeds if and only if an instance exists, every list call and every row succeeds, and the upload returns. The trace is list_instances, then the listing, then one upload of the CSV rows to `users/<file>` in the bucket, exactly when the rows were built. |
| Setup.PhaseAppend | src/setup_q_developer_3p_metrcis.py:302-331 | Appending a block of one later phase keeps a trace in phase order. |
| Setup.SetupSteps | src/setup_q_developer_3p_metrcis.py:306-317 | The bucket step, the pause and the trail step: the result is true if and only if both steps succeed, they run in phase order, a failed bucket step stops before the pause, and no export call is made. |
| Setup.RunSetup | src/setup_q_developer_3p_metrcis.py:302-331 | The result is true if and only if the bucket and trail steps succeed; the export never changes it. Phases run in order: bucket, pause, trail, export. A failed bucket step stops before the pause. The export runs only when asked for and after both steps succeeded. |
| SetupLambda.ExportUsersAsWritten | src/q_developer_3p_metrics_setup_lambda.py:295-363 | As shipped, the export always reports failure and never writes the object. The unimported `io` raises NameError, which the generic handler catches. |
| SetupLambda.ExportSucceedsOnEmptyDirectory | src/q_developer_3p_metrics_setup_lambda.py:332 | A concrete directory (one instance, no users, upload accepted) for which the intended export succeeds with the header-only CSV. The shipped export fails on it. |
| SetupLambda.ExportUsers | src/q_developer_3p_metrics_setup_lambda.py:295-363 | The corrected export: success if and only if the export pipeline succeeds. The trace is list_instances, the listing, then put_object of the CSV rows to `users/<file>` exactly when the rows were built. Every call is in the export phase. |
| SetupLambda.SetupSteps | src/q_developer_3p_metrics_setup_lambda.py:369-377 | The bucket and trail steps: the result is true if and only if both succeed, a failed bucket step stops before the trail, and no export call is made. |
| SetupLambda.RunSetupAsWritten | src/q_developer_3p_metrics_setup_lambda.py:365-391 | The run as shipped: the result is true if and only if the bucket and trail steps succeed, and the failing export never changes it. When the export is requested after both steps, the trace ends with the directory lookup. No put_object is ever made. |
| SetupLambda.RunSetup | src/q_developer_3p_metrics_setup_lambda.py:365-391 | The run with the intended export. It has the same result and phase order as the shipped run. When the export is requested after both steps, the trace ends with the intended export's calls, including the put_object of the CSV rows to `users/<file>` when they were built. |
| SetupLambda.LambdaHandler | src/q_developer_3p_metrics_setup_lambda.py:78-119 | A missing or empty bucket name gives 400 with its message, and no call is made. Otherwise the shipped setup runs, and the status is 200 if and only if it succeeds, else 500. The body echoes the parameters with their defaults (us-east-1, no export, `users.csv`), and the output file is null when export is off. Export off means no export call, and no put_object is ever made. |
| Directory.FirstPrimary | src/iam_identity_center_user_extract_lambda.py:154 | The index found is that of the first primary email, or the length of the list when none is primary. |
| Directory.UserRow | src/iam_identity_center_user_extract_lambda.py:153-161 | The row fails exactly when the first primary email has no Value (the KeyError). Otherwise it has five fields: id, user name, the first primary email's Value (or "" when none is primary), given name and family name, with absent fields as "". |
| Directory.DataRows | src/iam_identity_center_user_extract_lambda.py:153-161 | The rows are built if and only if every user's row is built, and then there is one row per user, in order. |
| Directory.CsvRows | src/iam_identity_center_user_extract_lambda.py:147-161 | The header first, then one row per user, in order. The CSV fails exactly when some row fails. |
| Directory.WriteCsv | src/iam_identity_center_user_extract_lambda.py:147-161 | The writer loop produces exactly CsvRows, stopping at the first failing row. |
| Directory.CallCount | src/iam_identity_center_user_extract_lambda.py:130-145 | The listing makes calls up to and including the first answer that raised or had no token. |
| Directory.ListCallsShape | src/iam_identity_center_user_extract_lambda.py:130-145 | The first list_users call carries no token. Each later call carries the token of the answer before it, and that token is non-empty. The calls stop at the first answer without a token. |
| Directory.ListedIsConcat | src/iam_identity_center_user_extract_lambda.py:141 | The listing fails exactly when its last call raised. Otherwise it returns the users of every page, in order, and their number is the sum of the page sizes. |
| Directory.ConcatAppend | src/iam_identity_center_user_extract_lambda.py:141 | Collecting the users of two runs of pages is collecting each and concatenating. |
| Directory.ListAllUsers | src/iam_identity_center_user_extract_lambda.py:127-145 | The paginating loop makes exactly the calls of ListCalls and returns the listing's outcome. |
| UserExtract.ResultReportsExport | src/iam_identity_center_user_extract_lambda.py:108-191 | The result succeeds if and only if the CSV was written. A count is present if and only if the result succeeds, and it is the number of users listed, which is the sum of the page sizes. No instance gives the "No IAM Identity Center instances found" message. Any ClientError fails with the ClientError prefix. |
| UserExtract.ExtractUsers | src/iam_identity_center_user_extract_lambda.py:108-191 | The result is the expected report for the directory. The trace is list_instances, the listing, then one put_object of the CSV to `users/<file>` exactly when the rows were built. |
| UserExtract.LambdaHandler | src/iam_identity_center_user_extract_lambda.py:55-95 | A missing or empty bucket name gives 400 with no call. Otherwise the status is 200 if and only if the export succeeded. The body carries the message, the parameters with their defaults, and the count (0 on failure). |
| Cleanup.CleanupMissesSetupTrail | src/cleanup_q_developer_3p_metrics.py:121 | The trail name the cleanup deletes never equals the name the setup creates. |
| Cleanup.Settle | src/cleanup_q_developer_3p_metrics.py:57-61 | A call's status is Deleted if and only if it returned, AlreadyGone if and only if it raised the resource's not-found code, and Failed with the error otherwise. |
| Cleanup.TargetIds | src/cleanup_q_developer_3p_metrics.py:46 | The ids sent are the listed targets' ids, in order. |
| Cleanup.RuleTeardownSteps | src/cleanup_q_developer_3p_metrics.py:41-61 | Per rule: targets are listed first. remove_targets is called with exactly the listed ids, only when the list is non-empty. delete_rule follows, after the removal, unless an earlier call raised. The rule counts as deleted if and only if delete_rule returned. Every call but the last returned. The last call is delete_rule or the call that raised, and its answer settled against ResourceNotFoundException is the rule's status: already gone on that code, failed with the error on any other. |
| Cleanup.EveryRuleAttempted | src/cleanup_q_developer_3p_metrics.py:36-61 | An error on one rule never stops the loop: every rule is attempted, each status is that rule's own, and only rule calls on the listed rules are made. |
| Cleanup.TargetsRemovedBeforeRule | src/cleanup_q_developer_3p_metrics.py:43-54 | Over the whole loop, a rule's targets are removed before that rule is deleted. |
| Cleanup.DeleteEventBridgeRules | src/cleanup_q_developer_3p_metrics.py:34-61 | The loop over the two rule names does exactly the per-rule teardown, rule after rule. |
| Cleanup.FunctionsTeardown | src/cleanup_q_developer_3p_metrics.py:70-78 | One delete_function per name, in order, each settled with ResourceNotFoundException on its own. |
| Cleanup.DeleteLambdaFunctions | src/cleanup_q_developer_3p_metrics.py:63-78 | The loop over the two function names does exactly that. |
| Cleanup.EveryRoleAttempted | src/cleanup_q_developer_3p_metrics.py:93-117 | For every role, the policy delete then the role delete are both attempted whatever the other calls answer. Each is settled with NoSuchEntity on its own. |
| Cleanup.DeleteIamRolesAndPolicies | src/cleanup_q_developer_3p_metrics.py:80-117 | The loop over the two roles does exactly the per-role teardown. |
| Cleanup.DeleteCloudTrail | src/cleanup_q_developer_3p_metrics.py:119-130 | One delete of `q-developer-3p-trail-<bucket>`, settled with TrailNotFoundException. |
| Cleanup.DeleteS3Bucket | src/cleanup_q_developer_3p_metrics.py:189-198 | One delete of the bucket, settled with NoSuchBucket. |
| Cleanup.KeyBatch | src/cleanup_q_developer_3p_metrics.py:145 | A page's delete batch is its keys, in order, without version ids. |
| Cleanup.VersionIds | src/cleanup_q_developer_3p_metrics.py:161-169 | A version batch names each version's key and version id, in order. |
| Cleanup.DrainStops | src/cleanup_q_developer_3p_metrics.py:142-151 | Once a delete has raised, later pages change nothing. |
| Cleanup.DrainCounts | src/cleanup_q_developer_3p_metrics.py:142-151 | The loop's counter equals the number of objects in the batches whose delete returned. |
| Cleanup.DrainSendsEachBatch | src/cleanup_q_developer_3p_metrics.py:142-151 | A loop that ends without error has sent every non-empty batch exactly once, in page order, and no empty one. |
| Cleanup.DrainCalls | src/cleanup_q_developer_3p_metrics.py:142-151 | A loop makes only its listing call and non-empty deletes on the bucket. |
| Cleanup.AcknowledgedAppend | src/cleanup_q_developer_3p_metrics.py:151 | Acknowledged objects add up across concatenated traces. |
| Cleanup.EmptyError | src/cleanup_q_developer_3p_metrics.py:181-187 | An escaping error reports the bucket absent if and only if its code is "404", and otherwise reports that error. It is never a success. |
| Cleanup.EmptyBucket | src/cleanup_q_developer_3p_metrics.py:132-187 | The bucket probe is always the first call. A "404" probe reports the bucket absent and makes no other call. |
| Cleanup.EmptyBucketCounts | src/cleanup_q_developer_3p_metrics.py:132-181 | A reported count is exactly the number of objects in the delete calls that returned. |
| Cleanup.EmptyBucketCalls | src/cleanup_q_developer_3p_metrics.py:132-181 | Emptying makes only the probe, listings of the bucket and non-empty deletes on it. |
| Cleanup.VersionErrorsSwallowed | src/cleanup_q_developer_3p_metrics.py:154-179 | Once the current objects are deleted, any version-phase error is swallowed. The step reports success with at least the current phase's count, and every non-empty page of current objects was sent once, in order. |
| Cleanup.DeleteCurrentObjects | src/cleanup_q_developer_3p_metrics.py:142-151 | The current-objects loop does exactly the paged drain: one list per page, one delete per non-empty page, stopping at the first delete that raises. |
| Cleanup.DeleteVersions | src/cleanup_q_developer_3p_metrics.py:154-176 | The version loop does exactly the paged drain over version batches (versions, then delete markers). |
| Cleanup.EmptyS3Bucket | src/cleanup_q_developer_3p_metrics.py:132-187 | empty_s3_bucket does exactly EmptyBucket: probe, current objects (an error escapes), versions (an error is caught), with the summed counter. |
| Cleanup.RunCleanup | src/cleanup_q_developer_3p_metrics.py:200-228 | run_cleanup runs the six steps and yields exactly CleanupOf. |
| Cleanup.StageAppend | src/cleanup_q_developer_3p_metrics.py:200-228 | Appending a block of a later step keeps a trace in step order. |
| Cleanup.CleanupInOrder | src/cleanup_q_developer_3p_metrics.py:200-228 | The calls follow the script's step order, so rules come before the functions they target and the bucket is emptied before it is deleted. The bucket delete is the last call. |
| Cleanup.CleanupDeletesOnlyItsTrail | src/cleanup_q_developer_3p_metrics.py:119-130 | Every trail delete names `q-developer-3p-trail-<bucket>`. |
| Cleanup.CleanupAttemptsEverything | src/cleanup_q_developer_3p_metrics.py:200-228 | Every rule, function and role is tried, the trail delete is made, and the bucket is probed, whatever the answers. The setup's trail is never deleted. |
| Cleanup.Lower | src/cleanup_q_developer_3p_metrics.py:257 | Lower-casing keeps the length and lower-cases each character. |
| Cleanup.ProceedsExactly | src/cleanup_q_developer_3p_metrics.py:246-261 | Without `--confirm`, the cleanup proceeds exactly for three-letter answers spelling "yes" in any mix of cases. |
| Cleanup.CleanupCommand | src/cleanup_q_developer_3p_metrics.py:238-264 | The cleanup runs if and only if `--confirm` was given or the answer was "yes". Otherwise no call is made. |

## Left out

- **AWS client plumbing.** Client construction, the STS account lookup, console output and the `input()` pause are not modelled. The pause is one `ShowManualInstructions` call in the trace.
- **Argument parsing.** The argparse command line of the setup is not modelled.
- **Serialization.** `json.dumps` of the policy and of the response bodies, and CSV quoting, are not modelled. Documents and bodies are structured values, and CSV rows are field lists.
- **Temporary-file handling.** The interactive export's temporary file (flush, fsync, removal and its OSError warning) is reduced to one `UploadFile` call carrying the rows.
- **Error messages.** botocore's rendering of a ClientError is approximated by `UserExtract.Rendered`. An unexpected error's text is given only for the missing email Value.
- **Instance fields.** `InstanceArn` and `IdentityStoreId` are assumed present on the first instance; a missing key would raise KeyError.
- **Endless pagination.** A listing whose tokens never stop is not modelled. Every member over `list_users` requires that the script ends (`Directory.Ends`), because the source would loop forever.
- **Event flag.** The Lambda's `export_users` event value is modelled as a boolean, not any JSON value with Python truthiness.
- **Lower-casing.** `Cleanup.Lower` lower-cases ASCII only. Python's Unicode `str.lower` maps no other character onto `y`, `e` or `s`, so the confirmation outcome is the same.
- **S3 paginator requests.** The paginator's internal continuation requests are modelled as one listing call per page. A failed listing is a final failing call.
- **Per-object errors.** `delete_objects` responses that report per-object errors without raising are treated as success, as the script does.
- **Setup.RunSetup:** states the upload's bucket and key only through `Setup.ExportUsers`, not on the whole run's trace.

## Findings

| source | as written | input that shows it | evidently intended | confidence | as-written member | corrected member |
|---|---|---|---|---|---|---|
| src/q_developer_3p_metrics_setup_lambda.py:332 | `io.StringIO()` is used but the module never imports `io` (imports at lines 70-75). The NameError is caught by the generic handler, so the export always fails and never writes the CSV. | One instance, no users, upload accepted (`SetupLambda.EmptyDirectory`). The export reports failure, and so the Lambda's run and handler (`SetupLambda.RunSetupAsWritten`, `SetupLambda.LambdaHandler`) never write the CSV. | Import `io` as the user-extract Lambda does, so the CSV is written with put_object and the export succeeds (`SetupLambda.RunSetup` runs this export). | not executed | SetupLambda.ExportUsersAsWritten | SetupLambda.ExportUsers |
