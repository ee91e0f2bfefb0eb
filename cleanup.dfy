/** The teardown script (QDeveloper3PCleanup in
    cleanup_q_developer_3p_metrics.py): delete the two EventBridge rules,
    the two Lambda functions, the two IAM roles with their inline policies,
    the CloudTrail trail, then empty and delete the S3 bucket. Each delete
    that raises a "not found" code counts as already done; any other error
    is reported and the script moves on. */
module Cleanup {
  import opened Cloud
  import Setup

  const RuleNames: seq<string> := ["QDeveloper3PSetupSchedule", "IAMIdentityCenterUserExtractSchedule"]
  const FunctionNames: seq<string> := ["QDeveloper3PSetup", "IAMIdentityCenterUserExtract"]

  /** An IAM role and the inline policy it carries. */
  datatype RoleInfo = RoleInfo(roleName: string, policyName: string)

  const Roles: seq<RoleInfo> := [
    RoleInfo("lambda-q-developer-role", "QDeveloper3PPermissions"),
    RoleInfo("lambda-iam-identity-center-extract-role", "IAMIdentityCenterExtractPermissions")]

  // The error code that means "already deleted", per resource type.
  const ResourceNotFound := "ResourceNotFoundException"
  const NoSuchEntity := "NoSuchEntity"
  const TrailNotFound := "TrailNotFoundException"
  const BucketNotFound := "404"
  const NoSuchBucket := "NoSuchBucket"

  /** The trail the cleanup deletes. */
  function TrailName(bucket: string): string
  {
    "q-developer-3p-trail-" + bucket
  }

  /** The cleanup never deletes the trail the setup creates: the names
      differ for every bucket. */
  lemma CleanupMissesSetupTrail(bucket: string)
    ensures TrailName(bucket) != Setup.TrailName
  {
    assert TrailName(bucket)[0] == 'q' && Setup.TrailName[0] == 'Q';
  }

  // ---------------------------------------------------------------------------
  // The provider's answers
  // ---------------------------------------------------------------------------

  datatype Target = Target(id: string)

  /** An entry of list_object_versions' Versions or DeleteMarkers. */
  datatype ObjectVersion = ObjectVersion(key: string, versionId: string)

  /** One page of list_object_versions; absent lists are empty. */
  datatype VersionPage = VersionPage(versions: seq<ObjectVersion>, deleteMarkers: seq<ObjectVersion>)

  /** A paginated listing: the pages it delivers in order, and the error
      raised while fetching the page after them, if any. */
  datatype Listing<T> = Listing(pages: seq<T>, failure: Option<ClientError>)

  /** The provider's answers for one cleanup run. Per-name answers are
      functions of the name (each name is handled once); delete_objects'
      answer is a function of the batch. An object-listing page is the keys
      of its Contents (absent Contents is an empty page). */
  datatype Oracle = Oracle(
    listTargets: string -> Answer<seq<Target>>,
    removeTargets: string -> Outcome,
    deleteRule: string -> Outcome,
    deleteFunction: string -> Outcome,
    deleteRolePolicy: string -> Outcome,
    deleteRole: string -> Outcome,
    deleteTrail: Outcome,
    headBucket: Outcome,
    objects: Listing<seq<string>>,
    versions: Listing<VersionPage>,
    deleteObjects: seq<ObjectId> -> Outcome,
    deleteBucket: Outcome)

  // ---------------------------------------------------------------------------
  // Outcomes of one delete
  // ---------------------------------------------------------------------------

  /** What the attempt on one resource came to. */
  datatype Status = Deleted | AlreadyGone | Failed(error: ClientError)

  /** The status of a delete whose resource type reports absence with
      `notFound`. */
  function Settle(o: Outcome, notFound: string): (st: Status)
    ensures st == Deleted <==> o.Ok?
    ensures st == AlreadyGone <==> Raised(o, notFound)
    ensures st.Failed? <==> o.Err? && o.error.code != notFound
    ensures st.Failed? ==> st.error == o.error
  {
    match o
    case Ok => Deleted
    case Err(e) => if e.code == notFound then AlreadyGone else Failed(e)
  }

  /** The calls of a teardown and the status of each delete it reports. */
  datatype Teardown = Teardown(calls: seq<Call>, statuses: seq<Status>)

  function Then(a: Teardown, b: Teardown): Teardown
  {
    Teardown(a.calls + b.calls, a.statuses + b.statuses)
  }

  // ---------------------------------------------------------------------------
  // EventBridge rules
  // ---------------------------------------------------------------------------

  function TargetIds(targets: seq<Target>): (ids: seq<string>)
    ensures |ids| == |targets|
    ensures forall i :: 0 <= i < |targets| ==> ids[i] == targets[i].id
  {
    if targets == [] then [] else [targets[0].id] + TargetIds(targets[1..])
  }

  /** A call of the rule teardown. */
  predicate RuleCall(c: Call)
  {
    c.ListTargetsByRule? || c.RemoveTargets? || c.DeleteRule?
  }

  /** What the provider answered to one call of the rule teardown. */
  function RuleAnswer(c: Call, o: Oracle): Outcome
    requires RuleCall(c)
  {
    match c
    case ListTargetsByRule(rule) => if o.listTargets(rule).Error? then Err(o.listTargets(rule).error) else Ok
    case RemoveTargets(rule, _) => o.removeTargets(rule)
    case DeleteRule(rule) => o.deleteRule(rule)
  }

  /** The attempt on one rule: list its targets, remove them when there are
      any, then delete the rule; the first error ends the attempt and gives
      its status. */
  function RuleTeardown(rule: string, o: Oracle): Teardown
  {
    var listed := o.listTargets(rule);
    if listed.Error? then
      Teardown([ListTargetsByRule(rule)], [Settle(Err(listed.error), ResourceNotFound)])
    else if listed.value == [] then
      Teardown([ListTargetsByRule(rule), DeleteRule(rule)], [Settle(o.deleteRule(rule), ResourceNotFound)])
    else
      var remove := RemoveTargets(rule, TargetIds(listed.value));
      if o.removeTargets(rule).Err? then
        Teardown([ListTargetsByRule(rule), remove], [Settle(o.removeTargets(rule), ResourceNotFound)])
      else
        Teardown([ListTargetsByRule(rule), remove, DeleteRule(rule)], [Settle(o.deleteRule(rule), ResourceNotFound)])
  }

  /** One rule: the targets are listed first; remove_targets is called, with
      exactly the listed ids, only when the list is not empty; delete_rule
      follows unless an earlier call raised, and comes after the removal;
      the rule counts as deleted exactly when delete_rule returned. Every
      call but the last returned, and the last one is delete_rule or the
      call that raised: its answer, settled against
      ResourceNotFoundException, is the rule's status. */
  lemma RuleTeardownSteps(rule: string, o: Oracle)
    ensures var t := RuleTeardown(rule, o);
      && |t.statuses| == 1
      && |t.calls| > 0 && t.calls[0] == ListTargetsByRule(rule)
      && (forall c <- t.calls :: RuleCall(c) && c.rule == rule)
      && (forall c <- t.calls :: c.RemoveTargets? ==> o.listTargets(rule).Got? && c.ids == TargetIds(o.listTargets(rule).value))
      && ((|t.calls| > 1 && t.calls[1].RemoveTargets?) <==> o.listTargets(rule).Got? && o.listTargets(rule).value != [])
      && (DeleteRule(rule) in t.calls
          <==> o.listTargets(rule).Got? && (o.listTargets(rule).value != [] ==> o.removeTargets(rule).Ok?))
      && (forall i, j :: 0 <= i < |t.calls| && 0 <= j < |t.calls| && t.calls[i].RemoveTargets? && t.calls[j].DeleteRule? ==> i < j)
      && (t.statuses[0] == Deleted <==> DeleteRule(rule) in t.calls && o.deleteRule(rule).Ok?)
      && (forall i :: 0 <= i < |t.calls| - 1 ==> RuleAnswer(t.calls[i], o).Ok?)
      && (t.calls[|t.calls| - 1].DeleteRule? || RuleAnswer(t.calls[|t.calls| - 1], o).Err?)
      && t.statuses[0] == Settle(RuleAnswer(t.calls[|t.calls| - 1], o), ResourceNotFound)
  {
  }

  /** The attempts on a list of rules, one after the other. */
  function RulesTeardown(rules: seq<string>, o: Oracle): (t: Teardown)
    ensures |t.statuses| == |rules|
  {
    if rules == [] then Teardown([], [])
    else Then(RulesTeardown(rules[..|rules| - 1], o), RuleTeardown(rules[|rules| - 1], o))
  }

  /** An error on one rule never stops the loop: every rule is attempted,
      and each status is that rule's own; the loop makes only rule calls, on
      the listed rules. */
  lemma {:induction false} EveryRuleAttempted(rules: seq<string>, o: Oracle)
    ensures var t := RulesTeardown(rules, o);
      && (forall k :: 0 <= k < |rules| ==> t.statuses[k] == RuleTeardown(rules[k], o).statuses[0])
      && (forall k :: 0 <= k < |rules| ==> ListTargetsByRule(rules[k]) in t.calls)
      && (forall c <- t.calls :: RuleCall(c) && c.rule in rules)
  {
    if rules != [] {
      var init := rules[..|rules| - 1];
      var rule := rules[|rules| - 1];
      EveryRuleAttempted(init, o);
      RuleTeardownSteps(rule, o);
      var a := RulesTeardown(init, o);
      var b := RuleTeardown(rule, o);
      var t := RulesTeardown(rules, o);
      assert t == Then(a, b);
      forall k | 0 <= k < |rules|
        ensures t.statuses[k] == RuleTeardown(rules[k], o).statuses[0]
        ensures ListTargetsByRule(rules[k]) in t.calls
      {
        if k < |init| {
          assert rules[k] == init[k];
          assert t.statuses[k] == a.statuses[k];
        } else {
          assert t.statuses[k] == b.statuses[0];
          assert b.calls[0] in t.calls;
        }
      }
      forall c <- t.calls
        ensures RuleCall(c) && c.rule in rules
      {
        if c in a.calls {
          assert c.rule in init;
        }
      }
    }
  }

  /** Across the whole rule loop, each rule's targets are removed before
      that rule is deleted (rule names are distinct). */
  lemma {:induction false} TargetsRemovedBeforeRule(rules: seq<string>, o: Oracle)
    requires forall i, j :: 0 <= i < j < |rules| ==> rules[i] != rules[j]
    ensures var calls := RulesTeardown(rules, o).calls;
      forall i, j :: 0 <= i < |calls| && 0 <= j < |calls| && calls[i].RemoveTargets? && calls[j] == DeleteRule(calls[i].rule)
        ==> i < j
  {
    if rules != [] {
      var init := rules[..|rules| - 1];
      var rule := rules[|rules| - 1];
      TargetsRemovedBeforeRule(init, o);
      EveryRuleAttempted(init, o);
      RuleTeardownSteps(rule, o);
      var a := RulesTeardown(init, o).calls;
      var b := RuleTeardown(rule, o).calls;
      var calls := RulesTeardown(rules, o).calls;
      assert calls == a + b;
      forall k | 0 <= k < |init|
        ensures init[k] != rule
      {
        assert init[k] == rules[k];
      }
      forall j | 0 <= j < |a|
        ensures calls[j] != DeleteRule(rule)
      {
        assert calls[j] == a[j] && a[j] in a;
      }
      forall i, j | 0 <= i < |calls| && 0 <= j < |calls| && calls[i].RemoveTargets? && calls[j] == DeleteRule(calls[i].rule)
        ensures i < j
      {
        if i >= |a| {
          assert calls[i] == b[i - |a|];
          assert j >= |a|;
          assert calls[j] == b[j - |a|];
        }
      }
    }
  }

  /** delete_eventbridge_rules: the loop over the fixed rule names. */
  method DeleteEventBridgeRules(o: Oracle) returns (t: Teardown)
    ensures t == RulesTeardown(RuleNames, o)
  {
    t := Teardown([], []);
    for i := 0 to |RuleNames|
      invariant t == RulesTeardown(RuleNames[..i], o)
    {
      var rule := RuleNames[i];
      var calls := [ListTargetsByRule(rule)];
      var status: Status;
      var listed := o.listTargets(rule);
      if listed.Error? {
        status := Settle(Err(listed.error), ResourceNotFound);
      } else {
        var removeError: Option<ClientError> := None;
        if listed.value != [] {
          calls := calls + [RemoveTargets(rule, TargetIds(listed.value))];
          if o.removeTargets(rule).Err? {
            removeError := Some(o.removeTargets(rule).error);
          }
        }
        if removeError.Some? {
          status := Settle(Err(removeError.value), ResourceNotFound);
        } else {
          calls := calls + [DeleteRule(rule)];
          status := Settle(o.deleteRule(rule), ResourceNotFound);
        }
      }
      assert Teardown(calls, [status]) == RuleTeardown(rule, o);
      assert RuleNames[..i + 1][..i] == RuleNames[..i];
      t := Then(t, Teardown(calls, [status]));
    }
    assert RuleNames[..|RuleNames|] == RuleNames;
  }

  // ---------------------------------------------------------------------------
  // Lambda functions
  // ---------------------------------------------------------------------------

  /** One delete_function per name, in order, each settled on its own. */
  function FunctionsTeardown(names: seq<string>, o: Oracle): (t: Teardown)
    ensures |t.calls| == |names| && |t.statuses| == |names|
    ensures forall k :: 0 <= k < |names| ==>
      t.calls[k] == DeleteFunction(names[k]) && t.statuses[k] == Settle(o.deleteFunction(names[k]), ResourceNotFound)
  {
    if names == [] then Teardown([], [])
    else
      var name := names[|names| - 1];
      Then(FunctionsTeardown(names[..|names| - 1], o),
           Teardown([DeleteFunction(name)], [Settle(o.deleteFunction(name), ResourceNotFound)]))
  }

  /** delete_lambda_functions: the loop over the fixed function names. */
  method DeleteLambdaFunctions(o: Oracle) returns (t: Teardown)
    ensures t == FunctionsTeardown(FunctionNames, o)
  {
    t := Teardown([], []);
    for i := 0 to |FunctionNames|
      invariant t == FunctionsTeardown(FunctionNames[..i], o)
    {
      var name := FunctionNames[i];
      var status := Settle(o.deleteFunction(name), ResourceNotFound);
      assert FunctionNames[..i + 1][..i] == FunctionNames[..i];
      t := Then(t, Teardown([DeleteFunction(name)], [status]));
    }
    assert FunctionNames[..|FunctionNames|] == FunctionNames;
  }

  // ---------------------------------------------------------------------------
  // IAM roles
  // ---------------------------------------------------------------------------

  /** Per role, the inline policy delete then the role delete. */
  function RolesTeardown(roles: seq<RoleInfo>, o: Oracle): (t: Teardown)
    ensures |t.calls| == 2 * |roles| && |t.statuses| == 2 * |roles|
  {
    if roles == [] then Teardown([], [])
    else
      var role := roles[|roles| - 1];
      Then(RolesTeardown(roles[..|roles| - 1], o),
           Teardown([DeleteRolePolicy(role.roleName, role.policyName), DeleteRole(role.roleName)],
                    [Settle(o.deleteRolePolicy(role.roleName), NoSuchEntity), Settle(o.deleteRole(role.roleName), NoSuchEntity)]))
  }

  /** Both deletes are attempted for every role, whatever the other calls
      answer: the policy delete first, then the role delete; each is settled
      with NoSuchEntity on its own (a missing policy is passed over
      silently, and the role is still deleted). */
  lemma EveryRoleAttempted(roles: seq<RoleInfo>, o: Oracle)
    ensures var t := RolesTeardown(roles, o);
      forall k :: 0 <= k < |roles| ==>
        && t.calls[2 * k] == DeleteRolePolicy(roles[k].roleName, roles[k].policyName)
        && t.calls[2 * k + 1] == DeleteRole(roles[k].roleName)
        && t.statuses[2 * k] == Settle(o.deleteRolePolicy(roles[k].roleName), NoSuchEntity)
        && t.statuses[2 * k + 1] == Settle(o.deleteRole(roles[k].roleName), NoSuchEntity)
  {
    forall k | 0 <= k < |roles| {
      RoleAttempted(roles, o, k);
    }
  }

  lemma {:induction false} RoleAttempted(roles: seq<RoleInfo>, o: Oracle, k: nat)
    requires k < |roles|
    ensures var t := RolesTeardown(roles, o);
      && t.calls[2 * k] == DeleteRolePolicy(roles[k].roleName, roles[k].policyName)
      && t.calls[2 * k + 1] == DeleteRole(roles[k].roleName)
      && t.statuses[2 * k] == Settle(o.deleteRolePolicy(roles[k].roleName), NoSuchEntity)
      && t.statuses[2 * k + 1] == Settle(o.deleteRole(roles[k].roleName), NoSuchEntity)
  {
    var init := roles[..|roles| - 1];
    var a := RolesTeardown(init, o);
    if k < |init| {
      RoleAttempted(init, o, k);
      assert roles[k] == init[k];
    }
  }

  /** delete_iam_roles_and_policies: the loop over the fixed roles. */
  method DeleteIamRolesAndPolicies(o: Oracle) returns (t: Teardown)
    ensures t == RolesTeardown(Roles, o)
  {
    t := Teardown([], []);
    for i := 0 to |Roles|
      invariant t == RolesTeardown(Roles[..i], o)
    {
      var role := Roles[i];
      var policyStatus := Settle(o.deleteRolePolicy(role.roleName), NoSuchEntity);
      var roleStatus := Settle(o.deleteRole(role.roleName), NoSuchEntity);
      assert Roles[..i + 1][..i] == Roles[..i];
      t := Then(t, Teardown([DeleteRolePolicy(role.roleName, role.policyName), DeleteRole(role.roleName)],
                            [policyStatus, roleStatus]));
    }
    assert Roles[..|Roles|] == Roles;
  }

  // ---------------------------------------------------------------------------
  // Trail and bucket deletes
  // ---------------------------------------------------------------------------

  /** delete_cloudtrail: one delete of the bucket's trail. */
  method DeleteCloudTrail(cfg: Config, o: Oracle) returns (t: Teardown)
    ensures t.calls == [DeleteTrail(TrailName(cfg.bucketName))]
    ensures t.statuses == [Settle(o.deleteTrail, TrailNotFound)]
  {
    t := Teardown([DeleteTrail(TrailName(cfg.bucketName))], [Settle(o.deleteTrail, TrailNotFound)]);
  }

  /** delete_s3_bucket: one delete of the bucket. */
  method DeleteS3Bucket(cfg: Config, o: Oracle) returns (t: Teardown)
    ensures t.calls == [DeleteBucket(cfg.bucketName)]
    ensures t.statuses == [Settle(o.deleteBucket, NoSuchBucket)]
  {
    t := Teardown([DeleteBucket(cfg.bucketName)], [Settle(o.deleteBucket, NoSuchBucket)]);
  }

  // ---------------------------------------------------------------------------
  // Emptying the bucket
  // ---------------------------------------------------------------------------

  /** The delete batch of one object-listing page: its keys, unversioned. */
  function KeyBatch(keys: seq<string>): (batch: seq<ObjectId>)
    ensures |batch| == |keys|
    ensures forall i :: 0 <= i < |keys| ==> batch[i] == ObjectId(keys[i], None)
  {
    if keys == [] then [] else [ObjectId(keys[0], None)] + KeyBatch(keys[1..])
  }

  function VersionIds(vs: seq<ObjectVersion>): (ids: seq<ObjectId>)
    ensures |ids| == |vs|
    ensures forall i :: 0 <= i < |vs| ==> ids[i] == ObjectId(vs[i].key, Some(vs[i].versionId))
  {
    if vs == [] then [] else [ObjectId(vs[0].key, Some(vs[0].versionId))] + VersionIds(vs[1..])
  }

  function KeyBatches(pages: seq<seq<string>>): (batches: seq<seq<ObjectId>>)
    ensures |batches| == |pages|
    ensures forall i :: 0 <= i < |pages| ==> batches[i] == KeyBatch(pages[i])
  {
    seq(|pages|, i requires 0 <= i < |pages| => KeyBatch(pages[i]))
  }

  /** The delete batch of one version page: its versions, then its delete
      markers. */
  function VersionBatch(p: VersionPage): seq<ObjectId>
  {
    VersionIds(p.versions) + VersionIds(p.deleteMarkers)
  }

  function VersionBatches(pages: seq<VersionPage>): (batches: seq<seq<ObjectId>>)
    ensures |batches| == |pages|
    ensures forall i :: 0 <= i < |pages| ==> batches[i] == VersionBatch(pages[i])
  {
    seq(|pages|, i requires 0 <= i < |pages| => VersionBatch(pages[i]))
  }

  /** Where one listing phase stands: its calls, the objects it deleted,
      and the error that ended it, if any. */
  datatype Phase = Phase(calls: seq<Call>, deleted: nat, error: Option<ClientError>)

  /** A listing phase over the batches its pages yield, in order: each page
      is one list call; its batch is sent when it is not empty and counted
      when the delete returns; the first delete that raises ends the
      phase. */
  function Drain(bucket: string, listCall: Call, batches: seq<seq<ObjectId>>, del: seq<ObjectId> -> Outcome): Phase
  {
    if batches == [] then Phase([], 0, None)
    else
      var batch := batches[|batches| - 1];
      Step(Drain(bucket, listCall, batches[..|batches| - 1], del), bucket, listCall, batch, del(batch))
  }

  /** One page of a listing phase, given the phase so far and what
      delete_objects answers for the page's batch. */
  function Step(prev: Phase, bucket: string, listCall: Call, batch: seq<ObjectId>, answer: Outcome): Phase
  {
    if prev.error.Some? then prev
    else if batch == [] then Phase(prev.calls + [listCall], prev.deleted, None)
    else if answer.Ok? then Phase(prev.calls + [listCall, DeleteObjects(bucket, batch)], prev.deleted + |batch|, None)
    else Phase(prev.calls + [listCall, DeleteObjects(bucket, batch)], prev.deleted, Some(answer.error))
  }

  /** Once a delete has raised, later pages change nothing. */
  lemma {:induction false} DrainStops(bucket: string, listCall: Call, batches: seq<seq<ObjectId>>, del: seq<ObjectId> -> Outcome, k: nat)
    requires k <= |batches|
    requires Drain(bucket, listCall, batches[..k], del).error.Some?
    ensures Drain(bucket, listCall, batches, del) == Drain(bucket, listCall, batches[..k], del)
    decreases |batches| - k
  {
    if k < |batches| {
      assert batches[..k + 1][..k] == batches[..k];
      DrainStops(bucket, listCall, batches, del, k + 1);
    } else {
      assert batches[..k] == batches;
    }
  }

  /** The objects acknowledged along a trace: the sizes of the
      delete_objects batches whose call returned. */
  function Acknowledged(calls: seq<Call>, del: seq<ObjectId> -> Outcome): nat
  {
    if calls == [] then 0
    else
      Acknowledged(calls[..|calls| - 1], del) + Ack(calls[|calls| - 1], del)
  }

  /** The objects one call acknowledges. */
  function Ack(c: Call, del: seq<ObjectId> -> Outcome): nat
  {
    if c.DeleteObjects? && del(c.objects).Ok? then |c.objects| else 0
  }

  lemma {:induction false} AcknowledgedAppend(a: seq<Call>, b: seq<Call>, del: seq<ObjectId> -> Outcome)
    ensures Acknowledged(a + b, del) == Acknowledged(a, del) + Acknowledged(b, del)
    decreases |b|
  {
    if b == [] {
      assert a + b == a;
    } else {
      assert (a + b)[..|a + b| - 1] == a + b[..|b| - 1];
      AcknowledgedAppend(a, b[..|b| - 1], del);
    }
  }

  /** The delete_objects batches along a trace, in order. */
  function SentBatches(calls: seq<Call>): seq<seq<ObjectId>>
  {
    if calls == [] then []
    else
      var c := calls[|calls| - 1];
      SentBatches(calls[..|calls| - 1]) + if c.DeleteObjects? then [c.objects] else []
  }

  /** The non-empty batches, in order. */
  function NonEmpty(batches: seq<seq<ObjectId>>): seq<seq<ObjectId>>
  {
    if batches == [] then []
    else
      var b := batches[|batches| - 1];
      NonEmpty(batches[..|batches| - 1]) + if b != [] then [b] else []
  }

  /** A phase's calls are its list call and non-empty deletes on the
      bucket. */
  lemma {:induction false} DrainCalls(bucket: string, listCall: Call, batches: seq<seq<ObjectId>>, del: seq<ObjectId> -> Outcome)
    ensures forall c <- Drain(bucket, listCall, batches, del).calls ::
      c == listCall || (c.DeleteObjects? && c.bucket == bucket && c.objects != [])
  {
    if batches != [] {
      DrainCalls(bucket, listCall, batches[..|batches| - 1], del);
    }
  }

  /** The phase's counter is the number of objects acknowledged along its
      calls. */
  lemma {:induction false} DrainCounts(bucket: string, listCall: Call, batches: seq<seq<ObjectId>>, del: seq<ObjectId> -> Outcome)
    requires !listCall.DeleteObjects?
    ensures Drain(bucket, listCall, batches, del).deleted == Acknowledged(Drain(bucket, listCall, batches, del).calls, del)
  {
    if batches == [] {
      assert Drain(bucket, listCall, batches, del) == Phase([], 0, None);
    } else {
      var init := batches[..|batches| - 1];
      var batch := batches[|batches| - 1];
      DrainCounts(bucket, listCall, init, del);
      StepCounts(Drain(bucket, listCall, init, del), bucket, listCall, batch, del);
    }
  }

  /** One page keeps the counter equal to the objects acknowledged. */
  lemma StepCounts(prev: Phase, bucket: string, listCall: Call, batch: seq<ObjectId>, del: seq<ObjectId> -> Outcome)
    requires !listCall.DeleteObjects?
    requires prev.deleted == Acknowledged(prev.calls, del)
    ensures var d := Step(prev, bucket, listCall, batch, del(batch));
      d.deleted == Acknowledged(d.calls, del)
  {
    if prev.error.None? {
      var listed := prev.calls + [listCall];
      AcknowledgedSnoc(prev.calls, listCall, del);
      if batch != [] {
        AcknowledgedSnoc(listed, DeleteObjects(bucket, batch), del);
        assert listed + [DeleteObjects(bucket, batch)] == prev.calls + [listCall, DeleteObjects(bucket, batch)];
      }
    }
  }

  lemma AcknowledgedSnoc(calls: seq<Call>, c: Call, del: seq<ObjectId> -> Outcome)
    ensures Acknowledged(calls + [c], del) == Acknowledged(calls, del) + Ack(c, del)
  {
    assert (calls + [c])[..|calls|] == calls;
  }

  /** A phase that ends without error has sent every non-empty batch once,
      in page order, and no empty one. */
  lemma {:induction false} DrainSendsEachBatch(bucket: string, listCall: Call, batches: seq<seq<ObjectId>>, del: seq<ObjectId> -> Outcome)
    requires !listCall.DeleteObjects?
    ensures Drain(bucket, listCall, batches, del).error.None?
        ==> SentBatches(Drain(bucket, listCall, batches, del).calls) == NonEmpty(batches)
  {
    if batches != [] {
      var init := batches[..|batches| - 1];
      var batch := batches[|batches| - 1];
      var prev := Drain(bucket, listCall, init, del);
      var d := Drain(bucket, listCall, batches, del);
      DrainSendsEachBatch(bucket, listCall, init, del);
      if prev.error.None? {
        var listed := prev.calls + [listCall];
        assert listed[..|listed| - 1] == prev.calls;
        if batch == [] {
          assert d.calls == listed;
        } else if del(batch).Ok? {
          var sent := listed + [DeleteObjects(bucket, batch)];
          assert sent[..|sent| - 1] == listed;
          assert d.calls == sent;
        }
      }
    }
  }

  /** How emptying the bucket ends. */
  datatype EmptyReport = Emptied(objectsDeleted: nat) | BucketAbsent | EmptyFailed(error: ClientError)

  /** An error escaping to empty_s3_bucket's handler: "404" means the bucket
      is gone, anything else is reported. */
  function EmptyError(e: ClientError): (r: EmptyReport)
    ensures r == BucketAbsent <==> e.code == BucketNotFound
    ensures r.EmptyFailed? ==> r.error == e
    ensures !r.Emptied?
  {
    if e.code == BucketNotFound then BucketAbsent else EmptyFailed(e)
  }

  datatype Emptying = Emptying(calls: seq<Call>, report: EmptyReport)

  /** empty_s3_bucket: probe the bucket, delete the current objects page by
      page (an error ends the step), then the versions and delete markers
      page by page (an error ends only that phase). */
  function EmptyBucket(bucket: string, o: Oracle): (e: Emptying)
    ensures Raised(o.headBucket, BucketNotFound) ==> e == Emptying([HeadBucket(bucket)], BucketAbsent)
    ensures |e.calls| > 0 && e.calls[0] == HeadBucket(bucket)
  {
    if o.headBucket.Err? then Emptying([HeadBucket(bucket)], EmptyError(o.headBucket.error))
    else
      var current := Drain(bucket, ListObjectsV2(bucket), KeyBatches(o.objects.pages), o.deleteObjects);
      if current.error.Some? then
        Emptying([HeadBucket(bucket)] + current.calls, EmptyError(current.error.value))
      else if o.objects.failure.Some? then
        Emptying([HeadBucket(bucket)] + current.calls + [ListObjectsV2(bucket)], EmptyError(o.objects.failure.value))
      else
        var versions := Drain(bucket, ListObjectVersions(bucket), VersionBatches(o.versions.pages), o.deleteObjects);
        var failedPage := if versions.error.None? && o.versions.failure.Some? then [ListObjectVersions(bucket)] else [];
        Emptying([HeadBucket(bucket)] + current.calls + versions.calls + failedPage,
                 Emptied(current.deleted + versions.deleted))
  }

  /** A step of emptying: the probe, a listing or a delete. */
  predicate EmptyingCall(c: Call, bucket: string)
  {
    c == HeadBucket(bucket) || c == ListObjectsV2(bucket) || c == ListObjectVersions(bucket)
    || (c.DeleteObjects? && c.bucket == bucket && c.objects != [])
  }

  /** The reported count is the number of objects acknowledged along the
      calls: the script's counter never counts a batch whose delete
      raised. */
  lemma EmptyBucketCounts(bucket: string, o: Oracle)
    ensures var e := EmptyBucket(bucket, o);
      e.report.Emptied? ==> e.report.objectsDeleted == Acknowledged(e.calls, o.deleteObjects)
  {
    var current := Drain(bucket, ListObjectsV2(bucket), KeyBatches(o.objects.pages), o.deleteObjects);
    if o.headBucket.Ok? && current.error.None? && o.objects.failure.None? {
      var versions := Drain(bucket, ListObjectVersions(bucket), VersionBatches(o.versions.pages), o.deleteObjects);
      DrainCounts(bucket, ListObjectsV2(bucket), KeyBatches(o.objects.pages), o.deleteObjects);
      DrainCounts(bucket, ListObjectVersions(bucket), VersionBatches(o.versions.pages), o.deleteObjects);
      var failedPage := if versions.error.None? && o.versions.failure.Some? then [ListObjectVersions(bucket)] else [];
      var e := EmptyBucket(bucket, o);
      assert e.calls == [HeadBucket(bucket)] + current.calls + versions.calls + failedPage;
      assert e.report.objectsDeleted == current.deleted + versions.deleted;
      AcknowledgedSnoc([], HeadBucket(bucket), o.deleteObjects);
      assert [] + [HeadBucket(bucket)] == [HeadBucket(bucket)];
      AcknowledgedAppend([HeadBucket(bucket)], current.calls, o.deleteObjects);
      AcknowledgedAppend([HeadBucket(bucket)] + current.calls, versions.calls, o.deleteObjects);
      AcknowledgedAppend([HeadBucket(bucket)] + current.calls + versions.calls, failedPage, o.deleteObjects);
      if failedPage != [] {
        AcknowledgedSnoc([], ListObjectVersions(bucket), o.deleteObjects);
        assert [] + [ListObjectVersions(bucket)] == failedPage;
      }
    }
  }

  /** Emptying makes only the probe, listings of the bucket and non-empty
      deletes on it. */
  lemma EmptyBucketCalls(bucket: string, o: Oracle)
    ensures forall c <- EmptyBucket(bucket, o).calls :: EmptyingCall(c, bucket)
  {
    DrainCalls(bucket, ListObjectsV2(bucket), KeyBatches(o.objects.pages), o.deleteObjects);
    DrainCalls(bucket, ListObjectVersions(bucket), VersionBatches(o.versions.pages), o.deleteObjects);
  }

  /** Version-phase errors never reach the report: once the bucket answers
      and the current objects are all deleted, emptying reports success with
      the current phase's count plus whatever the version phase deleted, and
      every non-empty page of current objects was sent once, in order. */
  lemma VersionErrorsSwallowed(bucket: string, o: Oracle)
    requires o.headBucket.Ok? && o.objects.failure.None?
    requires Drain(bucket, ListObjectsV2(bucket), KeyBatches(o.objects.pages), o.deleteObjects).error.None?
    ensures var current := Drain(bucket, ListObjectsV2(bucket), KeyBatches(o.objects.pages), o.deleteObjects);
      && EmptyBucket(bucket, o).report.Emptied?
      && EmptyBucket(bucket, o).report.objectsDeleted >= current.deleted
      && SentBatches(current.calls) == NonEmpty(KeyBatches(o.objects.pages))
  {
    DrainSendsEachBatch(bucket, ListObjectsV2(bucket), KeyBatches(o.objects.pages), o.deleteObjects);
  }

  /** The current-objects loop of empty_s3_bucket: one page at a time, each
      non-empty page deleted as one batch and counted when the delete
      returns; the first delete that raises ends the loop. */
  method DeleteCurrentObjects(bucket: string, pages: seq<seq<string>>, del: seq<ObjectId> -> Outcome) returns (p: Phase)
    ensures p == Drain(bucket, ListObjectsV2(bucket), KeyBatches(pages), del)
  {
    ghost var batches := KeyBatches(pages);
    var calls: seq<Call> := [];
    var objectsDeleted: nat := 0;
    for k := 0 to |pages|
      invariant Drain(bucket, ListObjectsV2(bucket), batches[..k], del) == Phase(calls, objectsDeleted, None)
    {
      assert batches[..k + 1][..k] == batches[..k];
      calls := calls + [ListObjectsV2(bucket)];
      var objectsToDelete := KeyBatch(pages[k]);
      if objectsToDelete != [] {
        calls := calls + [DeleteObjects(bucket, objectsToDelete)];
        var answer := del(objectsToDelete);
        if answer.Err? {
          DrainStops(bucket, ListObjectsV2(bucket), batches, del, k + 1);
          return Phase(calls, objectsDeleted, Some(answer.error));
        }
        objectsDeleted := objectsDeleted + |objectsToDelete|;
      }
    }
    assert batches[..|pages|] == batches;
    p := Phase(calls, objectsDeleted, None);
  }

  /** The version loop of empty_s3_bucket: each page's versions, then its
      delete markers, deleted as one batch; the first delete that raises
      ends the loop. */
  method DeleteVersions(bucket: string, pages: seq<VersionPage>, del: seq<ObjectId> -> Outcome) returns (p: Phase)
    ensures p == Drain(bucket, ListObjectVersions(bucket), VersionBatches(pages), del)
  {
    ghost var batches := VersionBatches(pages);
    var calls: seq<Call> := [];
    var objectsDeleted: nat := 0;
    for k := 0 to |pages|
      invariant Drain(bucket, ListObjectVersions(bucket), batches[..k], del) == Phase(calls, objectsDeleted, None)
    {
      assert batches[..k + 1][..k] == batches[..k];
      calls := calls + [ListObjectVersions(bucket)];
      var versionsToDelete := VersionIds(pages[k].versions) + VersionIds(pages[k].deleteMarkers);
      assert versionsToDelete == batches[k];
      if versionsToDelete != [] {
        calls := calls + [DeleteObjects(bucket, versionsToDelete)];
        var answer := del(versionsToDelete);
        if answer.Err? {
          DrainStops(bucket, ListObjectVersions(bucket), batches, del, k + 1);
          return Phase(calls, objectsDeleted, Some(answer.error));
        }
        objectsDeleted := objectsDeleted + |versionsToDelete|;
      }
    }
    assert batches[..|pages|] == batches;
    p := Phase(calls, objectsDeleted, None);
  }

  /** empty_s3_bucket as the script runs it: the probe, the current-objects
      loop (an error escapes to the outer handler), then the version loop
      (an error is caught and ends only that loop); objects_deleted is the
      sum of the two loops' counts. */
  method EmptyS3Bucket(cfg: Config, o: Oracle) returns (e: Emptying)
    ensures e == EmptyBucket(cfg.bucketName, o)
  {
    var bucket := cfg.bucketName;
    if o.headBucket.Err? {
      return Emptying([HeadBucket(bucket)], EmptyError(o.headBucket.error));
    }
    var current := DeleteCurrentObjects(bucket, o.objects.pages, o.deleteObjects);
    if current.error.Some? {
      return Emptying([HeadBucket(bucket)] + current.calls, EmptyError(current.error.value));
    }
    if o.objects.failure.Some? {
      return Emptying([HeadBucket(bucket)] + current.calls + [ListObjectsV2(bucket)], EmptyError(o.objects.failure.value));
    }
    var versions := DeleteVersions(bucket, o.versions.pages, o.deleteObjects);
    var versionCalls := versions.calls;
    if versions.error.None? && o.versions.failure.Some? {
      versionCalls := versionCalls + [ListObjectVersions(bucket)];
    }
    e := Emptying([HeadBucket(bucket)] + current.calls + versionCalls, Emptied(current.deleted + versions.deleted));
  }

  // ---------------------------------------------------------------------------
  // The whole cleanup
  // ---------------------------------------------------------------------------

  /** What each step of run_cleanup ended with. */
  datatype CleanupReport = CleanupReport(
    rules: seq<Status>,
    functions: seq<Status>,
    roles: seq<Status>,
    trail: Status,
    emptying: EmptyReport,
    bucket: Status)

  datatype Cleanup = Cleanup(calls: seq<Call>, report: CleanupReport)

  /** run_cleanup: the six steps in order, each one run whatever the
      earlier ones ended with. */
  function CleanupOf(bucket: string, o: Oracle): Cleanup
  {
    var rules := RulesTeardown(RuleNames, o);
    var functions := FunctionsTeardown(FunctionNames, o);
    var roles := RolesTeardown(Roles, o);
    var emptying := EmptyBucket(bucket, o);
    Cleanup(
      rules.calls + functions.calls + roles.calls + [DeleteTrail(TrailName(bucket))] + emptying.calls + [DeleteBucket(bucket)],
      CleanupReport(rules.statuses, functions.statuses, roles.statuses,
                    Settle(o.deleteTrail, TrailNotFound), emptying.report, Settle(o.deleteBucket, NoSuchBucket)))
  }

  /** run_cleanup as the script runs it, one step method after another. */
  method RunCleanup(cfg: Config, o: Oracle) returns (c: Cleanup)
    ensures c == CleanupOf(cfg.bucketName, o)
  {
    var rules := DeleteEventBridgeRules(o);
    var functions := DeleteLambdaFunctions(o);
    var roles := DeleteIamRolesAndPolicies(o);
    var trail := DeleteCloudTrail(cfg, o);
    var emptying := EmptyS3Bucket(cfg, o);
    var bucket := DeleteS3Bucket(cfg, o);
    c := Cleanup(
      rules.calls + functions.calls + roles.calls + trail.calls + emptying.calls + bucket.calls,
      CleanupReport(rules.statuses, functions.statuses, roles.statuses, trail.statuses[0], emptying.report, bucket.statuses[0]));
  }

  /** The step a call belongs to: rules, functions, roles, trail, emptying,
      bucket. */
  function CleanupStage(c: Call): int
  {
    if RuleCall(c) then 0
    else if c.DeleteFunction? then 1
    else if c.DeleteRolePolicy? || c.DeleteRole? then 2
    else if c.DeleteTrail? then 3
    else if c.DeleteBucket? then 5
    else 4
  }

  predicate InCleanupOrder(trace: seq<Call>)
  {
    forall i, j :: 0 <= i < j < |trace| ==> CleanupStage(trace[i]) <= CleanupStage(trace[j])
  }

  /** Appending a block of step k to a trace of steps up to k keeps the
      steps in order. */
  lemma StageAppend(a: seq<Call>, b: seq<Call>, k: int)
    requires InCleanupOrder(a) && forall c <- a :: CleanupStage(c) <= k
    requires forall c <- b :: CleanupStage(c) == k
    ensures InCleanupOrder(a + b)
    ensures forall c <- a + b :: CleanupStage(c) <= k
  {
    forall i, j | 0 <= i < j < |a + b|
      ensures CleanupStage((a + b)[i]) <= CleanupStage((a + b)[j])
    {
      if j >= |a| {
        assert (a + b)[j] == b[j - |a|];
        if i < |a| {
          assert (a + b)[i] == a[i];
        } else {
          assert (a + b)[i] == b[i - |a|];
        }
      } else {
        assert (a + b)[i] == a[i] && (a + b)[j] == a[j];
      }
    }
  }

  /** The role step makes only role calls. */
  lemma {:induction false} RoleCallsOnly(roles: seq<RoleInfo>, o: Oracle)
    ensures forall c <- RolesTeardown(roles, o).calls :: c.DeleteRolePolicy? || c.DeleteRole?
  {
    if roles != [] {
      RoleCallsOnly(roles[..|roles| - 1], o);
    }
  }

  /** Six blocks, each of one step, in step order. */
  lemma BlocksInOrder(rules: seq<Call>, functions: seq<Call>, roles: seq<Call>, trail: seq<Call>, emptying: seq<Call>, bucket: seq<Call>)
    requires forall c <- rules :: CleanupStage(c) == 0
    requires forall c <- functions :: CleanupStage(c) == 1
    requires forall c <- roles :: CleanupStage(c) == 2
    requires forall c <- trail :: CleanupStage(c) == 3
    requires forall c <- emptying :: CleanupStage(c) == 4
    requires forall c <- bucket :: CleanupStage(c) == 5
    ensures InCleanupOrder(rules + functions + roles + trail + emptying + bucket)
  {
    StageAppend([], rules, 0);
    assert [] + rules == rules;
    StageAppend(rules, functions, 1);
    StageAppend(rules + functions, roles, 2);
    StageAppend(rules + functions + roles, trail, 3);
    StageAppend(rules + functions + roles + trail, emptying, 4);
    StageAppend(rules + functions + roles + trail + emptying, bucket, 5);
  }

  /** Each step's calls belong to that step. */
  lemma RuleStages(rules: seq<string>, o: Oracle)
    ensures forall c <- RulesTeardown(rules, o).calls :: CleanupStage(c) == 0
  {
    EveryRuleAttempted(rules, o);
  }

  lemma FunctionStages(functions: seq<string>, o: Oracle)
    ensures forall c <- FunctionsTeardown(functions, o).calls :: CleanupStage(c) == 1
  {
    var fs := FunctionsTeardown(functions, o).calls;
    forall c <- fs
      ensures CleanupStage(c) == 1
    {
      var k :| 0 <= k < |fs| && fs[k] == c;
    }
  }

  lemma RoleStages(roles: seq<RoleInfo>, o: Oracle)
    ensures forall c <- RolesTeardown(roles, o).calls :: CleanupStage(c) == 2
  {
    RoleCallsOnly(roles, o);
  }

  lemma EmptyingStages(bucket: string, o: Oracle)
    ensures forall c <- EmptyBucket(bucket, o).calls :: CleanupStage(c) == 4
  {
    EmptyBucketCalls(bucket, o);
  }

  /** The steps run in the script's order (EventBridge rules before the
      Lambda functions they target, the bucket emptied before it is
      deleted), and the bucket delete is the last call. */
  lemma CleanupInOrder(bucket: string, o: Oracle)
    ensures var calls := CleanupOf(bucket, o).calls;
      && InCleanupOrder(calls)
      && calls[|calls| - 1] == DeleteBucket(bucket)
  {
    RuleStages(RuleNames, o);
    FunctionStages(FunctionNames, o);
    RoleStages(Roles, o);
    EmptyingStages(bucket, o);
    BlocksInOrder(RulesTeardown(RuleNames, o).calls, FunctionsTeardown(FunctionNames, o).calls, RolesTeardown(Roles, o).calls,
                  [DeleteTrail(TrailName(bucket))], EmptyBucket(bucket, o).calls, [DeleteBucket(bucket)]);
  }

  /** The only trail the cleanup deletes is the one named after the
      bucket. */
  lemma CleanupDeletesOnlyItsTrail(bucket: string, o: Oracle)
    ensures forall c <- CleanupOf(bucket, o).calls :: c.DeleteTrail? ==> c == DeleteTrail(TrailName(bucket))
  {
    RuleStages(RuleNames, o);
    FunctionStages(FunctionNames, o);
    RoleStages(Roles, o);
    EmptyingStages(bucket, o);
  }

  /** Each rule's targets are listed, each function and each role (with its
      policy) is deleted. */
  lemma NamedResourcesAttempted(rules: seq<string>, functions: seq<string>, roles: seq<RoleInfo>, o: Oracle)
    ensures forall r <- rules :: ListTargetsByRule(r) in RulesTeardown(rules, o).calls
    ensures forall f <- functions :: DeleteFunction(f) in FunctionsTeardown(functions, o).calls
    ensures forall r <- roles :: DeleteRolePolicy(r.roleName, r.policyName) in RolesTeardown(roles, o).calls
    ensures forall r <- roles :: DeleteRole(r.roleName) in RolesTeardown(roles, o).calls
  {
    EveryRuleAttempted(rules, o);
    EveryRoleAttempted(roles, o);
    forall r <- rules
      ensures ListTargetsByRule(r) in RulesTeardown(rules, o).calls
    {
      var k :| 0 <= k < |rules| && rules[k] == r;
    }
    forall f <- functions
      ensures DeleteFunction(f) in FunctionsTeardown(functions, o).calls
    {
      var k :| 0 <= k < |functions| && functions[k] == f;
      assert FunctionsTeardown(functions, o).calls[k] == DeleteFunction(f);
    }
    var t := RolesTeardown(roles, o).calls;
    forall r <- roles
      ensures DeleteRolePolicy(r.roleName, r.policyName) in t && DeleteRole(r.roleName) in t
    {
      var k :| 0 <= k < |roles| && roles[k] == r;
      assert t[2 * k] == DeleteRolePolicy(r.roleName, r.policyName);
      assert t[2 * k + 1] == DeleteRole(r.roleName);
    }
  }

  /** Every step is attempted whatever the others answer: every rule,
      function and role is tried, the trail is deleted, the bucket is
      probed and then deleted; and the trail the setup created is never
      among the deletes. */
  lemma CleanupAttemptsEverything(bucket: string, o: Oracle)
    ensures var c := CleanupOf(bucket, o);
      && (forall r <- RuleNames :: ListTargetsByRule(r) in c.calls)
      && (forall f <- FunctionNames :: DeleteFunction(f) in c.calls)
      && (forall r <- Roles :: DeleteRolePolicy(r.roleName, r.policyName) in c.calls && DeleteRole(r.roleName) in c.calls)
      && DeleteTrail(TrailName(bucket)) in c.calls
      && HeadBucket(bucket) in c.calls
      && DeleteTrail(Setup.TrailName) !in c.calls
  {
    NamedResourcesAttempted(RuleNames, FunctionNames, Roles, o);
    assert EmptyBucket(bucket, o).calls[0] == HeadBucket(bucket);
    CleanupDeletesOnlyItsTrail(bucket, o);
    CleanupMissesSetupTrail(bucket);
  }

  // ---------------------------------------------------------------------------
  // The command line
  // ---------------------------------------------------------------------------

  /** ASCII lower-casing of one character. */
  function LowerChar(ch: char): char
  {
    if 'A' <= ch <= 'Z' then (ch as int + 32) as char else ch
  }

  function Lower(s: string): (r: string)
    ensures |r| == |s|
    ensures forall i :: 0 <= i < |s| ==> r[i] == LowerChar(s[i])
  {
    if s == [] then [] else [LowerChar(s[0])] + Lower(s[1..])
  }

  /** main goes ahead when --confirm was given or the answer typed at the
      prompt lower-cases to "yes". */
  predicate Proceeds(confirm: bool, answer: string)
  {
    confirm || Lower(answer) == "yes"
  }

  /** Without --confirm, exactly the three-letter answers spelling "yes" in
      any mix of cases let the cleanup run. */
  lemma ProceedsExactly(answer: string)
    ensures Proceeds(false, answer) <==>
      |answer| == 3 && answer[0] in "yY" && answer[1] in "eE" && answer[2] in "sS"
  {
    if |answer| == 3 && answer[0] in "yY" && answer[1] in "eE" && answer[2] in "sS" {
      assert Lower(answer) == "yes";
    }
    if Proceeds(false, answer) {
      var r := Lower(answer);
      assert r[0] == 'y' && r[1] == 'e' && r[2] == 's';
      assert LowerChar(answer[0]) == 'y' && LowerChar(answer[1]) == 'e' && LowerChar(answer[2]) == 's';
    }
  }

  /** main: without --confirm, ask; on any answer other than "yes" nothing
      is called, otherwise run the cleanup. The typed answer is a
      parameter; it is not read when confirm is set. */
  method CleanupCommand(cfg: Config, confirm: bool, answer: string, o: Oracle) returns (ran: bool, trace: seq<Call>)
    ensures ran <==> Proceeds(confirm, answer)
    ensures ran ==> trace == CleanupOf(cfg.bucketName, o).calls
    ensures !ran ==> trace == []
  {
    if !confirm {
      if Lower(answer) != "yes" {
        return false, [];
      }
    }
    var c := RunCleanup(cfg, o);
    ran, trace := true, c.calls;
  }
}
