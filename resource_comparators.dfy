/** The legacy comparator: one key per resource block, only the first instance compared,
    and a prefix dispatch over single-field checks. */
module ResourceComparators {
  import opened Text
  import opened Python
  import opened Differences

  // ---------------------------------------------------------------------------------
  // `compare_attributes` and the `_compare_*` helpers

  /** The legacy helpers, in dispatch order. */
  datatype Helper =
    | Ec2Helper | S3Helper | DynamodbHelper | LambdaHelper | IamRoleHelper | IamPolicyHelper
    | EventBusHelper | EventRuleHelper | EcsClusterHelper | EcsServiceHelper | VpcHelper
    | ApiGatewayHelper | DashboardHelper | AlarmHelper

  /** The field pair a helper checks: (reported attribute, state field, live field). */
  function HelperFields(h: Helper): (string, string, string) {
    match h
    case Ec2Helper => ("instance_type", "instance_type", "InstanceType")
    case S3Helper => ("bucket_name", "bucket", "Name")
    case DynamodbHelper => ("table_name", "name", "TableName")
    case LambdaHelper => ("function_name", "function_name", "FunctionName")
    case IamRoleHelper => ("role_name", "name", "RoleName")
    case IamPolicyHelper => ("policy_name", "name", "PolicyName")
    case EventBusHelper => ("bus_name", "name", "Name")
    case EventRuleHelper => ("rule_name", "name", "Name")
    case EcsClusterHelper => ("cluster_name", "name", "clusterName")
    case EcsServiceHelper => ("service_name", "name", "serviceName")
    case VpcHelper => ("vpc_id", "id", "VpcId")
    case ApiGatewayHelper => ("api_name", "name", "name")
    case DashboardHelper => ("dashboard_name", "dashboard_name", "DashboardName")
    case AlarmHelper => ("alarm_name", "alarm_name", "AlarmName")
  }

  /** A `_compare_*` helper: one raw `!=` on its field pair, reported with `str()` values. */
  function CompareWith(h: Helper, state: Bag, live: Bag): (r: seq<Difference>)
    ensures var (attribute, stateField, liveField) := HelperFields(h);
      (r == [] <==> GetV(state, stateField) == GetV(live, liveField)) &&
      (r != [] ==> r == [AttributeDiff(attribute, StrOf(GetV(state, stateField)), StrOf(GetV(live, liveField)))])
  {
    var (attribute, stateField, liveField) := HelperFields(h);
    RunChecks([Compared(attribute, GetV(state, stateField), GetV(live, liveField))])
  }

  /** The helper the legacy chain picks, if any. */
  function HelperOf(t: string): Option<Helper> {
    if StartsWith(t, "aws_instance") then Some(Ec2Helper)
    else if StartsWith(t, "aws_s3_bucket") then Some(S3Helper)
    else if StartsWith(t, "aws_dynamodb_table") then Some(DynamodbHelper)
    else if StartsWith(t, "aws_lambda_function") then Some(LambdaHelper)
    else if StartsWith(t, "aws_iam_role") then Some(IamRoleHelper)
    else if StartsWith(t, "aws_iam_policy") then Some(IamPolicyHelper)
    else if StartsWith(t, "aws_cloudwatch_event_bus") then Some(EventBusHelper)
    else if StartsWith(t, "aws_cloudwatch_event_rule") then Some(EventRuleHelper)
    else if StartsWith(t, "aws_ecs_cluster") then Some(EcsClusterHelper)
    else if StartsWith(t, "aws_ecs_service") then Some(EcsServiceHelper)
    else if StartsWith(t, "aws_vpc") then Some(VpcHelper)
    else if StartsWith(t, "aws_api_gateway_rest_api") then Some(ApiGatewayHelper)
    else if StartsWith(t, "aws_cloudwatch_dashboard") then Some(DashboardHelper)
    else if StartsWith(t, "aws_cloudwatch_metric_alarm") then Some(AlarmHelper)
    else None
  }

  /** The legacy `compare_attributes`: the chosen helper's list, or nothing. */
  function CompareAttributes(state: Bag, live: Bag, t: string): (r: seq<Difference>)
    ensures |r| <= 1
    ensures HelperOf(t).None? ==> r == []
  {
    match HelperOf(t)
    case None => []
    case Some(h) => CompareWith(h, state, live)
  }

  lemma HelperOfRolePolicy(t: string)
    requires StartsWith(t, "aws_iam_role_policy")
    ensures HelperOf(t) == Some(IamRoleHelper)
  {
    DiffersAt(t, "aws_iam_role_policy", "aws_instance", 5);
    DiffersAt(t, "aws_iam_role_policy", "aws_s3_bucket", 4);
    DiffersAt(t, "aws_iam_role_policy", "aws_dynamodb_table", 4);
    DiffersAt(t, "aws_iam_role_policy", "aws_lambda_function", 4);
    assert StartsWith("aws_iam_role_policy", "aws_iam_role");
    PrefixOfPrefix(t, "aws_iam_role_policy", "aws_iam_role");
  }

  /** With no role-policy branch, an inline role policy reaches the role helper: its
      `name` is compared with a live `RoleName`. */
  lemma InlineRolePoliciesReachTheRoleHelper(state: Bag, live: Bag, t: string)
    requires StartsWith(t, "aws_iam_role_policy")
    ensures CompareAttributes(state, live, t) == [] <==> GetV(state, "name") == GetV(live, "RoleName")
    ensures CompareAttributes(state, live, t) != [] ==>
      CompareAttributes(state, live, t) == [AttributeDiff("role_name", StrOf(GetV(state, "name")), StrOf(GetV(live, "RoleName")))]
  {
    HelperOfRolePolicy(t);
  }

  /** A type outside the `aws_` namespace has no differences. */
  lemma UnknownTypesHaveNoDifferences(state: Bag, live: Bag, t: string)
    requires !StartsWith(t, "aws_")
    ensures CompareAttributes(state, live, t) == []
  {
    NotAws(t, "aws_instance");
    NotAws(t, "aws_s3_bucket");
    NotAws(t, "aws_dynamodb_table");
    NotAws(t, "aws_lambda_function");
    NotAws(t, "aws_iam_role");
    NotAws(t, "aws_iam_policy");
    NotAws(t, "aws_cloudwatch_event_bus");
    NotAws(t, "aws_cloudwatch_event_rule");
    NotAws(t, "aws_ecs_cluster");
    NotAws(t, "aws_ecs_service");
    NotAws(t, "aws_vpc");
    NotAws(t, "aws_api_gateway_rest_api");
    NotAws(t, "aws_cloudwatch_dashboard");
    NotAws(t, "aws_cloudwatch_metric_alarm");
  }

  // ---------------------------------------------------------------------------------
  // The legacy `compare_resources`

  /** A legacy record: `{"type": "missing"}` or `{"type": "attribute_drift", "details"}`. */
  datatype LegacyDrift =
    | Missing(resource: string)
    | AttributeDrift(resource: string, details: seq<Difference>)

  function Description(d: LegacyDrift): string {
    match d
    case Missing(k) => "Resource " + k + " exists in state but not in AWS"
    case AttributeDrift(k, _) => "Attribute drift detected for " + k
  }

  /** `f"{resource_type}.{resource_name}"` */
  function BlockKey(resource: Resource): string {
    resource.rtype + "." + resource.name
  }

  /** `resource.get("instances", [{}])[0].get("attributes", {})`: a block without
      `instances` reads as empty attributes, an empty list raises. */
  function FirstAttributes(resource: Resource): (r: Result<Bag>)
    ensures r.Err? <==> resource.instances == Some([])
    ensures resource.instances.None? ==> r.Ok? && r.value == []
    ensures resource.instances.Some? && resource.instances.value != [] ==> r == Ok(resource.instances.value[0])
  {
    match resource.instances
    case None => var empty: Bag := []; Ok(empty)
    case Some(instances) =>
      if instances == [] then Err(IndexError("list index out of range")) else Ok(instances[0])
  }

  /** The records of one block: one missing record when the block key is absent from the
      live map, else an attribute-drift record exactly when the first instance differs. */
  function BlockDrifts(resource: Resource, live: Dict<Bag>): (r: Result<seq<LegacyDrift>>)
    ensures r.Ok? ==> |r.value| <= 1
    ensures r.Ok? ==> forall d :: d in r.value ==> d.resource == BlockKey(resource)
    ensures r.Err? <==> Has(live, BlockKey(resource)) && resource.instances == Some([])
    ensures r.Ok? && r.value != [] ==> (r.value[0].Missing? <==> !Has(live, BlockKey(resource)))
  {
    match Get(live, BlockKey(resource))
    case None => Ok([Missing(BlockKey(resource))])
    case Some(liveAttributes) =>
      match FirstAttributes(resource)
      case Err(e) => Err(e)
      case Ok(state) =>
        var details := CompareAttributes(state, liveAttributes, resource.rtype);
        if details == [] then Ok([]) else Ok([AttributeDrift(BlockKey(resource), details)])
  }

  /** A block whose key is absent from the live map gives exactly one missing record,
      whatever its instances hold. */
  lemma LegacyMissingOneRecord(resource: Resource, live: Dict<Bag>)
    requires !Has(live, BlockKey(resource))
    ensures BlockDrifts(resource, live) == Ok([Missing(BlockKey(resource))])
    ensures Description(BlockDrifts(resource, live).value[0]) == "Resource " + BlockKey(resource) + " exists in state but not in AWS"
  {
  }

  /** A present block key gives one attribute-drift record exactly when `compare_attributes`
      reports something for the first instance, and the record carries that list. */
  lemma LegacyPresentDriftsIffDifferences(resource: Resource, live: Dict<Bag>, state: Bag, liveAttributes: Bag)
    requires Get(live, BlockKey(resource)) == Some(liveAttributes)
    requires FirstAttributes(resource) == Ok(state)
    ensures CompareAttributes(state, liveAttributes, resource.rtype) == [] ==> BlockDrifts(resource, live) == Ok([])
    ensures CompareAttributes(state, liveAttributes, resource.rtype) != [] ==>
      BlockDrifts(resource, live) == Ok([AttributeDrift(BlockKey(resource), CompareAttributes(state, liveAttributes, resource.rtype))])
  {
  }

  /** For a type with a helper, a present block drifts exactly when the helper's state
      field of the first instance differs (by `!=`) from its live field. */
  lemma LegacyDriftIffFieldDiffers(resource: Resource, live: Dict<Bag>, state: Bag, liveAttributes: Bag, h: Helper)
    requires Get(live, BlockKey(resource)) == Some(liveAttributes)
    requires FirstAttributes(resource) == Ok(state)
    requires HelperOf(resource.rtype) == Some(h)
    ensures var (_, stateField, liveField) := HelperFields(h);
      BlockDrifts(resource, live) == Ok([]) <==> GetV(state, stateField) == GetV(liveAttributes, liveField)
  {
    LegacyPresentDriftsIffDifferences(resource, live, state, liveAttributes);
  }

  /** The records of the first `count` blocks. */
  function LegacyDrifts(resources: seq<Resource>, live: Dict<Bag>, count: nat): Result<seq<LegacyDrift>>
    requires count <= |resources|
  {
    if count == 0 then Ok([])
    else match LegacyDrifts(resources, live, count - 1)
    case Err(e) => Err(e)
    case Ok(ds) =>
      match BlockDrifts(resources[count - 1], live)
      case Err(e) => Err(e)
      case Ok(more) => Ok(ds + more)
  }

  lemma {:induction false} LegacyErrorPersists(resources: seq<Resource>, live: Dict<Bag>, k: nat, n: nat)
    requires k <= n <= |resources|
    requires LegacyDrifts(resources, live, k).Err?
    ensures LegacyDrifts(resources, live, n) == LegacyDrifts(resources, live, k)
    decreases n
  {
    if n > k {
      LegacyErrorPersists(resources, live, k, n - 1);
    }
  }

  /** The legacy `compare_resources` without its account stamp: the blocks in state order. */
  method CompareResources(resources: seq<Resource>, live: Dict<Bag>) returns (r: Result<seq<LegacyDrift>>)
    ensures r == LegacyDrifts(resources, live, |resources|)
  {
    var drifts: seq<LegacyDrift> := [];
    var i := 0;
    while i < |resources|
      invariant 0 <= i <= |resources|
      invariant LegacyDrifts(resources, live, i) == Ok(drifts)
    {
      var block := BlockDrifts(resources[i], live);
      if block.Err? {
        LegacyErrorPersists(resources, live, i + 1, |resources|);
        return Err(block.error);
      }
      drifts := drifts + block.value;
      i := i + 1;
    }
    return Ok(drifts);
  }

  /** One missing record for each of the first `count` blocks, in state order. */
  function AllMissing(resources: seq<Resource>, count: nat): (r: seq<LegacyDrift>)
    requires count <= |resources|
    ensures |r| == count
    ensures forall i :: 0 <= i < count ==> r[i] == Missing(BlockKey(resources[i]))
  {
    if count == 0 then [] else AllMissing(resources, count - 1) + [Missing(BlockKey(resources[count - 1]))]
  }

  /** Against an empty live map every block gives exactly one missing record, in state
      order. */
  lemma {:induction false} EmptyLiveAllMissing(resources: seq<Resource>, count: nat)
    requires count <= |resources|
    ensures LegacyDrifts(resources, [], count) == Ok(AllMissing(resources, count))
  {
    if count > 0 {
      EmptyLiveAllMissing(resources, count - 1);
      var empty: Dict<Bag> := [];
      assert !Has(empty, BlockKey(resources[count - 1]));
      LegacyMissingOneRecord(resources[count - 1], empty);
    }
  }

  /** Records follow state order: the records of the first `k` blocks begin those of the
      first `n`. */
  lemma {:induction false} RecordsFollowStateOrder(resources: seq<Resource>, live: Dict<Bag>, k: nat, n: nat)
    requires k <= n <= |resources|
    requires LegacyDrifts(resources, live, n).Ok?
    ensures LegacyDrifts(resources, live, k).Ok?
    ensures LegacyDrifts(resources, live, k).value <= LegacyDrifts(resources, live, n).value
    decreases n
  {
    if n > k {
      if LegacyDrifts(resources, live, n - 1).Err? {
        assert false;
      }
      RecordsFollowStateOrder(resources, live, k, n - 1);
    }
  }

  /** At most one record per block, and each record names a block of the state. */
  lemma {:induction false} RecordsNameTheirBlocks(resources: seq<Resource>, live: Dict<Bag>, n: nat)
    requires n <= |resources|
    requires LegacyDrifts(resources, live, n).Ok?
    ensures |LegacyDrifts(resources, live, n).value| <= n
    ensures forall d :: d in LegacyDrifts(resources, live, n).value ==> exists i :: 0 <= i < n && d.resource == BlockKey(resources[i])
  {
    if n > 0 {
      if LegacyDrifts(resources, live, n - 1).Err? {
        assert false;
      }
      RecordsNameTheirBlocks(resources, live, n - 1);
      var more := BlockDrifts(resources[n - 1], live).value;
      forall d | d in more ensures exists i :: 0 <= i < n && d.resource == BlockKey(resources[i]) {
        assert d.resource == BlockKey(resources[n - 1]);
      }
    }
  }
}
