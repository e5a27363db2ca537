/** The aggregating comparator. `compare_resources` walks the state in order, keys every
    instance as the fetchers do, and reports missing resources and attribute drift (SQS
    queue policies by canonical JSON); `compare_attributes` routes a state bag and a live
    bag to the service comparator of the resource type. */
module ComparatorsBase {
  import opened Text
  import opened Python
  import opened Json
  import opened Keys
  import opened Differences
  import FetchersBase
  import ApigatewayComparators
  import CloudwatchComparators
  import DynamodbComparators
  import Ec2Comparators
  import Ec2InstancesComparator
  import EcsComparators
  import EventsComparators
  import IamComparators
  import LambdaComparators
  import RdsComparators
  import S3Comparators
  import SqsComparators

  // ---------------------------------------------------------------------------------
  // `compare_attributes`: the first matching prefix picks the comparator

  /** The branches of the dispatch chain, in chain order. */
  datatype Comparator =
    | InstanceComparator | S3Comparator | DynamodbComparator | LambdaFunctionComparator
    | IamRolePolicyComparator | IamComparator | EventsComparator | LambdaPermissionComparator
    | EcsComparator | VpcComparator | RestApiComparator | CloudwatchComparator | RdsComparator
    | SqsComparator | NoComparator

  predicate IsIamGroup(t: string) {
    StartsWith(t, "aws_iam_role") || StartsWith(t, "aws_iam_policy") || StartsWith(t, "aws_iam_openid_connect_provider")
  }

  predicate IsEventsGroup(t: string) {
    StartsWith(t, "aws_cloudwatch_event_bus") || StartsWith(t, "aws_cloudwatch_event_rule") ||
    StartsWith(t, "aws_cloudwatch_event_target")
  }

  predicate IsEcsGroup(t: string) {
    StartsWith(t, "aws_ecs_cluster") || StartsWith(t, "aws_ecs_service")
  }

  predicate IsCloudwatchGroup(t: string) {
    StartsWith(t, "aws_cloudwatch_dashboard") || StartsWith(t, "aws_cloudwatch_metric_alarm")
  }

  /** The branch `compare_attributes` takes for a resource type. */
  function ComparatorOf(t: string): Comparator {
    if StartsWith(t, "aws_instance") then InstanceComparator
    else if StartsWith(t, "aws_s3_bucket") then S3Comparator
    else if StartsWith(t, "aws_dynamodb_table") then DynamodbComparator
    else if StartsWith(t, "aws_lambda_function") then LambdaFunctionComparator
    else if StartsWith(t, "aws_iam_role_policy") then IamRolePolicyComparator
    else if IsIamGroup(t) then IamComparator
    else if IsEventsGroup(t) then EventsComparator
    else if StartsWith(t, "aws_lambda_permission") then LambdaPermissionComparator
    else if IsEcsGroup(t) then EcsComparator
    else if StartsWith(t, "aws_vpc") then VpcComparator
    else if StartsWith(t, "aws_api_gateway_rest_api") then RestApiComparator
    else if IsCloudwatchGroup(t) then CloudwatchComparator
    else if StartsWith(t, "aws_db_instance") then RdsComparator
    else if StartsWith(t, "aws_sqs_queue") then SqsComparator
    else NoComparator
  }

  /** `compare_attributes(state, live, resource_type)`. Only the SQS comparator can raise;
      a type no prefix matches has no differences. */
  function CompareAttributes(loads: Loads, state: Bag, live: Bag, t: string): (r: Result<seq<Difference>>)
    ensures r.Err? ==> ComparatorOf(t) == SqsComparator
    ensures ComparatorOf(t) == NoComparator ==> r == Ok([])
  {
    match ComparatorOf(t)
    case InstanceComparator => Ok(Ec2Comparators.CompareEc2Attributes(state, live))
    case S3Comparator => Ok(S3Comparators.CompareS3Attributes(state, live))
    case DynamodbComparator => Ok(DynamodbComparators.CompareDynamodbAttributes(state, live))
    case LambdaFunctionComparator => Ok(LambdaComparators.CompareLambdaAttributes(state, live))
    case IamRolePolicyComparator => Ok(IamComparators.CompareIamAttributes(loads, state, live, t))
    case IamComparator => Ok(IamComparators.CompareIamAttributes(loads, state, live, t))
    case EventsComparator => Ok(EventsComparators.CompareEventsAttributes(state, live, t))
    case LambdaPermissionComparator => Ok(LambdaComparators.CompareLambdaAttributes(state, live, t))
    case EcsComparator => Ok(EcsComparators.CompareEcsAttributes(state, live, t))
    case VpcComparator => Ok(Ec2Comparators.CompareEc2Attributes(state, live))
    case RestApiComparator => Ok(ApigatewayComparators.CompareApigatewayAttributes(state, live))
    case CloudwatchComparator => Ok(CloudwatchComparators.CompareCloudwatchAttributes(state, live, t))
    case RdsComparator => Ok(RdsComparators.CompareRdsAttributes(state, live))
    case SqsComparator => SqsComparators.CompareSqsAttributes(state, live)
    case NoComparator => Ok([])
  }

  lemma ComparatorOfRolePolicy(t: string)
    requires StartsWith(t, "aws_iam_role_policy")
    ensures ComparatorOf(t) == IamRolePolicyComparator
  {
    DiffersAt(t, "aws_iam_role_policy", "aws_instance", 5);
    DiffersAt(t, "aws_iam_role_policy", "aws_s3_bucket", 4);
    DiffersAt(t, "aws_iam_role_policy", "aws_dynamodb_table", 4);
    DiffersAt(t, "aws_iam_role_policy", "aws_lambda_function", 4);
  }

  lemma ComparatorOfVpc(t: string)
    requires StartsWith(t, "aws_vpc")
    ensures ComparatorOf(t) == VpcComparator
  {
    DiffersAt(t, "aws_vpc", "aws_instance", 4);
    DiffersAt(t, "aws_vpc", "aws_s3_bucket", 4);
    DiffersAt(t, "aws_vpc", "aws_dynamodb_table", 4);
    DiffersAt(t, "aws_vpc", "aws_lambda_function", 4);
    DiffersAt(t, "aws_vpc", "aws_iam_role_policy", 4);
    DiffersAt(t, "aws_vpc", "aws_iam_role", 4);
    DiffersAt(t, "aws_vpc", "aws_iam_policy", 4);
    DiffersAt(t, "aws_vpc", "aws_iam_openid_connect_provider", 4);
    DiffersAt(t, "aws_vpc", "aws_cloudwatch_event_bus", 4);
    DiffersAt(t, "aws_vpc", "aws_cloudwatch_event_rule", 4);
    DiffersAt(t, "aws_vpc", "aws_cloudwatch_event_target", 4);
    DiffersAt(t, "aws_vpc", "aws_lambda_permission", 4);
    DiffersAt(t, "aws_vpc", "aws_ecs_cluster", 4);
    DiffersAt(t, "aws_vpc", "aws_ecs_service", 4);
  }

  lemma ComparatorOfLambdaPermission(t: string)
    requires StartsWith(t, "aws_lambda_permission")
    ensures ComparatorOf(t) == LambdaPermissionComparator
  {
    DiffersAt(t, "aws_lambda_permission", "aws_instance", 4);
    DiffersAt(t, "aws_lambda_permission", "aws_s3_bucket", 4);
    DiffersAt(t, "aws_lambda_permission", "aws_dynamodb_table", 4);
    DiffersAt(t, "aws_lambda_permission", "aws_lambda_function", 11);
    DiffersAt(t, "aws_lambda_permission", "aws_iam_role_policy", 4);
    DiffersAt(t, "aws_lambda_permission", "aws_iam_role", 4);
    DiffersAt(t, "aws_lambda_permission", "aws_iam_policy", 4);
    DiffersAt(t, "aws_lambda_permission", "aws_iam_openid_connect_provider", 4);
    DiffersAt(t, "aws_lambda_permission", "aws_cloudwatch_event_bus", 4);
    DiffersAt(t, "aws_lambda_permission", "aws_cloudwatch_event_rule", 4);
    DiffersAt(t, "aws_lambda_permission", "aws_cloudwatch_event_target", 4);
  }

  lemma ComparatorOfSqsQueue(t: string)
    requires StartsWith(t, "aws_sqs_queue")
    ensures ComparatorOf(t) == SqsComparator
  {
    DiffersAt(t, "aws_sqs_queue", "aws_instance", 4);
    DiffersAt(t, "aws_sqs_queue", "aws_s3_bucket", 5);
    DiffersAt(t, "aws_sqs_queue", "aws_dynamodb_table", 4);
    DiffersAt(t, "aws_sqs_queue", "aws_lambda_function", 4);
    DiffersAt(t, "aws_sqs_queue", "aws_iam_role_policy", 4);
    DiffersAt(t, "aws_sqs_queue", "aws_iam_role", 4);
    DiffersAt(t, "aws_sqs_queue", "aws_iam_policy", 4);
    DiffersAt(t, "aws_sqs_queue", "aws_iam_openid_connect_provider", 4);
    DiffersAt(t, "aws_sqs_queue", "aws_cloudwatch_event_bus", 4);
    DiffersAt(t, "aws_sqs_queue", "aws_cloudwatch_event_rule", 4);
    DiffersAt(t, "aws_sqs_queue", "aws_cloudwatch_event_target", 4);
    DiffersAt(t, "aws_sqs_queue", "aws_lambda_permission", 4);
    DiffersAt(t, "aws_sqs_queue", "aws_ecs_cluster", 4);
    DiffersAt(t, "aws_sqs_queue", "aws_ecs_service", 4);
    DiffersAt(t, "aws_sqs_queue", "aws_vpc", 4);
    DiffersAt(t, "aws_sqs_queue", "aws_api_gateway_rest_api", 4);
    DiffersAt(t, "aws_sqs_queue", "aws_cloudwatch_dashboard", 4);
    DiffersAt(t, "aws_sqs_queue", "aws_cloudwatch_metric_alarm", 4);
    DiffersAt(t, "aws_sqs_queue", "aws_db_instance", 4);
  }

  lemma RoutedToRolePolicy(loads: Loads, state: Bag, live: Bag, t: string)
    requires ComparatorOf(t) == IamRolePolicyComparator
    ensures CompareAttributes(loads, state, live, t) == Ok(IamComparators.CompareIamAttributes(loads, state, live, t))
  {
  }

  lemma RoutedToVpc(loads: Loads, state: Bag, live: Bag, t: string)
    requires ComparatorOf(t) == VpcComparator
    ensures CompareAttributes(loads, state, live, t) == Ok(Ec2Comparators.CompareEc2Attributes(state, live))
  {
  }

  lemma RoutedToLambdaPermission(loads: Loads, state: Bag, live: Bag, t: string)
    requires ComparatorOf(t) == LambdaPermissionComparator
    ensures CompareAttributes(loads, state, live, t) == Ok(LambdaComparators.CompareLambdaAttributes(state, live, t))
  {
  }

  lemma RoutedToSqs(loads: Loads, state: Bag, live: Bag, t: string)
    requires ComparatorOf(t) == SqsComparator
    ensures CompareAttributes(loads, state, live, t) == SqsComparators.CompareSqsAttributes(state, live)
  {
  }

  /** Inline role policies are tested before roles, so they reach the role-policy
      comparator and its decoded-document check. */
  lemma RolePoliciesBeforeRoles(loads: Loads, state: Bag, live: Bag, t: string)
    requires StartsWith(t, "aws_iam_role_policy")
    ensures CompareAttributes(loads, state, live, t) == Ok(IamComparators.CompareRolePolicyAttributes(loads, state, live))
  {
    ComparatorOfRolePolicy(t);
    RoutedToRolePolicy(loads, state, live, t);
  }

  /** A VPC is compared without its type, so by the instance comparator: the only check is
      the instance type, never the VPC id. */
  lemma VpcsGetTheInstanceCheck(loads: Loads, state: Bag, live: Bag, t: string)
    requires StartsWith(t, "aws_vpc")
    ensures CompareAttributes(loads, state, live, t) == Ok(Ec2InstancesComparator.CompareEc2InstanceAttributes(state, live))
    ensures CompareAttributes(loads, state, live, t) == Ok([]) <==> GetV(state, "instance_type") == GetV(live, "InstanceType")
  {
    ComparatorOfVpc(t);
    RoutedToVpc(loads, state, live, t);
    Ec2Comparators.DefaultTypeComparesInstanceType(state, live);
  }

  /** Lambda permissions are routed with their type, so they reach the permission
      comparator. */
  lemma PermissionsGetThePermissionCheck(loads: Loads, state: Bag, live: Bag, t: string)
    requires StartsWith(t, "aws_lambda_permission")
    ensures CompareAttributes(loads, state, live, t) == Ok(LambdaComparators.ComparePermissionAttributes(state, live))
  {
    ComparatorOfLambdaPermission(t);
    RoutedToLambdaPermission(loads, state, live, t);
  }

  /** SQS queues reach the string-coerced queue comparator, whose errors pass through. */
  lemma QueuesGetTheQueueCheck(loads: Loads, state: Bag, live: Bag, t: string)
    requires StartsWith(t, "aws_sqs_queue")
    ensures CompareAttributes(loads, state, live, t) == SqsComparators.CompareSqsQueueAttributes(state, live)
  {
    ComparatorOfSqsQueue(t);
    RoutedToSqs(loads, state, live, t);
  }

  /** A type outside the `aws_` namespace matches no prefix and has no differences. */
  lemma UnknownTypesHaveNoDifferences(loads: Loads, state: Bag, live: Bag, t: string)
    requires !StartsWith(t, "aws_")
    ensures CompareAttributes(loads, state, live, t) == Ok([])
  {
    NotAws(t, "aws_instance");
    NotAws(t, "aws_s3_bucket");
    NotAws(t, "aws_dynamodb_table");
    NotAws(t, "aws_lambda_function");
    NotAws(t, "aws_iam_role_policy");
    NotAws(t, "aws_iam_role");
    NotAws(t, "aws_iam_policy");
    NotAws(t, "aws_iam_openid_connect_provider");
    NotAws(t, "aws_cloudwatch_event_bus");
    NotAws(t, "aws_cloudwatch_event_rule");
    NotAws(t, "aws_cloudwatch_event_target");
    NotAws(t, "aws_lambda_permission");
    NotAws(t, "aws_ecs_cluster");
    NotAws(t, "aws_ecs_service");
    NotAws(t, "aws_vpc");
    NotAws(t, "aws_api_gateway_rest_api");
    NotAws(t, "aws_cloudwatch_dashboard");
    NotAws(t, "aws_cloudwatch_metric_alarm");
    NotAws(t, "aws_db_instance");
    NotAws(t, "aws_sqs_queue");
  }

  // ---------------------------------------------------------------------------------
  // State-side keys

  /** The key before any composite override: the extracted ARN, or `{type}.{name}_{idx}`
      when the ARN search raises `ValueError`. */
  function GenericStateKey(t: string, name: string, idx: int, attributes: Bag): string {
    match FetchersBase.ExtractArnFromAttributes(attributes, t)
    case Ok(arn) => arn
    case Err(_) => FallbackKey(t, name, idx)
  }

  /** `attributes.get(field, "")`, rendered by an f-string. */
  function Part(attributes: Bag, field: string): string {
    StrOf(GetOr(attributes, field, Str("")))
  }

  function EventTargetStateKey(attributes: Bag): string {
    "event_target:" + Part(attributes, "event_bus_name") + ":" + Part(attributes, "rule") + ":" + Part(attributes, "arn")
  }

  /** `lambda_permission:{function}:{statement}`, an ARN function name cut to its last `:`
      segment; a function name that is not a string cannot be asked `startswith`. */
  function PermissionStateKey(attributes: Bag): (r: Result<string>)
    ensures r.Err? <==> !GetOr(attributes, "function_name", Str("")).Str?
  {
    var functionName := GetOr(attributes, "function_name", Str(""));
    if !functionName.Str? then Err(NoAttribute(functionName, "startswith"))
    else
      var name := if StartsWith(functionName.s, "arn:aws:lambda:") then AfterLast(functionName.s, ':') else functionName.s;
      Ok("lambda_permission:" + name + ":" + Part(attributes, "statement_id"))
  }

  function DeploymentStateKey(attributes: Bag): string {
    "apigw_deployment:" + Part(attributes, "rest_api_id") + ":" + Part(attributes, "id")
  }

  function IntegrationStateKey(attributes: Bag): string {
    "apigw_integration:" + Part(attributes, "rest_api_id") + ":" + Part(attributes, "resource_id") + ":" +
    Part(attributes, "http_method")
  }

  function MethodStateKey(attributes: Bag): string {
    "apigw_method:" + Part(attributes, "rest_api_id") + ":" + Part(attributes, "resource_id") + ":" +
    Part(attributes, "http_method")
  }

  function ResourceStateKey(attributes: Bag): string {
    "apigw_resource:" + Part(attributes, "rest_api_id") + ":" + Part(attributes, "resource_id")
  }

  function RestApiStateKey(attributes: Bag): string {
    "apigw_rest_api:" + Part(attributes, "id")
  }

  function StageStateKey(attributes: Bag): string {
    "apigw_stage:" + Part(attributes, "rest_api_id") + ":" + Part(attributes, "stage_name")
  }

  /** The eight kinds whose composite key overrides the generic one. */
  predicate IsCompositeKind(t: string) {
    StartsWith(t, "aws_cloudwatch_event_target") || StartsWith(t, "aws_lambda_permission") ||
    StartsWith(t, "aws_api_gateway_deployment") || StartsWith(t, "aws_api_gateway_integration") ||
    StartsWith(t, "aws_api_gateway_method") || StartsWith(t, "aws_api_gateway_resource") ||
    StartsWith(t, "aws_api_gateway_rest_api") || StartsWith(t, "aws_api_gateway_stage")
  }

  /** The key `compare_resources` looks an instance up under: the generic key, then each
      matching composite in turn overwrites it. */
  function StateKey(t: string, name: string, idx: int, attributes: Bag): Result<string> {
    var k0 := GenericStateKey(t, name, idx, attributes);
    var k1 := if StartsWith(t, "aws_cloudwatch_event_target") then EventTargetStateKey(attributes) else k0;
    match (if StartsWith(t, "aws_lambda_permission") then PermissionStateKey(attributes) else Ok(k1))
    case Err(e) => Err(e)
    case Ok(k2) =>
      var k3 := if StartsWith(t, "aws_api_gateway_deployment") then DeploymentStateKey(attributes) else k2;
      var k4 := if StartsWith(t, "aws_api_gateway_integration") then IntegrationStateKey(attributes) else k3;
      var k5 := if StartsWith(t, "aws_api_gateway_method") then MethodStateKey(attributes) else k4;
      var k6 := if StartsWith(t, "aws_api_gateway_resource") then ResourceStateKey(attributes) else k5;
      var k7 := if StartsWith(t, "aws_api_gateway_rest_api") then RestApiStateKey(attributes) else k6;
      var k8 := if StartsWith(t, "aws_api_gateway_stage") then StageStateKey(attributes) else k7;
      Ok(k8)
  }

  /** Outside the composite kinds the key is the ARN the search finds, or the positional
      key when it finds none. */
  lemma GenericStateKeys(t: string, name: string, idx: int, attributes: Bag)
    requires !IsCompositeKind(t)
    ensures FetchersBase.ExtractArnFromAttributes(attributes, t).Ok? ==>
      StateKey(t, name, idx, attributes) == Ok(FetchersBase.ExtractArnFromAttributes(attributes, t).value)
    ensures FetchersBase.ExtractArnFromAttributes(attributes, t).Err? ==>
      StateKey(t, name, idx, attributes) == Ok(FallbackKey(t, name, idx))
  {
  }

  /** An event target is keyed by its composite whatever the ARN search finds, even when
      the parts are empty. */
  lemma EventTargetStateKeyComposite(t: string, name: string, idx: int, attributes: Bag)
    requires StartsWith(t, "aws_cloudwatch_event_target")
    ensures StateKey(t, name, idx, attributes) == Ok(EventTargetStateKey(attributes))
  {
    DiffersAt(t, "aws_cloudwatch_event_target", "aws_lambda_permission", 4);
    DiffersAt(t, "aws_cloudwatch_event_target", "aws_api_gateway_deployment", 4);
    DiffersAt(t, "aws_cloudwatch_event_target", "aws_api_gateway_integration", 4);
    DiffersAt(t, "aws_cloudwatch_event_target", "aws_api_gateway_method", 4);
    DiffersAt(t, "aws_cloudwatch_event_target", "aws_api_gateway_resource", 4);
    DiffersAt(t, "aws_cloudwatch_event_target", "aws_api_gateway_rest_api", 4);
    DiffersAt(t, "aws_cloudwatch_event_target", "aws_api_gateway_stage", 4);
  }

  lemma PermissionStateKeyComposite(t: string, name: string, idx: int, attributes: Bag)
    requires StartsWith(t, "aws_lambda_permission")
    ensures StateKey(t, name, idx, attributes) == PermissionStateKey(attributes)
  {
    DiffersAt(t, "aws_lambda_permission", "aws_cloudwatch_event_target", 4);
    DiffersAt(t, "aws_lambda_permission", "aws_api_gateway_deployment", 4);
    DiffersAt(t, "aws_lambda_permission", "aws_api_gateway_integration", 4);
    DiffersAt(t, "aws_lambda_permission", "aws_api_gateway_method", 4);
    DiffersAt(t, "aws_lambda_permission", "aws_api_gateway_resource", 4);
    DiffersAt(t, "aws_lambda_permission", "aws_api_gateway_rest_api", 4);
    DiffersAt(t, "aws_lambda_permission", "aws_api_gateway_stage", 4);
  }

  lemma DeploymentStateKeyComposite(t: string, name: string, idx: int, attributes: Bag)
    requires StartsWith(t, "aws_api_gateway_deployment")
    ensures StateKey(t, name, idx, attributes) == Ok(DeploymentStateKey(attributes))
  {
    DiffersAt(t, "aws_api_gateway_deployment", "aws_cloudwatch_event_target", 4);
    DiffersAt(t, "aws_api_gateway_deployment", "aws_lambda_permission", 4);
    DiffersAt(t, "aws_api_gateway_deployment", "aws_api_gateway_integration", 16);
    DiffersAt(t, "aws_api_gateway_deployment", "aws_api_gateway_method", 16);
    DiffersAt(t, "aws_api_gateway_deployment", "aws_api_gateway_resource", 16);
    DiffersAt(t, "aws_api_gateway_deployment", "aws_api_gateway_rest_api", 16);
    DiffersAt(t, "aws_api_gateway_deployment", "aws_api_gateway_stage", 16);
  }

  lemma IntegrationStateKeyComposite(t: string, name: string, idx: int, attributes: Bag)
    requires StartsWith(t, "aws_api_gateway_integration")
    ensures StateKey(t, name, idx, attributes) == Ok(IntegrationStateKey(attributes))
  {
    DiffersAt(t, "aws_api_gateway_integration", "aws_cloudwatch_event_target", 4);
    DiffersAt(t, "aws_api_gateway_integration", "aws_lambda_permission", 4);
    DiffersAt(t, "aws_api_gateway_integration", "aws_api_gateway_deployment", 16);
    DiffersAt(t, "aws_api_gateway_integration", "aws_api_gateway_method", 16);
    DiffersAt(t, "aws_api_gateway_integration", "aws_api_gateway_resource", 16);
    DiffersAt(t, "aws_api_gateway_integration", "aws_api_gateway_rest_api", 16);
    DiffersAt(t, "aws_api_gateway_integration", "aws_api_gateway_stage", 16);
  }

  lemma MethodStateKeyComposite(t: string, name: string, idx: int, attributes: Bag)
    requires StartsWith(t, "aws_api_gateway_method")
    ensures StateKey(t, name, idx, attributes) == Ok(MethodStateKey(attributes))
  {
    DiffersAt(t, "aws_api_gateway_method", "aws_cloudwatch_event_target", 4);
    DiffersAt(t, "aws_api_gateway_method", "aws_lambda_permission", 4);
    DiffersAt(t, "aws_api_gateway_method", "aws_api_gateway_deployment", 16);
    DiffersAt(t, "aws_api_gateway_method", "aws_api_gateway_integration", 16);
    DiffersAt(t, "aws_api_gateway_method", "aws_api_gateway_resource", 16);
    DiffersAt(t, "aws_api_gateway_method", "aws_api_gateway_rest_api", 16);
    DiffersAt(t, "aws_api_gateway_method", "aws_api_gateway_stage", 16);
  }

  lemma ResourceStateKeyComposite(t: string, name: string, idx: int, attributes: Bag)
    requires StartsWith(t, "aws_api_gateway_resource")
    ensures StateKey(t, name, idx, attributes) == Ok(ResourceStateKey(attributes))
  {
    DiffersAt(t, "aws_api_gateway_resource", "aws_cloudwatch_event_target", 4);
    DiffersAt(t, "aws_api_gateway_resource", "aws_lambda_permission", 4);
    DiffersAt(t, "aws_api_gateway_resource", "aws_api_gateway_deployment", 16);
    DiffersAt(t, "aws_api_gateway_resource", "aws_api_gateway_integration", 16);
    DiffersAt(t, "aws_api_gateway_resource", "aws_api_gateway_method", 16);
    DiffersAt(t, "aws_api_gateway_resource", "aws_api_gateway_rest_api", 19);
    DiffersAt(t, "aws_api_gateway_resource", "aws_api_gateway_stage", 16);
  }

  lemma RestApiStateKeyComposite(t: string, name: string, idx: int, attributes: Bag)
    requires StartsWith(t, "aws_api_gateway_rest_api")
    ensures StateKey(t, name, idx, attributes) == Ok(RestApiStateKey(attributes))
  {
    DiffersAt(t, "aws_api_gateway_rest_api", "aws_cloudwatch_event_target", 4);
    DiffersAt(t, "aws_api_gateway_rest_api", "aws_lambda_permission", 4);
    DiffersAt(t, "aws_api_gateway_rest_api", "aws_api_gateway_deployment", 16);
    DiffersAt(t, "aws_api_gateway_rest_api", "aws_api_gateway_integration", 16);
    DiffersAt(t, "aws_api_gateway_rest_api", "aws_api_gateway_method", 16);
    DiffersAt(t, "aws_api_gateway_rest_api", "aws_api_gateway_resource", 19);
    DiffersAt(t, "aws_api_gateway_rest_api", "aws_api_gateway_stage", 16);
  }

  lemma StageStateKeyComposite(t: string, name: string, idx: int, attributes: Bag)
    requires StartsWith(t, "aws_api_gateway_stage")
    ensures StateKey(t, name, idx, attributes) == Ok(StageStateKey(attributes))
  {
    DiffersAt(t, "aws_api_gateway_stage", "aws_cloudwatch_event_target", 4);
    DiffersAt(t, "aws_api_gateway_stage", "aws_lambda_permission", 4);
    DiffersAt(t, "aws_api_gateway_stage", "aws_api_gateway_deployment", 16);
    DiffersAt(t, "aws_api_gateway_stage", "aws_api_gateway_integration", 16);
    DiffersAt(t, "aws_api_gateway_stage", "aws_api_gateway_method", 16);
    DiffersAt(t, "aws_api_gateway_stage", "aws_api_gateway_resource", 16);
    DiffersAt(t, "aws_api_gateway_stage", "aws_api_gateway_rest_api", 16);
  }

  // ---------------------------------------------------------------------------------
  // The SQS queue-policy branch

  /** Whether the policy of the queue at `queueUrl` is read from a live entry: its
      `QueueUrl` equals the state URL, or (for a truthy URL) its `QueueArn` ends with the
      URL's last `/` segment. A test that asks a non-string for `endswith` or `split`
      raises. */
  function MatchesQueue(entry: Bag, queueUrl: Value): (r: Result<bool>)
    ensures GetV(entry, "QueueUrl") == queueUrl ==> r == Ok(true)
    ensures GetV(entry, "QueueUrl") != queueUrl && !Truthy(queueUrl) ==> r == Ok(false)
    ensures r.Err? ==> Truthy(queueUrl) && (!GetOr(entry, "QueueArn", Str("")).Str? || !queueUrl.Str?)
    ensures r == Ok(true) && GetV(entry, "QueueUrl") != queueUrl ==>
      queueUrl.Str? && GetOr(entry, "QueueArn", Str("")).Str? && EndsWith(GetOr(entry, "QueueArn", Str("")).s, AfterLast(queueUrl.s, '/'))
  {
    if GetV(entry, "QueueUrl") == queueUrl then Ok(true)
    else if !Truthy(queueUrl) then Ok(false)
    else
      var queueArn := GetOr(entry, "QueueArn", Str(""));
      if !queueArn.Str? then Err(NoAttribute(queueArn, "endswith"))
      else if !queueUrl.Str? then Err(NoAttribute(queueUrl, "split"))
      else Ok(EndsWith(queueArn.s, AfterLast(queueUrl.s, '/')))
  }

  /** The live policy the search settles on: the `Policy` of the first matching entry, in
      the live map's order, or `None` when none matches. */
  function LivePolicy(entries: seq<(string, Bag)>, queueUrl: Value): Result<Value> {
    if entries == [] then Ok(Null)
    else match MatchesQueue(entries[0].1, queueUrl)
    case Err(e) => Err(e)
    case Ok(found) => if found then Ok(GetV(entries[0].1, "Policy")) else LivePolicy(entries[1..], queueUrl)
  }

  /** The first matching entry gives the policy. */
  lemma {:induction false} FirstMatchGivesPolicy(entries: seq<(string, Bag)>, queueUrl: Value, i: nat)
    requires i < |entries| && MatchesQueue(entries[i].1, queueUrl) == Ok(true)
    requires forall j :: 0 <= j < i ==> MatchesQueue(entries[j].1, queueUrl) == Ok(false)
    ensures LivePolicy(entries, queueUrl) == Ok(GetV(entries[i].1, "Policy"))
  {
    if i > 0 {
      assert MatchesQueue(entries[0].1, queueUrl) == Ok(false);
      assert forall j :: 0 <= j < i - 1 ==> entries[1..][j] == entries[j + 1];
      FirstMatchGivesPolicy(entries[1..], queueUrl, i - 1);
    }
  }

  /** With no matching entry the live policy is `None`. */
  lemma {:induction false} NoMatchGivesNone(entries: seq<(string, Bag)>, queueUrl: Value)
    requires forall j :: 0 <= j < |entries| ==> MatchesQueue(entries[j].1, queueUrl) == Ok(false)
    ensures LivePolicy(entries, queueUrl) == Ok(Null)
  {
    if entries != [] {
      assert forall j :: 0 <= j < |entries| - 1 ==> entries[1..][j] == entries[j + 1];
      NoMatchGivesNone(entries[1..], queueUrl);
    }
  }

  /** The search over live entries, stopping at the first match. */
  method FindLivePolicy(live: Dict<Bag>, queueUrl: Value) returns (r: Result<Value>)
    ensures r == LivePolicy(live, queueUrl)
  {
    var i := 0;
    while i < |live|
      invariant 0 <= i <= |live|
      invariant LivePolicy(live, queueUrl) == LivePolicy(live[i..], queueUrl)
    {
      assert live[i..][1..] == live[i + 1..];
      var found := MatchesQueue(live[i].1, queueUrl);
      if found.Err? {
        return Err(found.error);
      }
      if found.value {
        return Ok(GetV(live[i].1, "Policy"));
      }
      i := i + 1;
    }
    return Ok(Null);
  }

  /** One side's policy after `json.loads` and `json.dumps(..., sort_keys=True,
      separators=(",", ":"))`: a falsy raw value or a falsy document is `None`, and `None`
      here stands for an exception (a raw value that is not a string, or text that does
      not decode). */
  function Canonical(loads: Loads, raw: Value): (r: Option<Value>)
    ensures r.Some? && Truthy(raw) ==> raw.Str? && loads(raw.s).Some?
  {
    if !Truthy(raw) then Some(Null)
    else if !raw.Str? then None
    else match loads(raw.s)
    case None => None
    case Some(doc) => Some(if Truthy(doc) then Str(Dumps(doc, CompactSeparators)) else Null)
  }

  /** The two values compared: both canonical forms, or both raw values when either side
      raises. */
  function CanonicalPolicies(loads: Loads, stateRaw: Value, liveRaw: Value): (Value, Value) {
    match (Canonical(loads, stateRaw), Canonical(loads, liveRaw))
    case (Some(s), Some(l)) => (s, l)
    case _ => (stateRaw, liveRaw)
  }

  /** `{type}.{name} [{queue_url}]` */
  function PolicyDriftKey(t: string, name: string, queueUrl: Value): string {
    t + "." + name + " [" + StrOf(queueUrl) + "]"
  }

  /** Two texts that decode to the same document give the same canonical value, so key
      order and whitespace never cause a record. */
  lemma SameDocumentSameCanonical(loads: Loads, stateText: string, liveText: string)
    requires stateText != "" && liveText != "" && loads(stateText).Some? && loads(stateText) == loads(liveText)
    ensures CanonicalPolicies(loads, Str(stateText), Str(liveText)).0 == CanonicalPolicies(loads, Str(stateText), Str(liveText)).1
  {
  }

  /** Policies absent or empty on both sides compare equal. */
  lemma AbsentPoliciesEqual(loads: Loads, stateRaw: Value, liveRaw: Value)
    requires !Truthy(stateRaw) && !Truthy(liveRaw)
    ensures CanonicalPolicies(loads, stateRaw, liveRaw) == (Null, Null)
  {
  }

  /** When either text fails to decode the raw values are compared. */
  lemma UndecodableComparedRaw(loads: Loads, stateRaw: Value, liveRaw: Value)
    requires (stateRaw.Str? && stateRaw.s != "" && loads(stateRaw.s).None?) ||
             (liveRaw.Str? && liveRaw.s != "" && loads(liveRaw.s).None?)
    ensures CanonicalPolicies(loads, stateRaw, liveRaw) == (stateRaw, liveRaw)
  {
  }

  // ---------------------------------------------------------------------------------
  // Drift records

  /** A record of `drifts`. `MissingResource` is `drift_type: "missing_resource"`; the two
      others are `drift_type: "attribute_drift"`, the policy one carrying the single
      canonical-policy difference. */
  datatype Drift =
    | MissingResource(resourceKey: string)
    | AttributeDrift(resourceKey: string, differences: seq<Difference>)
    | PolicyDrift(resourceKey: string, difference: Difference)

  function DriftType(d: Drift): string {
    if d.MissingResource? then "missing_resource" else "attribute_drift"
  }

  function Description(d: Drift): string {
    match d
    case MissingResource(k) => "Resource " + k + " exists in state but not in live AWS"
    case AttributeDrift(k, _) => "Attribute drift detected for " + k
    case PolicyDrift(k, _) => "Policy drift detected for " + k
  }

  /** The records of one queue-policy instance. */
  function PolicyDrifts(loads: Loads, live: Dict<Bag>, t: string, name: string, attributes: Bag): Result<seq<Drift>> {
    var queueUrl := GetV(attributes, "queue_url");
    match LivePolicy(live, queueUrl)
    case Err(e) => Err(e)
    case Ok(livePolicy) =>
      var (s, l) := CanonicalPolicies(loads, GetV(attributes, "policy"), livePolicy);
      if s != l then Ok([PolicyDrift(PolicyDriftKey(t, name, queueUrl), CanonicalPolicyDiff(s, l))]) else Ok([])
  }

  /** The records of one instance of any other kind. */
  function KeyedDrifts(loads: Loads, live: Dict<Bag>, t: string, name: string, idx: int, attributes: Bag): Result<seq<Drift>> {
    match StateKey(t, name, idx, attributes)
    case Err(e) => Err(e)
    case Ok(key) =>
      match Get(live, key)
      case None => Ok([MissingResource(key)])
      case Some(liveAttributes) =>
        match CompareAttributes(loads, attributes, liveAttributes, t)
        case Err(e) => Err(e)
        case Ok(differences) => if differences == [] then Ok([]) else Ok([AttributeDrift(key, differences)])
  }

  /** The records `compare_resources` appends for one instance. */
  function InstanceDrifts(loads: Loads, live: Dict<Bag>, t: string, name: string, idx: int, attributes: Bag): Result<seq<Drift>> {
    if StartsWith(t, "aws_sqs_queue_policy") then PolicyDrifts(loads, live, t, name, attributes)
    else KeyedDrifts(loads, live, t, name, idx, attributes)
  }

  /** What a record promises about the live map it was computed against. */
  predicate Substantiated(live: Dict<Bag>, d: Drift) {
    match d
    case MissingResource(k) => !Has(live, k)
    case AttributeDrift(k, ds) => Has(live, k) && ds != []
    case PolicyDrift(_, diff) => diff.CanonicalPolicyDiff? && diff.stateCanonical != diff.liveCanonical
  }

  /** A key absent from the live map gives exactly one missing-resource record. */
  lemma MissingKeyOneRecord(loads: Loads, live: Dict<Bag>, t: string, name: string, idx: int, attributes: Bag, key: string)
    requires !StartsWith(t, "aws_sqs_queue_policy") && StateKey(t, name, idx, attributes) == Ok(key)
    requires !Has(live, key)
    ensures InstanceDrifts(loads, live, t, name, idx, attributes) == Ok([MissingResource(key)])
  {
  }

  /** A present key gives one attribute-drift record exactly when the comparator reports
      something, and the record carries the comparator's list unchanged. */
  lemma PresentKeyDriftsIffDifferences(loads: Loads, live: Dict<Bag>, t: string, name: string, idx: int, attributes: Bag,
                                       key: string, differences: seq<Difference>)
    requires !StartsWith(t, "aws_sqs_queue_policy") && StateKey(t, name, idx, attributes) == Ok(key)
    requires Has(live, key) && CompareAttributes(loads, attributes, Get(live, key).value, t) == Ok(differences)
    ensures differences == [] ==> InstanceDrifts(loads, live, t, name, idx, attributes) == Ok([])
    ensures differences != [] ==> InstanceDrifts(loads, live, t, name, idx, attributes) == Ok([AttributeDrift(key, differences)])
  {
  }

  /** A queue policy's record, when there is one, is keyed `{type}.{name} [{queue_url}]`
      and holds the two differing compared values. */
  lemma PolicyRecordShape(loads: Loads, live: Dict<Bag>, t: string, name: string, attributes: Bag, livePolicy: Value)
    requires LivePolicy(live, GetV(attributes, "queue_url")) == Ok(livePolicy)
    ensures var (s, l) := CanonicalPolicies(loads, GetV(attributes, "policy"), livePolicy);
      PolicyDrifts(loads, live, t, name, attributes) ==
        if s == l then Ok([])
        else Ok([PolicyDrift(PolicyDriftKey(t, name, GetV(attributes, "queue_url")), CanonicalPolicyDiff(s, l))])
  {
  }

  lemma PolicyDriftsSubstantiated(loads: Loads, live: Dict<Bag>, t: string, name: string, attributes: Bag)
    requires PolicyDrifts(loads, live, t, name, attributes).Ok?
    ensures |PolicyDrifts(loads, live, t, name, attributes).value| <= 1
    ensures forall d :: d in PolicyDrifts(loads, live, t, name, attributes).value ==> Substantiated(live, d)
  {
  }

  lemma KeyedDriftsSubstantiated(loads: Loads, live: Dict<Bag>, t: string, name: string, idx: int, attributes: Bag)
    requires KeyedDrifts(loads, live, t, name, idx, attributes).Ok?
    ensures |KeyedDrifts(loads, live, t, name, idx, attributes).value| <= 1
    ensures forall d :: d in KeyedDrifts(loads, live, t, name, idx, attributes).value ==> Substantiated(live, d)
  {
    var key := StateKey(t, name, idx, attributes).value;
    match Get(live, key)
    case None =>
      assert KeyedDrifts(loads, live, t, name, idx, attributes) == Ok([MissingResource(key)]);
    case Some(liveAttributes) =>
      var differences := CompareAttributes(loads, attributes, liveAttributes, t).value;
      assert KeyedDrifts(loads, live, t, name, idx, attributes) ==
        if differences == [] then Ok([]) else Ok([AttributeDrift(key, differences)]);
  }

  /** Every instance contributes at most one record, and each record is substantiated. */
  lemma InstanceDriftsSubstantiated(loads: Loads, live: Dict<Bag>, t: string, name: string, idx: int, attributes: Bag)
    requires InstanceDrifts(loads, live, t, name, idx, attributes).Ok?
    ensures |InstanceDrifts(loads, live, t, name, idx, attributes).value| <= 1
    ensures forall d :: d in InstanceDrifts(loads, live, t, name, idx, attributes).value ==> Substantiated(live, d)
  {
    if StartsWith(t, "aws_sqs_queue_policy") {
      PolicyDriftsSubstantiated(loads, live, t, name, attributes);
    } else {
      KeyedDriftsSubstantiated(loads, live, t, name, idx, attributes);
    }
  }

  // ---------------------------------------------------------------------------------
  // `compare_resources`

  /** The records one instance contributes, as a value the folds are parameterised by:
      (type, name, index, attributes). */
  type DriftStep = (string, string, int, Bag) -> Result<seq<Drift>>

  function Drifter(loads: Loads, live: Dict<Bag>): DriftStep {
    (t: string, name: string, idx: int, attributes: Bag) => InstanceDrifts(loads, live, t, name, idx, attributes)
  }

  /** The records of the first `count` instances of a block. */
  function BlockDrifts(step: DriftStep, resource: Resource, count: nat): Result<seq<Drift>>
    requires count <= |Instances(resource)|
  {
    if count == 0 then Ok([])
    else match BlockDrifts(step, resource, count - 1)
    case Err(e) => Err(e)
    case Ok(ds) =>
      match step(resource.rtype, resource.name, count - 1, Instances(resource)[count - 1])
      case Err(e) => Err(e)
      case Ok(more) => Ok(ds + more)
  }

  /** The records of the first `count` blocks. */
  function RunDrifts(step: DriftStep, resources: seq<Resource>, count: nat): Result<seq<Drift>>
    requires count <= |resources|
  {
    if count == 0 then Ok([])
    else match RunDrifts(step, resources, count - 1)
    case Err(e) => Err(e)
    case Ok(ds) =>
      match BlockDrifts(step, resources[count - 1], |Instances(resources[count - 1])|)
      case Err(e) => Err(e)
      case Ok(more) => Ok(ds + more)
  }

  lemma {:induction false} BlockErrorPersists(step: DriftStep, resource: Resource, k: nat, n: nat)
    requires k <= n <= |Instances(resource)|
    requires BlockDrifts(step, resource, k).Err?
    ensures BlockDrifts(step, resource, n) == BlockDrifts(step, resource, k)
    decreases n
  {
    if n > k {
      BlockErrorPersists(step, resource, k, n - 1);
    }
  }

  lemma {:induction false} RunErrorPersists(step: DriftStep, resources: seq<Resource>, k: nat, n: nat)
    requires k <= n <= |resources|
    requires RunDrifts(step, resources, k).Err?
    ensures RunDrifts(step, resources, n) == RunDrifts(step, resources, k)
    decreases n
  {
    if n > k {
      RunErrorPersists(step, resources, k, n - 1);
    }
  }

  /** The result of `compare_resources` without its timestamp. */
  datatype Report = Report(drifts: seq<Drift>, totalDrifts: int)

  /** The inner loop: the records of one block's instances, in order. */
  method CompareBlock(step: DriftStep, resource: Resource) returns (r: Result<seq<Drift>>)
    ensures r == BlockDrifts(step, resource, |Instances(resource)|)
  {
    var instances := Instances(resource);
    var drifts: seq<Drift> := [];
    var j := 0;
    while j < |instances|
      invariant 0 <= j <= |instances|
      invariant BlockDrifts(step, resource, j) == Ok(drifts)
    {
      var more := step(resource.rtype, resource.name, j, instances[j]);
      if more.Err? {
        BlockErrorPersists(step, resource, j + 1, |instances|);
        return Err(more.error);
      }
      drifts := drifts + more.value;
      j := j + 1;
    }
    return Ok(drifts);
  }

  /** The outer loop: every block in state order; an error raised on the way ends the
      run. */
  method CompareBlocks(step: DriftStep, resources: seq<Resource>) returns (r: Result<seq<Drift>>)
    ensures r == RunDrifts(step, resources, |resources|)
  {
    var drifts: seq<Drift> := [];
    var i := 0;
    while i < |resources|
      invariant 0 <= i <= |resources|
      invariant RunDrifts(step, resources, i) == Ok(drifts)
    {
      var block := CompareBlock(step, resources[i]);
      if block.Err? {
        RunErrorPersists(step, resources, i + 1, |resources|);
        return Err(block.error);
      }
      drifts := drifts + block.value;
      i := i + 1;
    }
    return Ok(drifts);
  }

  /** The report for a run: its records and their number. */
  function ReportOf(run: Result<seq<Drift>>): (r: Result<Report>)
    ensures r.Ok? <==> run.Ok?
    ensures r.Ok? ==> r.value.drifts == run.value && r.value.totalDrifts == |r.value.drifts|
    ensures run.Err? ==> r == Err(run.error)
  {
    match run
    case Err(e) => Err(e)
    case Ok(drifts) => Ok(Report(drifts, |drifts|))
  }

  /** `compare_resources`: the records of every instance of every block, in state order,
      with their count. */
  method CompareResources(loads: Loads, resources: seq<Resource>, live: Dict<Bag>) returns (r: Result<Report>)
    ensures r == ReportOf(RunDrifts(Drifter(loads, live), resources, |resources|))
  {
    var run := CompareBlocks(Drifter(loads, live), resources);
    if run.Err? {
      return Err(run.error);
    }
    return Ok(Report(run.value, |run.value|));
  }

  /** Records follow state order: the records of the first `k` blocks begin the records of
      the first `n`. */
  lemma {:induction false} RecordsFollowStateOrder(step: DriftStep, resources: seq<Resource>, k: nat, n: nat)
    requires k <= n <= |resources|
    requires RunDrifts(step, resources, n).Ok?
    ensures RunDrifts(step, resources, k).Ok?
    ensures RunDrifts(step, resources, k).value <= RunDrifts(step, resources, n).value
    decreases n
  {
    if n > k {
      if RunDrifts(step, resources, n - 1).Err? {
        assert false;
      }
      RecordsFollowStateOrder(step, resources, k, n - 1);
    }
  }

  /** The number of instances in the first `count` blocks. */
  function InstanceCount(resources: seq<Resource>, count: nat): nat
    requires count <= |resources|
  {
    if count == 0 then 0 else InstanceCount(resources, count - 1) + |Instances(resources[count - 1])|
  }

  /** A block's records are at most one per instance and all satisfy `p` when every
      instance's records are. */
  lemma {:induction false} BlockDriftsBounded(step: DriftStep, resource: Resource, count: nat, p: Drift -> bool)
    requires count <= |Instances(resource)|
    requires BlockDrifts(step, resource, count).Ok?
    requires forall i :: 0 <= i < count && step(resource.rtype, resource.name, i, Instances(resource)[i]).Ok? ==>
      && |step(resource.rtype, resource.name, i, Instances(resource)[i]).value| <= 1
      && forall d :: d in step(resource.rtype, resource.name, i, Instances(resource)[i]).value ==> p(d)
    ensures |BlockDrifts(step, resource, count).value| <= count
    ensures forall d :: d in BlockDrifts(step, resource, count).value ==> p(d)
  {
    if count > 0 {
      BlockDriftsBounded(step, resource, count - 1, p);
    }
  }

  lemma BlockSubstantiated(loads: Loads, live: Dict<Bag>, resource: Resource, count: nat)
    requires count <= |Instances(resource)|
    requires BlockDrifts(Drifter(loads, live), resource, count).Ok?
    ensures |BlockDrifts(Drifter(loads, live), resource, count).value| <= count
    ensures forall d :: d in BlockDrifts(Drifter(loads, live), resource, count).value ==> Substantiated(live, d)
  {
    var step := Drifter(loads, live);
    var instances := Instances(resource);
    forall i | 0 <= i < count && step(resource.rtype, resource.name, i, instances[i]).Ok?
      ensures |step(resource.rtype, resource.name, i, instances[i]).value| <= 1
      ensures forall d :: d in step(resource.rtype, resource.name, i, instances[i]).value ==> Substantiated(live, d)
    {
      assert step(resource.rtype, resource.name, i, instances[i]) ==
        InstanceDrifts(loads, live, resource.rtype, resource.name, i, instances[i]);
      InstanceDriftsSubstantiated(loads, live, resource.rtype, resource.name, i, instances[i]);
    }
    BlockDriftsBounded(step, resource, count, d => Substantiated(live, d));
  }

  /** A run's records are at most one per instance and all satisfy `p` when every
      block's records are. */
  lemma {:induction false} RunDriftsBounded(step: DriftStep, resources: seq<Resource>, count: nat, p: Drift -> bool)
    requires count <= |resources|
    requires RunDrifts(step, resources, count).Ok?
    requires forall b :: 0 <= b < count && BlockDrifts(step, resources[b], |Instances(resources[b])|).Ok? ==>
      && |BlockDrifts(step, resources[b], |Instances(resources[b])|).value| <= |Instances(resources[b])|
      && forall d :: d in BlockDrifts(step, resources[b], |Instances(resources[b])|).value ==> p(d)
    ensures |RunDrifts(step, resources, count).value| <= InstanceCount(resources, count)
    ensures forall d :: d in RunDrifts(step, resources, count).value ==> p(d)
  {
    if count > 0 {
      RunDriftsBounded(step, resources, count - 1, p);
    }
  }

  /** At most one record per instance, and every record is substantiated by the live map:
      a missing resource's key is absent, an attribute drift's key is present with a
      non-empty list, a policy drift's two values differ. */
  lemma RecordsSubstantiated(loads: Loads, live: Dict<Bag>, resources: seq<Resource>, count: nat)
    requires count <= |resources|
    requires RunDrifts(Drifter(loads, live), resources, count).Ok?
    ensures |RunDrifts(Drifter(loads, live), resources, count).value| <= InstanceCount(resources, count)
    ensures forall d :: d in RunDrifts(Drifter(loads, live), resources, count).value ==> Substantiated(live, d)
  {
    forall b | 0 <= b < count && BlockDrifts(Drifter(loads, live), resources[b], |Instances(resources[b])|).Ok?
      ensures |BlockDrifts(Drifter(loads, live), resources[b], |Instances(resources[b])|).value| <= |Instances(resources[b])|
      ensures forall d :: d in BlockDrifts(Drifter(loads, live), resources[b], |Instances(resources[b])|).value ==> Substantiated(live, d)
    {
      BlockSubstantiated(loads, live, resources[b], |Instances(resources[b])|);
    }
    RunDriftsBounded(Drifter(loads, live), resources, count, d => Substantiated(live, d));
  }
}
