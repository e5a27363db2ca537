/** The live side of identity keying: how the fetch orchestration names each state instance
    before asking a service fetcher for it, and the ARN search that keying relies on. The
    service fetchers themselves talk to AWS and are a parameter here. */
module FetchersBase {
  import opened Text
  import opened Python
  import opened Differences
  import opened Keys

  // ---------------------------------------------------------------------------------
  // extract_arn_from_attributes

  /** A value the ARN search accepts: a (necessarily non-empty) string starting `arn:aws:`. */
  predicate IsArn(v: Value) {
    v.Str? && StartsWith(v.s, "arn:aws:")
  }

  /** The first item of `items` whose name satisfies `nameTest` and whose value is an ARN. */
  function ScanItems(items: Bag, nameTest: string -> bool): (r: Option<string>)
    decreases |items|
  {
    if items == [] then None
    else if nameTest(items[0].0) && IsArn(items[0].1) then Some(items[0].1.s)
    else
      var tail: Bag := items[1..];
      ScanItems(tail, nameTest)
  }

  /** A field name ending `_arn`. */
  predicate ArnSuffixed(name: string) {
    EndsWith(name, "_arn")
  }

  /** A field name whose lower-cased form contains `arn`. */
  predicate MentionsArn(name: string) {
    Contains(AsciiLower(name), "arn")
  }

  const ArnFields := ["arn", "Arn", "ARN"]

  /** The first of `fields` whose value is an ARN. */
  function FirstArnField(d: Bag, fields: seq<string>): Option<string> {
    if fields == [] then None
    else if IsArn(GetV(d, fields[0])) then Some(GetV(d, fields[0]).s)
    else FirstArnField(d, fields[1..])
  }

  function RouteTableMessage(resourceType: string): string {
    "Resource type '" + resourceType + "' does not support ARN-based matching. Use ID-based matching instead."
  }

  function NoArnMessage(attributes: Bag, resourceType: string): string {
    "No valid ARN found for resource type '" + resourceType + "'. Available fields: " +
    StrOf(List(seq(|attributes|, i requires 0 <= i < |attributes| => Str(attributes[i].0)))) +
    ". This may indicate an unsupported resource type or a corrupted state file."
  }

  /** The search after the `id` check: the `_arn` fields, then the fields mentioning `arn`. */
  function ScanFields(attributes: Bag): Option<string> {
    match ScanItems(attributes, ArnSuffixed)
    case Some(arn) => Some(arn)
    case None => ScanItems(attributes, MentionsArn)
  }

  /** The search after the `arn`/`Arn`/`ARN` fields. */
  function SearchAfterArnFields(attributes: Bag, resourceType: string): Option<string> {
    var functionArn := Or(GetV(attributes, "invoke_arn"), GetV(attributes, "function_arn"));
    if StartsWith(resourceType, "aws_lambda_function") && IsArn(functionArn) then Some(functionArn.s)
    else if IsArn(GetV(attributes, "id")) then Some(GetV(attributes, "id").s)
    else ScanFields(attributes)
  }

  /** The whole search once route tables are out of the way. */
  function ArnSearch(attributes: Bag, resourceType: string): Option<string> {
    match FirstArnField(attributes, ArnFields)
    case Some(arn) => Some(arn)
    case None => SearchAfterArnFields(attributes, resourceType)
  }

  /** `extract_arn_from_attributes`: route tables are refused outright; otherwise the first
      ARN among `arn`/`Arn`/`ARN`, then (lambda functions only) `invoke_arn or
      function_arn`, then `id`, then the `_arn` fields and finally the fields mentioning
      `arn`, both in insertion order; `ValueError` when there is none. */
  function ExtractArnFromAttributes(attributes: Bag, resourceType: string): (r: Result<string>)
    ensures r.Err? ==> r.error.ValueError?
  {
    if StartsWith(resourceType, "aws_route_table") then Err(ValueError(RouteTableMessage(resourceType)))
    else match ArnSearch(attributes, resourceType)
    case Some(arn) => Ok(arn)
    case None => Err(ValueError(NoArnMessage(attributes, resourceType)))
  }

  // The same search as one ordered list of candidates, the reference for the precedence.

  /** The values of the items whose names satisfy `nameTest`, in insertion order. */
  function ValuesWhere(items: Bag, nameTest: string -> bool): (r: seq<Value>)
    decreases |items|
  {
    if items == [] then []
    else
      var tail: Bag := items[1..];
      (if nameTest(items[0].0) then [items[0].1] else []) + ValuesWhere(tail, nameTest)
  }

  /** Every value the ARN search looks at, in the order it looks. */
  function ArnCandidates(attributes: Bag, resourceType: string): seq<Value> {
    FixedCandidates(attributes) + (LambdaCandidates(attributes, resourceType) + LaterCandidates(attributes))
  }

  function FixedCandidates(attributes: Bag): seq<Value> {
    [GetV(attributes, "arn"), GetV(attributes, "Arn"), GetV(attributes, "ARN")]
  }

  function LambdaCandidates(attributes: Bag, resourceType: string): seq<Value> {
    if StartsWith(resourceType, "aws_lambda_function")
    then [Or(GetV(attributes, "invoke_arn"), GetV(attributes, "function_arn"))] else []
  }

  function LaterCandidates(attributes: Bag): seq<Value> {
    [GetV(attributes, "id")] + (ValuesWhere(attributes, ArnSuffixed) + ValuesWhere(attributes, MentionsArn))
  }

  /** The first ARN of a list of values. */
  function FirstArn(vs: seq<Value>): (r: Option<string>)
    ensures r.Some? ==> exists i :: 0 <= i < |vs| && vs[i] == Str(r.value) && IsArn(vs[i])
    ensures r.None? <==> forall i :: 0 <= i < |vs| ==> !IsArn(vs[i])
  {
    if vs == [] then None
    else if IsArn(vs[0]) then Some(vs[0].s)
    else
      var r := FirstArn(vs[1..]);
      assert forall i :: 0 < i < |vs| ==> vs[1..][i - 1] == vs[i];
      if r.Some? then
        var i :| 0 <= i < |vs[1..]| && vs[1..][i] == Str(r.value) && IsArn(vs[1..][i]);
        assert vs[i + 1] == Str(r.value);
        r
      else r
  }

  lemma FirstArnSingleton(v: Value)
    ensures FirstArn([v]) == if IsArn(v) then Some(v.s) else None
  {
    assert [v][1..] == [];
  }

  lemma {:induction false} FirstArnAppend(a: seq<Value>, b: seq<Value>)
    ensures FirstArn(a + b) == if FirstArn(a).Some? then FirstArn(a) else FirstArn(b)
  {
    if a != [] {
      assert (a + b)[1..] == a[1..] + b;
      FirstArnAppend(a[1..], b);
    } else {
      assert a + b == b;
    }
  }

  lemma {:induction false} ScanItemsIsFirstArn(items: Bag, nameTest: string -> bool)
    ensures ScanItems(items, nameTest) == FirstArn(ValuesWhere(items, nameTest))
    decreases |items|
  {
    if items != [] {
      var tail: Bag := items[1..];
      ScanItemsIsFirstArn(tail, nameTest);
      var first := if nameTest(items[0].0) then [items[0].1] else [];
      FirstArnAppend(first, ValuesWhere(tail, nameTest));
      if nameTest(items[0].0) { FirstArnSingleton(items[0].1); }
    }
  }

  lemma {:induction false} FirstArnFieldIsFirstArn(d: Bag, fields: seq<string>)
    ensures FirstArnField(d, fields) == FirstArn(seq(|fields|, i requires 0 <= i < |fields| => GetV(d, fields[i])))
  {
    var vs := seq(|fields|, i requires 0 <= i < |fields| => GetV(d, fields[i]));
    if fields != [] {
      FirstArnFieldIsFirstArn(d, fields[1..]);
      assert vs[1..] == seq(|fields[1..]|, i requires 0 <= i < |fields[1..]| => GetV(d, fields[1..][i]));
    }
  }

  lemma ScanFieldsIsFirstArn(attributes: Bag)
    ensures ScanFields(attributes) == FirstArn(ValuesWhere(attributes, ArnSuffixed) + ValuesWhere(attributes, MentionsArn))
  {
    ScanItemsIsFirstArn(attributes, ArnSuffixed);
    ScanItemsIsFirstArn(attributes, MentionsArn);
    FirstArnAppend(ValuesWhere(attributes, ArnSuffixed), ValuesWhere(attributes, MentionsArn));
  }

  lemma SearchAfterArnFieldsIsFirstArn(attributes: Bag, resourceType: string)
    ensures SearchAfterArnFields(attributes, resourceType) ==
      FirstArn(LambdaCandidates(attributes, resourceType) + LaterCandidates(attributes))
  {
    ScanFieldsIsFirstArn(attributes);
    FirstArnSingleton(GetV(attributes, "id"));
    FirstArnAppend([GetV(attributes, "id")], ValuesWhere(attributes, ArnSuffixed) + ValuesWhere(attributes, MentionsArn));
    FirstArnAppend(LambdaCandidates(attributes, resourceType), LaterCandidates(attributes));
    if StartsWith(resourceType, "aws_lambda_function") {
      FirstArnSingleton(Or(GetV(attributes, "invoke_arn"), GetV(attributes, "function_arn")));
    }
  }

  /** The precedence of the ARN search: its result is the first ARN among the candidates,
      taken in the order listed by `ArnCandidates`. */
  lemma ArnPrecedence(attributes: Bag, resourceType: string)
    ensures ArnSearch(attributes, resourceType) == FirstArn(ArnCandidates(attributes, resourceType))
  {
    FirstArnFieldIsFirstArn(attributes, ArnFields);
    assert seq(|ArnFields|, i requires 0 <= i < |ArnFields| => GetV(attributes, ArnFields[i])) == FixedCandidates(attributes);
    SearchAfterArnFieldsIsFirstArn(attributes, resourceType);
    FirstArnAppend(FixedCandidates(attributes), LambdaCandidates(attributes, resourceType) + LaterCandidates(attributes));
  }

  /** Apart from route tables, the ARN search fails exactly when no candidate is an ARN. */
  lemma NoArnIsAnError(attributes: Bag, resourceType: string)
    requires !StartsWith(resourceType, "aws_route_table")
    ensures ExtractArnFromAttributes(attributes, resourceType).Err? <==>
      forall v :: v in ArnCandidates(attributes, resourceType) ==> !IsArn(v)
  {
    ArnPrecedence(attributes, resourceType);
  }

  /** Route tables never get an ARN, whatever their attributes. */
  lemma RouteTablesRefused(attributes: Bag, resourceType: string)
    requires StartsWith(resourceType, "aws_route_table")
    ensures ExtractArnFromAttributes(attributes, resourceType) == Err(ValueError(RouteTableMessage(resourceType)))
  {
  }

  lemma {:induction false} ValuesWhereFromItems(items: Bag, nameTest: string -> bool, v: Value)
    requires v in ValuesWhere(items, nameTest)
    ensures exists i :: 0 <= i < |items| && items[i].1 == v
    decreases |items|
  {
    var tail: Bag := items[1..];
    if !(nameTest(items[0].0) && v == items[0].1) {
      ValuesWhereFromItems(tail, nameTest, v);
      var i :| 0 <= i < |tail| && tail[i].1 == v;
      assert items[i + 1].1 == v;
    }
  }

  lemma GetVFromItems(d: Bag, k: string)
    requires GetV(d, k) != Null
    ensures exists i :: 0 <= i < |d| && d[i].1 == GetV(d, k)
  {
    GetFound(d, k);
  }

  /** Every ARN among the candidates is the value of one of the attributes. */
  lemma CandidatesFromItems(attributes: Bag, resourceType: string, v: Value)
    requires v in ArnCandidates(attributes, resourceType) && IsArn(v)
    ensures exists i :: 0 <= i < |attributes| && attributes[i].1 == v
  {
    ArnPrecedence(attributes, resourceType);
    var fixedAndLambda := FixedCandidates(attributes) + LambdaCandidates(attributes, resourceType);
    if v in fixedAndLambda || v == GetV(attributes, "id") {
      if v == GetV(attributes, "arn") { GetVFromItems(attributes, "arn"); }
      else if v == GetV(attributes, "Arn") { GetVFromItems(attributes, "Arn"); }
      else if v == GetV(attributes, "ARN") { GetVFromItems(attributes, "ARN"); }
      else if v == GetV(attributes, "id") { GetVFromItems(attributes, "id"); }
      else if v == GetV(attributes, "invoke_arn") { GetVFromItems(attributes, "invoke_arn"); }
      else { GetVFromItems(attributes, "function_arn"); }
    } else if v in ValuesWhere(attributes, ArnSuffixed) {
      ValuesWhereFromItems(attributes, ArnSuffixed, v);
    } else {
      ValuesWhereFromItems(attributes, MentionsArn, v);
    }
  }

  /** Whatever the search returns is the text of one of the attributes, and starts `arn:aws:`;
      present values that are not such strings are passed over. */
  lemma ArnComesFromAnAttribute(attributes: Bag, resourceType: string)
    requires ExtractArnFromAttributes(attributes, resourceType).Ok?
    ensures StartsWith(ExtractArnFromAttributes(attributes, resourceType).value, "arn:aws:")
    ensures exists i :: (0 <= i < |attributes| &&
      attributes[i].1 == Str(ExtractArnFromAttributes(attributes, resourceType).value))
  {
    ArnPrecedence(attributes, resourceType);
    var cs := ArnCandidates(attributes, resourceType);
    var arn := ExtractArnFromAttributes(attributes, resourceType).value;
    var k :| 0 <= k < |cs| && cs[k] == Str(arn) && IsArn(cs[k]);
    CandidatesFromItems(attributes, resourceType, cs[k]);
  }

  // ---------------------------------------------------------------------------------
  // get_resource_identifier

  /** The identifier record `get_resource_identifier` builds. */
  datatype Identifier = Identifier(primaryIdentifier: string, arn: string, resourceType: string,
                                   resourceName: string, debugInfo: map<string, Value>)

  /** `get_resource_identifier`: the ARN search's error is passed through; otherwise an
      `arn`-primary identifier carrying the ARN found. */
  function GetResourceIdentifier(attributes: Bag, resourceType: string, resourceName: string): (r: Result<Identifier>)
    ensures r.Err? <==> ExtractArnFromAttributes(attributes, resourceType).Err?
    ensures r.Err? ==> r.error == ExtractArnFromAttributes(attributes, resourceType).error
    ensures r.Ok? ==> (r.value.primaryIdentifier == "arn" &&
      r.value.arn == ExtractArnFromAttributes(attributes, resourceType).value &&
      r.value.resourceType == resourceType && r.value.resourceName == resourceName)
  {
    match ExtractArnFromAttributes(attributes, resourceType)
    case Err(e) => Err(e)
    case Ok(arn) =>
      Ok(Identifier("arn", arn, resourceType, resourceName,
        map["name" := GetV(attributes, "name"), "id" := GetV(attributes, "id"),
            "function_name" := GetV(attributes, "function_name"), "role_name" := GetV(attributes, "role_name"),
            "policy_name" := GetV(attributes, "policy_name"), "queue_name" := GetV(attributes, "name")]))
  }

  // ---------------------------------------------------------------------------------
  // API Gateway keys

  /** The method and integration composite parts: `rest_api_id or restApiId`,
      `resource_id or resourceId or id`, `http_method or httpMethod`. */
  function RestApiPart(attributes: Bag): Value {
    Or(GetV(attributes, "rest_api_id"), GetV(attributes, "restApiId"))
  }

  function ResourcePart(attributes: Bag): Value {
    Or(Or(GetV(attributes, "resource_id"), GetV(attributes, "resourceId")), GetV(attributes, "id"))
  }

  function VerbPart(attributes: Bag): Value {
    Or(GetV(attributes, "http_method"), GetV(attributes, "httpMethod"))
  }

  predicate CompositePartsPresent(attributes: Bag) {
    Truthy(RestApiPart(attributes)) && Truthy(ResourcePart(attributes)) && Truthy(VerbPart(attributes))
  }

  /** `extract_apigateway_key`: a truthy `arn`, else a truthy `id`, else the method or
      integration composite when all three parts are truthy, else the positional key. */
  function ExtractApigatewayKey(attributes: Bag, resourceType: string, resourceName: string, idx: int): (r: string)
    ensures Truthy(GetV(attributes, "arn")) ==> r == StrOf(GetV(attributes, "arn"))
    ensures !Truthy(GetV(attributes, "arn")) && Truthy(GetV(attributes, "id")) ==> r == StrOf(GetV(attributes, "id"))
    ensures !Truthy(GetV(attributes, "arn")) && !Truthy(GetV(attributes, "id")) ==>
      r == if resourceType == "aws_api_gateway_method" && CompositePartsPresent(attributes) then
             "agm-" + StrOf(RestApiPart(attributes)) + "-" + StrOf(ResourcePart(attributes)) + "-" + StrOf(VerbPart(attributes))
           else if resourceType == "aws_api_gateway_integration" && CompositePartsPresent(attributes) then
             "apigw_integration:" + StrOf(RestApiPart(attributes)) + ":" + StrOf(ResourcePart(attributes)) + ":" + StrOf(VerbPart(attributes))
           else FallbackKey(resourceType, resourceName, idx)
  {
    var arn := GetV(attributes, "arn");
    var id := GetV(attributes, "id");
    if Truthy(arn) then StrOf(arn)
    else if Truthy(id) then StrOf(id)
    else if resourceType == "aws_api_gateway_method" && CompositePartsPresent(attributes) then
      "agm-" + StrOf(RestApiPart(attributes)) + "-" + StrOf(ResourcePart(attributes)) + "-" + StrOf(VerbPart(attributes))
    else if resourceType == "aws_api_gateway_integration" && CompositePartsPresent(attributes) then
      "apigw_integration:" + StrOf(RestApiPart(attributes)) + ":" + StrOf(ResourcePart(attributes)) + ":" + StrOf(VerbPart(attributes))
    else FallbackKey(resourceType, resourceName, idx)
  }

  const ApigatewayIdFields := ["id", "Id", "ID", "restApiId", "resourceId", "deploymentId", "stageName"]

  /** `extract_hybrid_key_from_apigateway`: a non-empty `resource_id` argument as given,
      else `str()` of the first truthy identifier field, else `{type}.unknown`. */
  function ExtractHybridKeyFromApigateway(resource: Bag, resourceType: string, resourceId: string := ""): (r: string)
    ensures resourceId != "" ==> r == resourceId
    ensures resourceId == "" && FirstTruthy(resource, ApigatewayIdFields).Some? ==>
      r == StrOf(FirstTruthy(resource, ApigatewayIdFields).value)
    ensures resourceId == "" && FirstTruthy(resource, ApigatewayIdFields).None? ==> r == resourceType + ".unknown"
  {
    if resourceId != "" then resourceId
    else match FirstTruthy(resource, ApigatewayIdFields)
    case Some(v) => StrOf(v)
    case None => resourceType + ".unknown"
  }

  // ---------------------------------------------------------------------------------
  // get_live_aws_resources

  /** True when `resourceType` is one of the six API Gateway kinds keyed by
      `extract_apigateway_key`. */
  predicate IsApigatewayKind(resourceType: string) {
    StartsWith(resourceType, "aws_api_gateway_rest_api") || StartsWith(resourceType, "aws_api_gateway_resource") ||
    StartsWith(resourceType, "aws_api_gateway_method") || StartsWith(resourceType, "aws_api_gateway_integration") ||
    StartsWith(resourceType, "aws_api_gateway_deployment") || StartsWith(resourceType, "aws_api_gateway_stage")
  }

  /** The API Gateway kinds other than the two special-cased types are keyed by
      `ExtractApigatewayKey`. */
  lemma ApigatewayKindsKeyedByExtract(t: string, name: string, idx: int, attributes: Bag)
    requires IsApigatewayKind(t)
    requires t != "aws_route_table_association" && t != "aws_iam_role_policy_attachment"
    ensures BaseLiveKey(t, name, idx, attributes) == ExtractApigatewayKey(attributes, t, name, idx)
  {
  }

  /** The key an instance gets before any per-service adjustment. */
  function BaseLiveKey(resourceType: string, resourceName: string, idx: int, attributes: Bag): (r: string)
  {
    if resourceType == "aws_route_table_association" then
      var associationId := GetV(attributes, "id");
      if Truthy(associationId) then StrOf(associationId) else FallbackKey(resourceType, resourceName, idx)
    else if resourceType == "aws_iam_role_policy_attachment" then
      var role := GetV(attributes, "role");
      var policyArn := GetV(attributes, "policy_arn");
      if Truthy(role) && Truthy(policyArn) then StrOf(role) + "/" + StrOf(policyArn)
      else FallbackKey(resourceType, resourceName, idx)
    else if IsApigatewayKind(resourceType) then
      ExtractApigatewayKey(attributes, resourceType, resourceName, idx)
    else
      match ExtractArnFromAttributes(attributes, resourceType)
      case Ok(arn) => arn
      case Err(_) => FallbackKey(resourceType, resourceName, idx)
  }

  /** The service fetchers the orchestration routes to. */
  datatype Service =
    | Ec2 | S3 | Rds | Dynamodb | Lambda | Iam | Events | Ecs
    | ApigatewayResource | Apigateway | Cloudwatch | DataSource | Sqs

  /** One call of a service fetcher: the key, the state attributes and, for the fetchers
      that take it, the resource type. */
  datatype FetchCall = FetchCall(service: Service, key: string, attributes: Bag, resourceType: Option<string>)

  /** The service fetchers, as seen from here: a call gives the dict of live resources it
      found, keyed as the fetcher pleases. */
  type Fetch = FetchCall -> Dict<Bag>

  /** `attributes.get(field, "")` */
  function GetOrEmpty(attributes: Bag, field: string): Value {
    GetOr(attributes, field, Str(""))
  }

  /** The event-target composite `event_target:{bus}:{rule}:{arn}`. */
  function EventTargetKey(attributes: Bag): string {
    "event_target:" + StrOf(GetOrEmpty(attributes, "event_bus_name")) + ":" + StrOf(GetOrEmpty(attributes, "rule")) +
    ":" + StrOf(GetOrEmpty(attributes, "arn"))
  }

  /** A lambda function name as keys use it: an ARN is cut to its last `:` segment. A name
      that is not a string cannot be asked `startswith` and raises. */
  function PermissionFunctionName(functionName: Value): (r: Result<string>)
    ensures r.Err? <==> !functionName.Str?
    ensures r.Ok? && !StartsWith(functionName.s, "arn:aws:lambda:") ==> r.value == functionName.s
    ensures r.Ok? && StartsWith(functionName.s, "arn:aws:lambda:") ==> r.value == AfterLast(functionName.s, ':')
  {
    if !functionName.Str? then Err(NoAttribute(functionName, "startswith"))
    else if StartsWith(functionName.s, "arn:aws:lambda:") then Ok(AfterLast(functionName.s, ':'))
    else Ok(functionName.s)
  }

  /** The lambda-permission composite `lambda_permission:{function}:{statement}`. */
  function LambdaPermissionKey(attributes: Bag): Result<string> {
    match PermissionFunctionName(GetOrEmpty(attributes, "function_name"))
    case Err(e) => Err(e)
    case Ok(functionName) =>
      Ok("lambda_permission:" + functionName + ":" + StrOf(GetOrEmpty(attributes, "statement_id")))
  }

  /** The SQS suffix: a truthy `name` is appended after `_`, a URL cut to its last `/`
      segment first. */
  function SqsLiveKey(key: string, attributes: Bag): Result<string> {
    var queueName := GetOrEmpty(attributes, "name");
    if !Truthy(queueName) then Ok(key)
    else if !queueName.Str? then Err(NoAttribute(queueName, "startswith"))
    else if StartsWith(queueName.s, "https://") then Ok(key + "_" + AfterLast(queueName.s, '/'))
    else Ok(key + "_" + queueName.s)
  }

  /** The event-rule suffix: a truthy `event_bus_name` is appended after `_`. */
  function EventRuleKey(key: string, attributes: Bag): string {
    var busName := GetOrEmpty(attributes, "event_bus_name");
    if Truthy(busName) then key + "_" + StrOf(busName) else key
  }

  predicate IsIamKind(t: string) {
    StartsWith(t, "aws_iam_role_policy") || StartsWith(t, "aws_iam_role") || StartsWith(t, "aws_iam_policy") ||
    StartsWith(t, "aws_iam_openid_connect_provider") || StartsWith(t, "aws_iam_role_policy_attachment")
  }

  predicate IsEcsKind(t: string) {
    StartsWith(t, "aws_ecs_cluster") || StartsWith(t, "aws_ecs_service") || StartsWith(t, "aws_ecs_task_definition")
  }

  predicate IsNetworkKind(t: string) {
    StartsWith(t, "aws_vpc") || StartsWith(t, "aws_security_group") || StartsWith(t, "aws_subnet") ||
    StartsWith(t, "aws_internet_gateway") || StartsWith(t, "aws_route_table") ||
    StartsWith(t, "aws_route_table_association")
  }

  predicate IsOtherApigatewayKind(t: string) {
    StartsWith(t, "aws_api_gateway_rest_api") || StartsWith(t, "aws_api_gateway_method") ||
    StartsWith(t, "aws_api_gateway_integration") || StartsWith(t, "aws_api_gateway_deployment") ||
    StartsWith(t, "aws_api_gateway_stage")
  }

  predicate IsCloudwatchKind(t: string) {
    StartsWith(t, "aws_cloudwatch_dashboard") || StartsWith(t, "aws_cloudwatch_metric_alarm") ||
    StartsWith(t, "aws_cloudwatch_log_group")
  }

  /** The branches of the routing chain, in the order they are tried. */
  datatype Route =
    | InstanceRoute | S3Route | RdsRoute | DynamodbRoute | LambdaFunctionRoute | IamRoute
    | EventRuleRoute | EventTargetRoute | EventBusRoute | LambdaPermissionRoute | EcsRoute | NetworkRoute
    | ApigatewayResourceRoute | ApigatewayRoute | CloudwatchRoute | DataSourceRoute | SqsRoute | NoRoute

  /** The first branch of the routing chain whose test `resourceType` passes. */
  function RouteOf(t: string): Route {
    if StartsWith(t, "aws_instance") then InstanceRoute
    else if StartsWith(t, "aws_s3_bucket") then S3Route
    else if StartsWith(t, "aws_db_instance") then RdsRoute
    else if StartsWith(t, "aws_dynamodb_table") then DynamodbRoute
    else if StartsWith(t, "aws_lambda_function") then LambdaFunctionRoute
    else if IsIamKind(t) then IamRoute
    else if StartsWith(t, "aws_cloudwatch_event_rule") then EventRuleRoute
    else if StartsWith(t, "aws_cloudwatch_event_target") then EventTargetRoute
    else if StartsWith(t, "aws_cloudwatch_event_bus") then EventBusRoute
    else if StartsWith(t, "aws_lambda_permission") then LambdaPermissionRoute
    else if IsEcsKind(t) then EcsRoute
    else if IsNetworkKind(t) then NetworkRoute
    else if t == "aws_api_gateway_resource" then ApigatewayResourceRoute
    else if IsOtherApigatewayKind(t) then ApigatewayRoute
    else if IsCloudwatchKind(t) then CloudwatchRoute
    else if StartsWith(t, "aws_region") || StartsWith(t, "aws_caller_identity") then DataSourceRoute
    else if StartsWith(t, "aws_sqs_queue") then SqsRoute
    else NoRoute
  }

  /** The routing of one instance: which fetcher is called and with which key, `None` for
      a type no fetcher serves, or the error the key adjustment raises. */
  function FetchRequest(resourceType: string, resourceName: string, idx: int, attributes: Bag): Result<Option<FetchCall>> {
    CallFor(RouteOf(resourceType), BaseLiveKey(resourceType, resourceName, idx, attributes), resourceType, attributes)
  }

  /** The call one routing branch makes, given the instance's key before adjustment. */
  function CallFor(route: Route, key: string, t: string, attributes: Bag): Result<Option<FetchCall>> {
    match route
    case InstanceRoute => Ok(Some(FetchCall(Ec2, key, attributes, None)))
    case S3Route => Ok(Some(FetchCall(S3, key, attributes, None)))
    case RdsRoute => Ok(Some(FetchCall(Rds, key, attributes, None)))
    case DynamodbRoute => Ok(Some(FetchCall(Dynamodb, key, attributes, None)))
    case LambdaFunctionRoute => Ok(Some(FetchCall(Lambda, key, attributes, None)))
    case IamRoute => Ok(Some(FetchCall(Iam, key, attributes, Some(t))))
    case EventRuleRoute => Ok(Some(FetchCall(Events, EventRuleKey(key, attributes), attributes, Some(t))))
    case EventTargetRoute => Ok(Some(FetchCall(Events, EventTargetKey(attributes), attributes, Some(t))))
    case EventBusRoute => Ok(Some(FetchCall(Events, key, attributes, Some(t))))
    case LambdaPermissionRoute =>
      (match LambdaPermissionKey(attributes)
       case Err(e) => Err(e)
       case Ok(composite) => Ok(Some(FetchCall(Lambda, composite, attributes, Some(t)))))
    case EcsRoute => Ok(Some(FetchCall(Ecs, key, attributes, Some(t))))
    case NetworkRoute => Ok(Some(FetchCall(Ec2, key, attributes, Some(t))))
    case ApigatewayResourceRoute => Ok(Some(FetchCall(ApigatewayResource, key, attributes, None)))
    case ApigatewayRoute => Ok(Some(FetchCall(Apigateway, key, attributes, None)))
    case CloudwatchRoute => Ok(Some(FetchCall(Cloudwatch, key, attributes, Some(t))))
    case DataSourceRoute => Ok(Some(FetchCall(DataSource, key, attributes, Some(t))))
    case SqsRoute =>
      (match SqsLiveKey(key, attributes)
       case Err(e) => Err(e)
       case Ok(sqsKey) => Ok(Some(FetchCall(Sqs, sqsKey, attributes, None))))
    case NoRoute => Ok(None)
  }

  lemma RouteOfEventRule(t: string)
    requires StartsWith(t, "aws_cloudwatch_event_rule")
    ensures RouteOf(t) == EventRuleRoute
  {
    DiffersAt(t, "aws_cloudwatch_event_rule", "aws_instance", 4);
    DiffersAt(t, "aws_cloudwatch_event_rule", "aws_s3_bucket", 4);
    DiffersAt(t, "aws_cloudwatch_event_rule", "aws_db_instance", 4);
    DiffersAt(t, "aws_cloudwatch_event_rule", "aws_dynamodb_table", 4);
    DiffersAt(t, "aws_cloudwatch_event_rule", "aws_lambda_function", 4);
    DiffersAt(t, "aws_cloudwatch_event_rule", "aws_iam_role_policy", 4);
    DiffersAt(t, "aws_cloudwatch_event_rule", "aws_iam_role", 4);
    DiffersAt(t, "aws_cloudwatch_event_rule", "aws_iam_policy", 4);
    DiffersAt(t, "aws_cloudwatch_event_rule", "aws_iam_openid_connect_provider", 4);
    DiffersAt(t, "aws_cloudwatch_event_rule", "aws_iam_role_policy_attachment", 4);
  }

  lemma RouteOfEventTarget(t: string)
    requires StartsWith(t, "aws_cloudwatch_event_target")
    ensures RouteOf(t) == EventTargetRoute
  {
    DiffersAt(t, "aws_cloudwatch_event_target", "aws_instance", 4);
    DiffersAt(t, "aws_cloudwatch_event_target", "aws_s3_bucket", 4);
    DiffersAt(t, "aws_cloudwatch_event_target", "aws_db_instance", 4);
    DiffersAt(t, "aws_cloudwatch_event_target", "aws_dynamodb_table", 4);
    DiffersAt(t, "aws_cloudwatch_event_target", "aws_lambda_function", 4);
    DiffersAt(t, "aws_cloudwatch_event_target", "aws_iam_role_policy", 4);
    DiffersAt(t, "aws_cloudwatch_event_target", "aws_iam_role", 4);
    DiffersAt(t, "aws_cloudwatch_event_target", "aws_iam_policy", 4);
    DiffersAt(t, "aws_cloudwatch_event_target", "aws_iam_openid_connect_provider", 4);
    DiffersAt(t, "aws_cloudwatch_event_target", "aws_iam_role_policy_attachment", 4);
    DiffersAt(t, "aws_cloudwatch_event_target", "aws_cloudwatch_event_rule", 21);
  }

  lemma RouteOfLambdaPermission(t: string)
    requires StartsWith(t, "aws_lambda_permission")
    ensures RouteOf(t) == LambdaPermissionRoute
  {
    DiffersAt(t, "aws_lambda_permission", "aws_instance", 4);
    DiffersAt(t, "aws_lambda_permission", "aws_s3_bucket", 4);
    DiffersAt(t, "aws_lambda_permission", "aws_db_instance", 4);
    DiffersAt(t, "aws_lambda_permission", "aws_dynamodb_table", 4);
    DiffersAt(t, "aws_lambda_permission", "aws_lambda_function", 11);
    DiffersAt(t, "aws_lambda_permission", "aws_iam_role_policy", 4);
    DiffersAt(t, "aws_lambda_permission", "aws_iam_role", 4);
    DiffersAt(t, "aws_lambda_permission", "aws_iam_policy", 4);
    DiffersAt(t, "aws_lambda_permission", "aws_iam_openid_connect_provider", 4);
    DiffersAt(t, "aws_lambda_permission", "aws_iam_role_policy_attachment", 4);
    DiffersAt(t, "aws_lambda_permission", "aws_cloudwatch_event_rule", 4);
    DiffersAt(t, "aws_lambda_permission", "aws_cloudwatch_event_target", 4);
    DiffersAt(t, "aws_lambda_permission", "aws_cloudwatch_event_bus", 4);
  }

  /** The grouped tests of the routing chain all fail on an SQS kind. */
  lemma SqsOutsideGroups(t: string)
    requires StartsWith(t, "aws_sqs_queue")
    ensures !IsIamKind(t) && !IsEcsKind(t) && !IsNetworkKind(t) && !IsOtherApigatewayKind(t) && !IsCloudwatchKind(t)
  {
    DiffersAt(t, "aws_sqs_queue", "aws_iam_role_policy", 4);
    DiffersAt(t, "aws_sqs_queue", "aws_iam_role", 4);
    DiffersAt(t, "aws_sqs_queue", "aws_iam_policy", 4);
    DiffersAt(t, "aws_sqs_queue", "aws_iam_openid_connect_provider", 4);
    DiffersAt(t, "aws_sqs_queue", "aws_iam_role_policy_attachment", 4);
    DiffersAt(t, "aws_sqs_queue", "aws_ecs_cluster", 4);
    DiffersAt(t, "aws_sqs_queue", "aws_ecs_service", 4);
    DiffersAt(t, "aws_sqs_queue", "aws_ecs_task_definition", 4);
    DiffersAt(t, "aws_sqs_queue", "aws_vpc", 4);
    DiffersAt(t, "aws_sqs_queue", "aws_security_group", 5);
    DiffersAt(t, "aws_sqs_queue", "aws_subnet", 5);
    DiffersAt(t, "aws_sqs_queue", "aws_internet_gateway", 4);
    DiffersAt(t, "aws_sqs_queue", "aws_route_table", 4);
    DiffersAt(t, "aws_sqs_queue", "aws_route_table_association", 4);
    DiffersAt(t, "aws_sqs_queue", "aws_api_gateway_rest_api", 4);
    DiffersAt(t, "aws_sqs_queue", "aws_api_gateway_method", 4);
    DiffersAt(t, "aws_sqs_queue", "aws_api_gateway_integration", 4);
    DiffersAt(t, "aws_sqs_queue", "aws_api_gateway_deployment", 4);
    DiffersAt(t, "aws_sqs_queue", "aws_api_gateway_stage", 4);
    DiffersAt(t, "aws_sqs_queue", "aws_cloudwatch_dashboard", 4);
    DiffersAt(t, "aws_sqs_queue", "aws_cloudwatch_metric_alarm", 4);
    DiffersAt(t, "aws_sqs_queue", "aws_cloudwatch_log_group", 4);
  }

  lemma RouteOfSqs(t: string)
    requires StartsWith(t, "aws_sqs_queue")
    ensures RouteOf(t) == SqsRoute
  {
    SqsOutsideGroups(t);
    DiffersAt(t, "aws_sqs_queue", "aws_instance", 4);
    DiffersAt(t, "aws_sqs_queue", "aws_s3_bucket", 5);
    DiffersAt(t, "aws_sqs_queue", "aws_db_instance", 4);
    DiffersAt(t, "aws_sqs_queue", "aws_dynamodb_table", 4);
    DiffersAt(t, "aws_sqs_queue", "aws_lambda_function", 4);
    DiffersAt(t, "aws_sqs_queue", "aws_cloudwatch_event_rule", 4);
    DiffersAt(t, "aws_sqs_queue", "aws_cloudwatch_event_target", 4);
    DiffersAt(t, "aws_sqs_queue", "aws_cloudwatch_event_bus", 4);
    DiffersAt(t, "aws_sqs_queue", "aws_lambda_permission", 4);
    DiffersAt(t, "aws_sqs_queue", "aws_region", 4);
    DiffersAt(t, "aws_sqs_queue", "aws_caller_identity", 4);
  }

  lemma RouteOfRouteTable(t: string)
    requires StartsWith(t, "aws_route_table")
    ensures RouteOf(t) == NetworkRoute
  {
    DiffersAt(t, "aws_route_table", "aws_instance", 4);
    DiffersAt(t, "aws_route_table", "aws_s3_bucket", 4);
    DiffersAt(t, "aws_route_table", "aws_db_instance", 4);
    DiffersAt(t, "aws_route_table", "aws_dynamodb_table", 4);
    DiffersAt(t, "aws_route_table", "aws_lambda_function", 4);
    DiffersAt(t, "aws_route_table", "aws_iam_role_policy", 4);
    DiffersAt(t, "aws_route_table", "aws_iam_role", 4);
    DiffersAt(t, "aws_route_table", "aws_iam_policy", 4);
    DiffersAt(t, "aws_route_table", "aws_iam_openid_connect_provider", 4);
    DiffersAt(t, "aws_route_table", "aws_iam_role_policy_attachment", 4);
    DiffersAt(t, "aws_route_table", "aws_cloudwatch_event_rule", 4);
    DiffersAt(t, "aws_route_table", "aws_cloudwatch_event_target", 4);
    DiffersAt(t, "aws_route_table", "aws_cloudwatch_event_bus", 4);
    DiffersAt(t, "aws_route_table", "aws_lambda_permission", 4);
    DiffersAt(t, "aws_route_table", "aws_ecs_cluster", 4);
    DiffersAt(t, "aws_route_table", "aws_ecs_service", 4);
    DiffersAt(t, "aws_route_table", "aws_ecs_task_definition", 4);
    DiffersAt(t, "aws_route_table", "aws_vpc", 4);
    DiffersAt(t, "aws_route_table", "aws_security_group", 4);
    DiffersAt(t, "aws_route_table", "aws_subnet", 4);
    DiffersAt(t, "aws_route_table", "aws_internet_gateway", 4);
  }

  /** One instance's step: the routed fetcher's result is merged into the live map. */
  function InstanceStep(fetch: Fetch, live: Dict<Bag>, resourceType: string, resourceName: string, idx: int, attributes: Bag): Result<Dict<Bag>> {
    match FetchRequest(resourceType, resourceName, idx, attributes)
    case Err(e) => Err(e)
    case Ok(None) => Ok(live)
    case Ok(Some(call)) => Ok(Update(live, fetch(call)))
  }

  /** The step the orchestration takes for each instance, as a value the folds below are
      parameterised by. */
  type Step = (Dict<Bag>, string, string, int, Bag) -> Result<Dict<Bag>>

  function Stepper(fetch: Fetch): Step {
    (live: Dict<Bag>, resourceType: string, resourceName: string, idx: int, attributes: Bag) =>
      InstanceStep(fetch, live, resourceType, resourceName, idx, attributes)
  }

  /** The live map after the first `count` instances of `resource`, starting from `live`. */
  function AfterInstances(step: Step, live: Dict<Bag>, resource: Resource, count: nat): Result<Dict<Bag>>
    requires count <= |Instances(resource)|
  {
    if count == 0 then Ok(live)
    else match AfterInstances(step, live, resource, count - 1)
    case Err(e) => Err(e)
    case Ok(d) => step(d, resource.rtype, resource.name, count - 1, Instances(resource)[count - 1])
  }

  /** The live map after the first `count` resource blocks. */
  function AfterResources(step: Step, resources: seq<Resource>, count: nat): Result<Dict<Bag>>
    requires count <= |resources|
  {
    if count == 0 then var empty: Dict<Bag> := []; Ok(empty)
    else match AfterResources(step, resources, count - 1)
    case Err(e) => Err(e)
    case Ok(d) => AfterInstances(step, d, resources[count - 1], |Instances(resources[count - 1])|)
  }

  /** An error raised by one instance is the outcome of the whole block. */
  lemma {:induction false} InstanceErrorPersists(step: Step, live: Dict<Bag>, resource: Resource, k: nat, n: nat)
    requires k <= n <= |Instances(resource)|
    requires AfterInstances(step, live, resource, k).Err?
    ensures AfterInstances(step, live, resource, n) == AfterInstances(step, live, resource, k)
    decreases n
  {
    if n > k {
      InstanceErrorPersists(step, live, resource, k, n - 1);
    }
  }

  /** An error raised in one block is the outcome of the whole run. */
  lemma {:induction false} ResourceErrorPersists(step: Step, resources: seq<Resource>, k: nat, n: nat)
    requires k <= n <= |resources|
    requires AfterResources(step, resources, k).Err?
    ensures AfterResources(step, resources, n) == AfterResources(step, resources, k)
    decreases n
  {
    if n > k {
      ResourceErrorPersists(step, resources, k, n - 1);
    }
  }

  /** The inner loop of `get_live_aws_resources`: the instances of one block, in order. */
  method FetchBlock(step: Step, live0: Dict<Bag>, resource: Resource) returns (r: Result<Dict<Bag>>)
    ensures r == AfterInstances(step, live0, resource, |Instances(resource)|)
  {
    var live := live0;
    var instances := Instances(resource);
    var j := 0;
    while j < |instances|
      invariant 0 <= j <= |instances|
      invariant AfterInstances(step, live0, resource, j) == Ok(live)
    {
      var next := step(live, resource.rtype, resource.name, j, instances[j]);
      if next.Err? {
        InstanceErrorPersists(step, live0, resource, j + 1, |instances|);
        return next;
      }
      live := next.value;
      j := j + 1;
    }
    return Ok(live);
  }

  /** `get_live_aws_resources`: every instance of every block, in state order, is keyed,
      routed, and its fetcher's result merged into one dict; a raised error ends the run. */
  method GetLiveAwsResources(fetch: Fetch, resources: seq<Resource>) returns (r: Result<Dict<Bag>>)
    ensures r == AfterResources(Stepper(fetch), resources, |resources|)
  {
    r := FetchBlocks(Stepper(fetch), resources);
  }

  /** The outer loop of `get_live_aws_resources`, for any per-instance step. */
  method FetchBlocks(step: Step, resources: seq<Resource>) returns (r: Result<Dict<Bag>>)
    ensures r == AfterResources(step, resources, |resources|)
  {
    var live: Dict<Bag> := [];
    var i := 0;
    while i < |resources|
      invariant 0 <= i <= |resources|
      invariant AfterResources(step, resources, i) == Ok(live)
    {
      var block := FetchBlock(step, live, resources[i]);
      if block.Err? {
        ResourceErrorPersists(step, resources, i + 1, |resources|);
        return block;
      }
      live := block.value;
      i := i + 1;
    }
    return Ok(live);
  }

  /** A block without instances contributes nothing. */
  lemma BlocksWithoutInstancesSkipped(fetch: Fetch, resources: seq<Resource>, count: nat)
    requires 0 < count <= |resources| && Instances(resources[count - 1]) == []
    ensures AfterResources(Stepper(fetch), resources, count) == AfterResources(Stepper(fetch), resources, count - 1)
  {
  }

  // Live keys, kind by kind.

  lemma NotApigatewayKind(t: string)
    requires StartsWith(t, "aws_route_table")
    ensures !IsApigatewayKind(t)
  {
    DiffersAt(t, "aws_route_table", "aws_api_gateway_rest_api", 4);
    DiffersAt(t, "aws_route_table", "aws_api_gateway_resource", 4);
    DiffersAt(t, "aws_route_table", "aws_api_gateway_method", 4);
    DiffersAt(t, "aws_route_table", "aws_api_gateway_integration", 4);
    DiffersAt(t, "aws_route_table", "aws_api_gateway_deployment", 4);
    DiffersAt(t, "aws_route_table", "aws_api_gateway_stage", 4);
  }

  /** Plain route tables (not associations) are refused by the ARN search and so always get
      the positional key. */
  lemma RouteTablesGetFallbackKey(resourceType: string, resourceName: string, idx: int, attributes: Bag)
    requires StartsWith(resourceType, "aws_route_table") && resourceType != "aws_route_table_association"
    ensures BaseLiveKey(resourceType, resourceName, idx, attributes) == FallbackKey(resourceType, resourceName, idx)
    ensures FetchRequest(resourceType, resourceName, idx, attributes) ==
      Ok(Some(FetchCall(Ec2, FallbackKey(resourceType, resourceName, idx), attributes, Some(resourceType))))
  {
    RouteTableBaseKey(resourceType, resourceName, idx, attributes);
    RouteOfRouteTable(resourceType);
    FetchRoutedToNetwork(resourceType, resourceName, idx, attributes);
  }

  lemma RouteTableBaseKey(resourceType: string, resourceName: string, idx: int, attributes: Bag)
    requires StartsWith(resourceType, "aws_route_table") && resourceType != "aws_route_table_association"
    ensures BaseLiveKey(resourceType, resourceName, idx, attributes) == FallbackKey(resourceType, resourceName, idx)
  {
    NotApigatewayKind(resourceType);
    DiffersAt(resourceType, "aws_route_table", "aws_iam_role_policy_attachment", 4);
    assert StartsWith("aws_iam_role_policy_attachment", "aws_iam_role_policy_attachment");
    OtherKindsKeyedByArn(resourceType, resourceName, idx, attributes);
    RouteTablesRefused(attributes, resourceType);
  }

  lemma FetchRoutedToNetwork(resourceType: string, resourceName: string, idx: int, attributes: Bag)
    requires RouteOf(resourceType) == NetworkRoute
    ensures FetchRequest(resourceType, resourceName, idx, attributes) ==
      Ok(Some(FetchCall(Ec2, BaseLiveKey(resourceType, resourceName, idx, attributes), attributes, Some(resourceType))))
  {
  }

  lemma FetchRoutedToLambdaPermission(resourceType: string, resourceName: string, idx: int, attributes: Bag)
    requires RouteOf(resourceType) == LambdaPermissionRoute
    ensures FetchRequest(resourceType, resourceName, idx, attributes) ==
      match LambdaPermissionKey(attributes)
      case Err(e) => Err(e)
      case Ok(composite) => Ok(Some(FetchCall(Lambda, composite, attributes, Some(resourceType))))
  {
  }

  lemma FetchRoutedToSqs(resourceType: string, resourceName: string, idx: int, attributes: Bag)
    requires RouteOf(resourceType) == SqsRoute
    ensures FetchRequest(resourceType, resourceName, idx, attributes) ==
      match SqsLiveKey(BaseLiveKey(resourceType, resourceName, idx, attributes), attributes)
      case Err(e) => Err(e)
      case Ok(key) => Ok(Some(FetchCall(Sqs, key, attributes, None)))
  {
  }

  /** A route-table association is keyed by its truthy `id`, else positionally. */
  lemma RouteTableAssociationKey(resourceName: string, idx: int, attributes: Bag)
    ensures BaseLiveKey("aws_route_table_association", resourceName, idx, attributes) ==
      if Truthy(GetV(attributes, "id")) then StrOf(GetV(attributes, "id"))
      else FallbackKey("aws_route_table_association", resourceName, idx)
  {
  }

  /** A role-policy attachment is keyed `{role}/{policy_arn}` when both are truthy. */
  lemma RolePolicyAttachmentKey(resourceName: string, idx: int, attributes: Bag)
    ensures BaseLiveKey("aws_iam_role_policy_attachment", resourceName, idx, attributes) ==
      if Truthy(GetV(attributes, "role")) && Truthy(GetV(attributes, "policy_arn"))
      then StrOf(GetV(attributes, "role")) + "/" + StrOf(GetV(attributes, "policy_arn"))
      else FallbackKey("aws_iam_role_policy_attachment", resourceName, idx)
  {
  }

  /** Every other kind outside API Gateway is keyed by its ARN, a failed search falling back
      to the positional key. */
  lemma OtherKindsKeyedByArn(resourceType: string, resourceName: string, idx: int, attributes: Bag)
    requires resourceType != "aws_route_table_association" && resourceType != "aws_iam_role_policy_attachment"
    requires !IsApigatewayKind(resourceType)
    ensures BaseLiveKey(resourceType, resourceName, idx, attributes) ==
      match ExtractArnFromAttributes(attributes, resourceType)
      case Ok(arn) => arn
      case Err(_) => FallbackKey(resourceType, resourceName, idx)
  {
  }

  /** An event rule's key gets `_{event_bus_name}` appended when the bus name is truthy. */
  lemma EventRuleKeySuffixed(resourceType: string, resourceName: string, idx: int, attributes: Bag)
    requires StartsWith(resourceType, "aws_cloudwatch_event_rule")
    ensures FetchRequest(resourceType, resourceName, idx, attributes) ==
      Ok(Some(FetchCall(Events, EventRuleKey(BaseLiveKey(resourceType, resourceName, idx, attributes), attributes),
                        attributes, Some(resourceType))))
  {
    RouteOfEventRule(resourceType);
  }

  /** An event target is fetched under the composite `event_target:{bus}:{rule}:{arn}`. */
  lemma EventTargetKeyComposite(resourceType: string, resourceName: string, idx: int, attributes: Bag)
    requires StartsWith(resourceType, "aws_cloudwatch_event_target")
    ensures FetchRequest(resourceType, resourceName, idx, attributes) ==
      Ok(Some(FetchCall(Events, EventTargetKey(attributes), attributes, Some(resourceType))))
  {
    RouteOfEventTarget(resourceType);
  }

  /** A lambda permission is fetched under `lambda_permission:{function}:{statement}`, an
      ARN function name cut to its last `:` segment. */
  lemma LambdaPermissionKeyComposite(resourceType: string, resourceName: string, idx: int, attributes: Bag)
    requires StartsWith(resourceType, "aws_lambda_permission")
    ensures FetchRequest(resourceType, resourceName, idx, attributes) ==
      match LambdaPermissionKey(attributes)
      case Err(e) => Err(e)
      case Ok(composite) => Ok(Some(FetchCall(Lambda, composite, attributes, Some(resourceType))))
  {
    RouteOfLambdaPermission(resourceType);
    FetchRoutedToLambdaPermission(resourceType, resourceName, idx, attributes);
  }

  /** An SQS kind's key gets `_{name}` appended when the name is truthy, a URL cut to its
      last `/` segment. */
  lemma SqsKeySuffixed(resourceType: string, resourceName: string, idx: int, attributes: Bag)
    requires StartsWith(resourceType, "aws_sqs_queue")
    ensures FetchRequest(resourceType, resourceName, idx, attributes) ==
      match SqsLiveKey(BaseLiveKey(resourceType, resourceName, idx, attributes), attributes)
      case Err(e) => Err(e)
      case Ok(key) => Ok(Some(FetchCall(Sqs, key, attributes, None)))
  {
    RouteOfSqs(resourceType);
    FetchRoutedToSqs(resourceType, resourceName, idx, attributes);
  }
}
