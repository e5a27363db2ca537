/** Where the independent implementations of identity keying agree and where they provably
    do not. Four implementations are compared: the aggregation path's state keys
    (`Core.StateKeyOf`), the comparator path's state keys (`ComparatorsBase.StateKey`), the
    keys the fetch orchestration passes to the fetchers (`FetchersBase.FetchRequest`) and
    the hybrid keys of the EC2 and SQS fetchers. A drift is only ever looked for under a key
    both sides compute, so each disagreement below is a resource that is reported missing or
    left unmatched however the account looks. */
module KeyAgreement {
  import opened Text
  import opened Python
  import opened Keys
  import opened FetchersBase
  import ComparatorsBase
  import Core
  import Ec2InstancesFetcher
  import SqsFetchers

  // ---------------------------------------------------------------------------------
  // Agreements

  /** Outside its two composite kinds, the aggregation path's key is the EC2 fetcher's
      hybrid key once rendered by `str`: the same ARN fields, then the same id fields, in
      the same order, falsy values skipped alike, and the same positional fallback. */
  lemma CoreKeyIsHybridKey(t: string, name: string, idx: int, attributes: Bag)
    requires t != "aws_lambda_permission" && t != "aws_api_gateway_deployment"
    ensures StrOf(Core.StateKeyOf(t, name, idx, attributes)) ==
      Ec2InstancesFetcher.ExtractHybridKeyFromAttributes(attributes, t, name, idx)
  {
    assert Core.ArnFields == Ec2InstancesFetcher.HybridArnFields;
    assert Core.IdFields == Ec2InstancesFetcher.HybridIdFields;
  }

  /** Kinds with neither a composite state key nor a live-key rule of their own are looked
      up by the comparator path under exactly the key the fetchers are asked for. */
  lemma PlainKindsAgree(t: string, name: string, idx: int, attributes: Bag)
    requires !ComparatorsBase.IsCompositeKind(t)
    requires t != "aws_route_table_association" && t != "aws_iam_role_policy_attachment"
    ensures ComparatorsBase.StateKey(t, name, idx, attributes) == Ok(BaseLiveKey(t, name, idx, attributes))
  {
    ComparatorsBase.GenericStateKeys(t, name, idx, attributes);
    OtherKindsKeyedByArn(t, name, idx, attributes);
  }

  /** An event target is fetched under the very composite the comparator path looks it up
      under. */
  lemma EventTargetKeysAgree(t: string, name: string, idx: int, attributes: Bag)
    requires StartsWith(t, "aws_cloudwatch_event_target")
    ensures ComparatorsBase.StateKey(t, name, idx, attributes).Ok?
    ensures FetchRequest(t, name, idx, attributes) ==
      Ok(Some(FetchCall(Events, ComparatorsBase.StateKey(t, name, idx, attributes).value, attributes, Some(t))))
  {
    EventTargetKeyComposite(t, name, idx, attributes);
    ComparatorsBase.EventTargetStateKeyComposite(t, name, idx, attributes);
  }

  /** A lambda permission is fetched under the comparator path's composite, ARN function
      names cut alike; a function name that is not a string makes both raise the same
      error. */
  lemma LambdaPermissionKeysAgree(t: string, name: string, idx: int, attributes: Bag)
    requires StartsWith(t, "aws_lambda_permission")
    ensures ComparatorsBase.StateKey(t, name, idx, attributes).Err? ==>
      FetchRequest(t, name, idx, attributes) == Err(ComparatorsBase.StateKey(t, name, idx, attributes).error)
    ensures ComparatorsBase.StateKey(t, name, idx, attributes).Ok? ==>
      FetchRequest(t, name, idx, attributes) ==
      Ok(Some(FetchCall(Lambda, ComparatorsBase.StateKey(t, name, idx, attributes).value, attributes, Some(t))))
  {
    LambdaPermissionKeyComposite(t, name, idx, attributes);
    ComparatorsBase.PermissionStateKeyComposite(t, name, idx, attributes);
    assert LambdaPermissionKey(attributes) == ComparatorsBase.PermissionStateKey(attributes);
  }

  /** A queue whose state `arn` is the ARN the queue reports is looked up by the
      comparator path under the key `fetch_sqs_resources` files it under, whatever key the
      orchestration passed. */
  lemma SqsKeysAgree(t: string, name: string, idx: int, attributes: Bag, url: string, queueAttributes: Bag)
    requires StartsWith(t, "aws_sqs_queue")
    requires IsArn(GetV(attributes, "arn")) && GetV(attributes, "arn") == GetV(queueAttributes, "QueueArn")
    ensures ComparatorsBase.StateKey(t, name, idx, attributes) == Ok(SqsFetchers.QueueKey(url, queueAttributes))
  {
    DiffersAt(t, "aws_sqs_queue", "aws_cloudwatch_event_target", 4);
    DiffersAt(t, "aws_sqs_queue", "aws_lambda_permission", 4);
    DiffersAt(t, "aws_sqs_queue", "aws_api_gateway_deployment", 4);
    DiffersAt(t, "aws_sqs_queue", "aws_api_gateway_integration", 4);
    DiffersAt(t, "aws_sqs_queue", "aws_api_gateway_method", 4);
    DiffersAt(t, "aws_sqs_queue", "aws_api_gateway_resource", 4);
    DiffersAt(t, "aws_sqs_queue", "aws_api_gateway_rest_api", 4);
    DiffersAt(t, "aws_sqs_queue", "aws_api_gateway_stage", 4);
    DiffersAt(t, "aws_sqs_queue", "aws_route_table", 4);
    ComparatorsBase.GenericStateKeys(t, name, idx, attributes);
    assert FirstArnField(attributes, FetchersBase.ArnFields) == Some(GetV(attributes, "arn").s);
    SqsFetchers.QueueKeyIsQueueArn(url, queueAttributes);
  }

  // ---------------------------------------------------------------------------------
  // Disagreements

  /** The grouped tests of the routing chain all fail on an API Gateway method. */
  lemma MethodOutsideGroups(t: string)
    requires StartsWith(t, "aws_api_gateway_method")
    ensures !IsIamKind(t) && !IsEcsKind(t) && !IsNetworkKind(t)
  {
    DiffersAt(t, "aws_api_gateway_method", "aws_iam_role_policy", 4);
    DiffersAt(t, "aws_api_gateway_method", "aws_iam_role", 4);
    DiffersAt(t, "aws_api_gateway_method", "aws_iam_policy", 4);
    DiffersAt(t, "aws_api_gateway_method", "aws_iam_openid_connect_provider", 4);
    DiffersAt(t, "aws_api_gateway_method", "aws_iam_role_policy_attachment", 4);
    DiffersAt(t, "aws_api_gateway_method", "aws_ecs_cluster", 4);
    DiffersAt(t, "aws_api_gateway_method", "aws_ecs_service", 4);
    DiffersAt(t, "aws_api_gateway_method", "aws_ecs_task_definition", 4);
    DiffersAt(t, "aws_api_gateway_method", "aws_vpc", 4);
    DiffersAt(t, "aws_api_gateway_method", "aws_security_group", 4);
    DiffersAt(t, "aws_api_gateway_method", "aws_subnet", 4);
    DiffersAt(t, "aws_api_gateway_method", "aws_internet_gateway", 4);
    DiffersAt(t, "aws_api_gateway_method", "aws_route_table", 4);
    DiffersAt(t, "aws_api_gateway_method", "aws_route_table_association", 4);
  }

  lemma RouteOfApigatewayMethod(t: string)
    requires StartsWith(t, "aws_api_gateway_method")
    ensures RouteOf(t) == ApigatewayRoute
  {
    MethodOutsideGroups(t);
    DiffersAt(t, "aws_api_gateway_method", "aws_instance", 4);
    DiffersAt(t, "aws_api_gateway_method", "aws_s3_bucket", 4);
    DiffersAt(t, "aws_api_gateway_method", "aws_db_instance", 4);
    DiffersAt(t, "aws_api_gateway_method", "aws_dynamodb_table", 4);
    DiffersAt(t, "aws_api_gateway_method", "aws_lambda_function", 4);
    DiffersAt(t, "aws_api_gateway_method", "aws_cloudwatch_event_rule", 4);
    DiffersAt(t, "aws_api_gateway_method", "aws_cloudwatch_event_target", 4);
    DiffersAt(t, "aws_api_gateway_method", "aws_cloudwatch_event_bus", 4);
    DiffersAt(t, "aws_api_gateway_method", "aws_lambda_permission", 4);
    DiffersAt(t, "aws_api_gateway_method", "aws_api_gateway_resource", 16);
  }

  /** Without a truthy `arn` or `id`, an API Gateway method's live key is the `agm-…`
      composite or its positional key. */
  lemma MethodLiveKey(t: string, name: string, idx: int, attributes: Bag)
    requires StartsWith(t, "aws_api_gateway_method")
    requires !Truthy(GetV(attributes, "arn")) && !Truthy(GetV(attributes, "id"))
    ensures BaseLiveKey(t, name, idx, attributes) ==
      if t == "aws_api_gateway_method" && CompositePartsPresent(attributes) then
        "agm-" + StrOf(RestApiPart(attributes)) + "-" + StrOf(ResourcePart(attributes)) + "-" + StrOf(VerbPart(attributes))
      else FallbackKey(t, name, idx)
  {
    MethodIsNoOtherKind(t);
    FetchersBase.ApigatewayKindsKeyedByExtract(t, name, idx, attributes);
  }

  lemma MethodIsNoOtherKind(t: string)
    requires StartsWith(t, "aws_api_gateway_method")
    ensures IsApigatewayKind(t)
    ensures t != "aws_route_table_association" && t != "aws_iam_role_policy_attachment"
    ensures t != "aws_api_gateway_integration"
  {
    DiffersAt(t, "aws_api_gateway_method", "aws_route_table_association", 4);
    DiffersAt(t, "aws_api_gateway_method", "aws_iam_role_policy_attachment", 4);
    assert StartsWith("aws_route_table_association", "aws_route_table_association");
    assert StartsWith("aws_iam_role_policy_attachment", "aws_iam_role_policy_attachment");
    DiffersAt(t, "aws_api_gateway_method", "aws_api_gateway_integration", 16);
    assert StartsWith("aws_api_gateway_integration", "aws_api_gateway_integration");
  }

  /** An API Gateway method is fetched under its base live key. */
  lemma MethodFetchedUnderLiveKey(t: string, name: string, idx: int, attributes: Bag)
    requires StartsWith(t, "aws_api_gateway_method")
    ensures FetchRequest(t, name, idx, attributes) ==
      Ok(Some(FetchCall(Apigateway, BaseLiveKey(t, name, idx, attributes), attributes, None)))
  {
    RouteOfApigatewayMethod(t);
  }

  /** An API Gateway method without a truthy `arn` or `id` is fetched under `agm-…` or its
      positional key, while the comparator path looks it up under `apigw_method:…`
      (`ComparatorsBase.MethodStateKeyComposite`); the two never meet, differing in their
      second character. */
  lemma ApigatewayMethodKeysNeverMeet(t: string, name: string, idx: int, attributes: Bag)
    requires StartsWith(t, "aws_api_gateway_method")
    requires !Truthy(GetV(attributes, "arn")) && !Truthy(GetV(attributes, "id"))
    ensures BaseLiveKey(t, name, idx, attributes) != ComparatorsBase.MethodStateKey(attributes)
  {
    MethodLiveKeyPrefix(t, name, idx, attributes);
    MethodStateKeyPrefix(attributes);
    MethodPrefixesApart(BaseLiveKey(t, name, idx, attributes), ComparatorsBase.MethodStateKey(attributes));
  }

  lemma MethodLiveKeyPrefix(t: string, name: string, idx: int, attributes: Bag)
    requires StartsWith(t, "aws_api_gateway_method")
    requires !Truthy(GetV(attributes, "arn")) && !Truthy(GetV(attributes, "id"))
    ensures StartsWith(BaseLiveKey(t, name, idx, attributes), "agm-") || StartsWith(BaseLiveKey(t, name, idx, attributes), "aws_")
  {
    MethodLiveKey(t, name, idx, attributes);
    var live := BaseLiveKey(t, name, idx, attributes);
    if live == FallbackKey(t, name, idx) {
      PrefixOfPrefix(t, "aws_api_gateway_method", "aws_");
      PrefixOfPrefix(live, t, "aws_");
    } else {
      assert StartsWith(live, "agm-");
    }
  }

  lemma MethodStateKeyPrefix(attributes: Bag)
    ensures StartsWith(ComparatorsBase.MethodStateKey(attributes), "apigw_method:")
  {
  }

  lemma MethodPrefixesApart(live: string, state: string)
    requires StartsWith(live, "agm-") || StartsWith(live, "aws_")
    requires StartsWith(state, "apigw_method:")
    ensures live != state
  {
    DiffersAt(state, "apigw_method:", "agm-", 1);
    DiffersAt(state, "apigw_method:", "aws_", 1);
  }

  /** An event rule is looked up under its ARN (or positional key) but fetched under that
      key with `_{event_bus_name}` appended, so the two agree exactly when the bus name is
      falsy. */
  lemma EventRuleKeysMeetIffNoBus(t: string, name: string, idx: int, attributes: Bag)
    requires StartsWith(t, "aws_cloudwatch_event_rule")
    ensures ComparatorsBase.StateKey(t, name, idx, attributes).Ok?
    ensures var state := ComparatorsBase.StateKey(t, name, idx, attributes).value;
      FetchRequest(t, name, idx, attributes) == Ok(Some(FetchCall(Events, EventRuleKey(state, attributes), attributes, Some(t))))
    ensures var state := ComparatorsBase.StateKey(t, name, idx, attributes).value;
      EventRuleKey(state, attributes) == state <==> !Truthy(GetOr(attributes, "event_bus_name", Str("")))
  {
    DiffersAt(t, "aws_cloudwatch_event_rule", "aws_cloudwatch_event_target", 21);
    DiffersAt(t, "aws_cloudwatch_event_rule", "aws_lambda_permission", 4);
    DiffersAt(t, "aws_cloudwatch_event_rule", "aws_api_gateway_deployment", 4);
    DiffersAt(t, "aws_cloudwatch_event_rule", "aws_api_gateway_integration", 4);
    DiffersAt(t, "aws_cloudwatch_event_rule", "aws_api_gateway_method", 4);
    DiffersAt(t, "aws_cloudwatch_event_rule", "aws_api_gateway_resource", 4);
    DiffersAt(t, "aws_cloudwatch_event_rule", "aws_api_gateway_rest_api", 4);
    DiffersAt(t, "aws_cloudwatch_event_rule", "aws_api_gateway_stage", 4);
    DiffersAt(t, "aws_cloudwatch_event_rule", "aws_route_table_association", 4);
    DiffersAt(t, "aws_cloudwatch_event_rule", "aws_iam_role_policy_attachment", 4);
    assert StartsWith("aws_route_table_association", "aws_route_table_association");
    assert StartsWith("aws_iam_role_policy_attachment", "aws_iam_role_policy_attachment");
    PlainKindsAgree(t, name, idx, attributes);
    EventRuleKeySuffixed(t, name, idx, attributes);
    var state := ComparatorsBase.StateKey(t, name, idx, attributes).value;
    if Truthy(GetOrEmpty(attributes, "event_bus_name")) {
      assert |EventRuleKey(state, attributes)| > |state|;
    }
  }

  /** The aggregation path keys a lambda permission by its function name as written. For a
      name that is not an ARN this is the comparator path's key. */
  lemma PermissionKeysAgreeOnPlainNames(name: string, idx: int, attributes: Bag)
    requires GetV(attributes, "function_name").Str?
    requires Truthy(GetV(attributes, "function_name")) && Truthy(GetV(attributes, "statement_id"))
    requires !StartsWith(GetV(attributes, "function_name").s, "arn:aws:lambda:")
    ensures ComparatorsBase.PermissionStateKey(attributes) ==
      Ok(StrOf(Core.StateKeyOf("aws_lambda_permission", name, idx, attributes)))
  {
    Core.PermissionStateKeys(name, idx, attributes);
  }

  /** An ARN function name is cut to its last segment by the comparator path (and the
      fetch orchestration) but kept whole by the aggregation path, so the aggregation
      path's key is never the one the permission was looked up under. */
  lemma PermissionKeysDifferOnArnNames(name: string, idx: int, attributes: Bag)
    requires GetV(attributes, "function_name").Str?
    requires StartsWith(GetV(attributes, "function_name").s, "arn:aws:lambda:")
    requires Truthy(GetV(attributes, "statement_id"))
    ensures ComparatorsBase.PermissionStateKey(attributes).Ok?
    ensures ComparatorsBase.PermissionStateKey(attributes).value !=
      StrOf(Core.StateKeyOf("aws_lambda_permission", name, idx, attributes))
  {
    var fn := GetV(attributes, "function_name").s;
    var sid := StrOf(GetV(attributes, "statement_id"));
    ComparatorPermissionArnKey(attributes);
    AggregationPermissionArnKey(name, idx, attributes);
    ArnFunctionNameCut(fn);
    PermissionFramesDiffer(AfterLast(fn, ':'), fn, sid);
  }

  lemma ComparatorPermissionArnKey(attributes: Bag)
    requires GetV(attributes, "function_name").Str?
    requires StartsWith(GetV(attributes, "function_name").s, "arn:aws:lambda:")
    requires Truthy(GetV(attributes, "statement_id"))
    ensures ComparatorsBase.PermissionStateKey(attributes) ==
      Ok("lambda_permission:" + AfterLast(GetV(attributes, "function_name").s, ':') + ":" +
         StrOf(GetV(attributes, "statement_id")))
  {
    assert GetOr(attributes, "function_name", Str("")) == GetV(attributes, "function_name");
    assert GetOr(attributes, "statement_id", Str("")) == GetV(attributes, "statement_id");
  }

  lemma AggregationPermissionArnKey(name: string, idx: int, attributes: Bag)
    requires GetV(attributes, "function_name").Str?
    requires StartsWith(GetV(attributes, "function_name").s, "arn:aws:lambda:")
    requires Truthy(GetV(attributes, "statement_id"))
    ensures StrOf(Core.StateKeyOf("aws_lambda_permission", name, idx, attributes)) ==
      "lambda_permission:" + GetV(attributes, "function_name").s + ":" + StrOf(GetV(attributes, "statement_id"))
  {
    Core.PermissionStateKeys(name, idx, attributes);
  }

  /** An ARN function name has a `:`, so its last segment is shorter than the name. */
  lemma ArnFunctionNameCut(fn: string)
    requires StartsWith(fn, "arn:aws:lambda:")
    ensures |AfterLast(fn, ':')| < |fn|
  {
    assert fn[3] == "arn:aws:lambda:"[3];
    AfterLastFollows(fn, ':', 3);
  }

  lemma PermissionFramesDiffer(a: string, b: string, sid: string)
    requires |a| != |b|
    ensures "lambda_permission:" + a + ":" + sid != "lambda_permission:" + b + ":" + sid
  {
    assert |"lambda_permission:" + a + ":" + sid| != |"lambda_permission:" + b + ":" + sid|;
  }
}
