# Terraform drift detector: the reconciliation engine in Dafny

The drift detector reads a Terraform state file, asks AWS for the live resources, and
reports where the two disagree. This project models its reconciliation engine. It treats
the AWS clients and the JSON parser as parameters, so what remains is string, map and
set work, and all of it is modelled here:

- **Identity keying.** An instance is a resource type, a logical name, an instance index
  and an attribute bag. The code turns each instance into a string key in four separate
  places:
  - the live side, in `get_live_aws_resources` and its helpers (`FetchersBase`,
    `Ec2InstancesFetcher`, `SqsFetchers`);
  - the state side of `compare_resources` (`ComparatorsBase.StateKey`);
  - the state side of `detect_drift` (`Core.StateKeyOf`);
  - the legacy comparator, which keys whole blocks (`ResourceComparators.BlockKey`).

  Each is its own function. `KeyAgreement` proves where those functions agree and where
  they provably never meet: API Gateway methods, event rules on a named bus, and lambda
  permissions whose function name is an ARN.
- **Comparator registry.** `compare_attributes` picks a comparator by the first
  matching type prefix. Each per-service comparator runs a fixed list of field checks and
  returns the records that differ, in check order. Three of them normalise values first:
  - SQS queues compare `str()` of both sides;
  - lambda permissions unwrap a `{"Service": …}` principal;
  - the IAM role-policy comparator, the SQS queue-policy comparator and the SQS-policy
    branch of `compare_resources` decode JSON policy text.
- **Aggregation.**
  - `compare_resources` classifies each instance as missing, drifted or in agreement, in
    state order.
  - `detect_drift` keys the state and forms the matched, drifted, unmatched and meta key
    sets. It builds display names and the summary counts.
  - Any exception turns into the error report.
- **Configuration.** `load_config` validates the environment and applies defaults.

A Python dict whose iteration order matters (attribute bags, the live map) is a sequence
of pairs with distinct keys (`Python.Dict`). Nested dicts are order-free maps. Python
exceptions are `Result.Err(PyError)`: an AttributeError on `.startswith` of a non-string,
an unhashable set element, a legacy `[0]` on an empty list, a failed `int()`.
`str()` is concrete: `str(None) == "None"`, and a string is its own text. The
imperative parts of the source are methods with loop invariants, each proved equal to a
fold function:
- the `get_live_aws_resources` loop;
- `fetch_sqs_resources`;
- both `compare_resources`;
- the keying, counting, matching, meta and unmatched loops of `detect_drift`.

One note on the tests: `tests/test_policy_comparison.py:18` imports `_compare_iam_role_policy_attributes` from
`resource_comparators`, which has no such function. The behaviour that test asserts is
that of `src/drift_detector/comparators/iam_comparators.py:81-158`, which `IamComparators`
models.

## Model

| member | source | states |
|---|---|---|
| Keys.FirstTruthy | src/drift_detector/core.py:96-121 | the hybrid scan: None exactly when no listed field is truthy; otherwise a truthy value that is the value of the first listed field holding a truthy value |
| Keys.FirstTruthyAtIsFirstTruthy | src/drift_detector/core.py:96-103 | if field i is the first truthy one in the list, the scan returns its value |
| Keys.FirstTruthyIgnoresFalsy | src/drift_detector/fetchers/ec2_instances_fetcher.py:39-54 | two bags that agree on every listed field that is truthy in either give the same scan: present-but-falsy values count as absent |
| Differences.RunChecks | src/drift_detector/comparators/sqs_comparators.py:55-109 | a comparator's records: every record comes from a check that differs, every differing check gives its record, at most one per check, in check order |
| Differences.RunChecksDistinct | src/drift_detector/comparators/sqs_comparators.py:55-109 | with distinct field names, a check's record is reported if and only if that check differs |
| Differences.RunFiveChecks | src/drift_detector/comparators/sqs_comparators.py:55-109 | every record of a five-check comparator is the record of one of its five checks |
| Differences.RunThreeChecks | src/drift_detector/comparators/iam_comparators.py:98-158 | every record of a three-check comparator is the record of one of its three checks |
| Differences.AbsentOnBothSides | src/drift_detector/comparators/ec2_instances_comparator.py:19-21 | a field absent on both sides compares equal (None against None) and gives no record |
| FetchersBase.ExtractArnFromAttributes | src/drift_detector/fetchers/base.py:28-101 | `extract_arn_from_attributes`: every failure is a ValueError |
| FetchersBase.FirstArn | src/drift_detector/fetchers/base.py:55-92 | the first candidate that is a string starting `arn:aws:`; None exactly when no candidate is one |
| FetchersBase.FirstArnSingleton | src/drift_detector/fetchers/base.py:55-60 | one candidate is found exactly when it is an ARN string |
| FetchersBase.ArnSearch | src/drift_detector/fetchers/base.py:55-92 | the ARN search once route tables are excluded. It has no contract of its own; `ArnPrecedence`, `NoArnIsAnError` and `ArnComesFromAnAttribute` state it |
| FetchersBase.FirstArnAppend | src/drift_detector/fetchers/base.py:55-92 | searching two candidate lists in turn is searching their concatenation |
| FetchersBase.ScanItemsIsFirstArn | src/drift_detector/fetchers/base.py:75-92 | a scan over the bag in its order returns the first ARN among the values whose field name passes the test |
| FetchersBase.FirstArnFieldIsFirstArn | src/drift_detector/fetchers/base.py:55-60 | the `arn`/`Arn`/`ARN` loop returns the first ARN among those fields' values |
| FetchersBase.ScanFieldsIsFirstArn | src/drift_detector/fetchers/base.py:75-92 | the `_arn`-suffix scan comes before the contains-`arn` scan, each in bag order |
| FetchersBase.SearchAfterArnFieldsIsFirstArn | src/drift_detector/fetchers/base.py:63-92 | after the `arn` fields: the lambda-only `invoke_arn`-or-`function_arn`, then `id`, then the two scans |
| FetchersBase.ArnPrecedence | src/drift_detector/fetchers/base.py:55-92 | the search returns the first ARN among the candidates in precedence order: `arn`/`Arn`/`ARN`, the lambda fields, `id`, `_arn`-suffixed fields, fields whose lower-cased name contains `arn` |
| FetchersBase.NoArnIsAnError | src/drift_detector/fetchers/base.py:94-101 | outside route tables, the search fails if and only if no candidate is an ARN |
| FetchersBase.RouteTablesRefused | src/drift_detector/fetchers/base.py:47-52 | every type starting `aws_route_table` is refused with the route-table ValueError, whatever its attributes |
| FetchersBase.ValuesWhereFromItems | src/drift_detector/fetchers/base.py:75-92 | every scanned value is the value of some attribute |
| FetchersBase.GetVFromItems | src/drift_detector/fetchers/base.py:55-72 | a present field's value is the value of some attribute |
| FetchersBase.CandidatesFromItems | src/drift_detector/fetchers/base.py:55-92 | every ARN candidate is the value of some attribute |
| FetchersBase.ArnComesFromAnAttribute | src/drift_detector/fetchers/base.py:55-92 | a returned ARN starts `arn:aws:` and is the string value of one of the attributes |
| FetchersBase.GetResourceIdentifier | src/drift_detector/fetchers/base.py:104-135 | fails exactly when the ARN search fails, with the same error; otherwise an `arn`-primary identifier carrying the ARN found, the type and the name |
| FetchersBase.ExtractApigatewayKey | src/drift_detector/fetchers/base.py:138-168 | a truthy `arn`, else a truthy `id`, else the `agm-…` method or `apigw_integration:…` composite when all three parts are truthy, else `{type}.{name}_{idx}` |
| FetchersBase.ExtractHybridKeyFromApigateway | src/drift_detector/fetchers/base.py:171-198 | a non-empty `resource_id` argument unchanged; else `str()` of the first truthy of `id`, `Id`, `ID`, `restApiId`, `resourceId`, `deploymentId`, `stageName`; else `{type}.unknown` |
| FetchersBase.PermissionFunctionName | src/drift_detector/fetchers/base.py:327-330 | fails exactly when the function name is not a string; a lambda ARN is cut to its last `:` segment, any other string is kept |
| FetchersBase.RouteOfEventRule | src/drift_detector/fetchers/base.py:314-318 | an event-rule type takes the event-rule branch of the routing chain |
| FetchersBase.RouteOfEventTarget | src/drift_detector/fetchers/base.py:319-324 | an event-target type takes the event-target branch |
| FetchersBase.RouteOfLambdaPermission | src/drift_detector/fetchers/base.py:327-333 | a lambda-permission type takes the permission branch |
| FetchersBase.SqsOutsideGroups | src/drift_detector/fetchers/base.py:296-404 | an SQS type matches none of the IAM, ECS, network, API Gateway or CloudWatch prefixes tested before it |
| FetchersBase.RouteOfSqs | src/drift_detector/fetchers/base.py:405-411 | an SQS type takes the SQS branch |
| FetchersBase.RouteOfRouteTable | src/drift_detector/fetchers/base.py:296-411 | a route-table type takes the EC2 network branch |
| FetchersBase.InstanceErrorPersists | src/drift_detector/fetchers/base.py:249-259 | once an instance raises, the rest of the block does not change the outcome |
| FetchersBase.ResourceErrorPersists | src/drift_detector/fetchers/base.py:249-259 | once a block raises, the later blocks do not change the outcome |
| FetchersBase.FetchBlock | src/drift_detector/fetchers/base.py:252-259 | the instance loop of one block computes the fold of the per-instance step |
| FetchersBase.GetLiveAwsResources | src/drift_detector/fetchers/base.py:201-413 | the whole loop computes the fold over all blocks, each instance's fetched records merged into the live map under its key |
| FetchersBase.FetchBlocks | src/drift_detector/fetchers/base.py:201-413 | the outer loop, for any per-instance step, computes the fold over all blocks and stops at the first error |
| FetchersBase.BlocksWithoutInstancesSkipped | src/drift_detector/fetchers/base.py:254-256 | a block with no instances leaves the live map as it was |
| FetchersBase.NotApigatewayKind | src/drift_detector/fetchers/base.py:278-286 | route tables are not keyed by `extract_apigateway_key` |
| FetchersBase.RouteTablesGetFallbackKey | src/drift_detector/fetchers/base.py:287-293 | a plain route table always gets `{type}.{name}_{idx}` and is fetched under it by the EC2 fetcher |
| FetchersBase.RouteTableAssociationKey | src/drift_detector/fetchers/base.py:263-268 | an association is keyed by its truthy `id`, else positionally |
| FetchersBase.RolePolicyAttachmentKey | src/drift_detector/fetchers/base.py:270-276 | an attachment is keyed `{role}/{policy_arn}` when both are truthy, else positionally |
| FetchersBase.BaseLiveKey | src/drift_detector/fetchers/base.py:262-293 | the key an instance gets before routing. It has no contract of its own; `RouteTableAssociationKey`, `RolePolicyAttachmentKey`, `ApigatewayKindsKeyedByExtract`, `OtherKindsKeyedByArn` and `RouteTablesGetFallbackKey` state its four branches |
| FetchersBase.OtherKindsKeyedByArn | src/drift_detector/fetchers/base.py:287-293 | every other kind outside API Gateway is keyed by its ARN, a failed search giving `{type}.{name}_{idx}` |
| FetchersBase.EventRuleKeySuffixed | src/drift_detector/fetchers/base.py:314-318 | an event rule is fetched under its key with `_{event_bus_name}` appended when that name is non-empty |
| FetchersBase.EventTargetKeyComposite | src/drift_detector/fetchers/base.py:319-324 | an event target is fetched under `event_target:{bus}:{rule}:{arn}` |
| FetchersBase.LambdaPermissionKeyComposite | src/drift_detector/fetchers/base.py:327-333 | a lambda permission is fetched under `lambda_permission:{fn}:{sid}`, an ARN function name cut to its last `:` segment; a non-string function name raises |
| FetchersBase.SqsKeySuffixed | src/drift_detector/fetchers/base.py:405-411 | an SQS kind is fetched under its key with `_{queue_name}` appended, a URL name cut to its last `/` segment |
| FetchersBase.RouteOf | src/drift_detector/fetchers/base.py:296-411 | the first routing branch whose test the type passes. It has no contract of its own; the `RouteOf…` lemmas and `SqsOutsideGroups` state it |
| FetchersBase.FetchRequest | src/drift_detector/fetchers/base.py:262-411 | the fetcher called for one instance and the key it is called with. It has no contract of its own; `EventRuleKeySuffixed`, `EventTargetKeyComposite`, `LambdaPermissionKeyComposite`, `SqsKeySuffixed` and `RouteTablesGetFallbackKey` state it |
| FetchersBase.EventRuleKey | src/drift_detector/fetchers/base.py:314-318 | `_{event_bus_name}` appended to the key when the name is truthy. It has no contract of its own; `EventRuleKeySuffixed` and `KeyAgreement.EventRuleKeysMeetIffNoBus` state it |
| FetchersBase.EventTargetKey | src/drift_detector/fetchers/base.py:319-324 | the `event_target:{bus}:{rule}:{arn}` composite. It has no contract of its own; `EventTargetKeyComposite` and `KeyAgreement.EventTargetKeysAgree` state it |
| FetchersBase.LambdaPermissionKey | src/drift_detector/fetchers/base.py:327-333 | the `lambda_permission:{fn}:{sid}` composite, failing as `PermissionFunctionName` does. It has no contract of its own; `LambdaPermissionKeyComposite` and `KeyAgreement.LambdaPermissionKeysAgree` state it |
| FetchersBase.SqsLiveKey | src/drift_detector/fetchers/base.py:405-411 | `_{queue_name}` appended to the key, a URL name cut to its last `/` segment. It has no contract of its own; `SqsKeySuffixed` and `KeyAgreement.SqsKeysAgree` state it |
| Ec2InstancesFetcher.ExtractHybridKeyFromAttributes | src/drift_detector/fetchers/ec2_instances_fetcher.py:15-57 | `extract_hybrid_key_from_attributes`. It has no contract of its own; `HybridKeyPrefersArn`, `HybridKeyThenId`, `HybridKeyFallback` and `HybridKeySkipsFalsy` state it |
| Ec2InstancesFetcher.HybridKeyPrefersArn | src/drift_detector/fetchers/ec2_instances_fetcher.py:38-41 | the first truthy of `arn`, `Arn`, `ARN` is the key, as a string |
| Ec2InstancesFetcher.HybridKeyThenId | src/drift_detector/fetchers/ec2_instances_fetcher.py:43-54 | with no truthy ARN field, the first truthy ID field is the key, as a string |
| Ec2InstancesFetcher.HybridKeyFallback | src/drift_detector/fetchers/ec2_instances_fetcher.py:15-57 | with neither, the key is `{type}.{name}_{idx}`, the index defaulting to 0 |
| Ec2InstancesFetcher.HybridKeySkipsFalsy | src/drift_detector/fetchers/ec2_instances_fetcher.py:39-54 | adding a present but falsy field does not change the key |
| SqsFetchers.ExtractHybridKeyFromSqs | src/drift_detector/fetchers/sqs_fetchers.py:22-34 | `extract_hybrid_key_from_sqs`. It has no contract of its own; `SqsKeyIsArn` and `SqsKeyElseUrl` state it |
| SqsFetchers.SqsKeyIsArn | src/drift_detector/fetchers/sqs_fetchers.py:29-30 | a truthy `QueueArn` is the key |
| SqsFetchers.SqsKeyElseUrl | src/drift_detector/fetchers/sqs_fetchers.py:31-33 | otherwise a truthy `QueueUrl`, otherwise `aws_sqs_queue.unknown` |
| SqsFetchers.QueueRecord | src/drift_detector/fetchers/sqs_fetchers.py:47-50 | the stored record has `QueueArn` copied from the attributes (None when absent), the listed URL unless the attributes carry their own `QueueUrl`, every other fetched attribute, and nothing else |
| SqsFetchers.QueueKeyIsQueueArn | src/drift_detector/fetchers/sqs_fetchers.py:48-51 | a queue whose attributes carry a truthy `QueueArn` is keyed by it |
| SqsFetchers.QueuesErrorPersists | src/drift_detector/fetchers/sqs_fetchers.py:46-55 | once an attribute fetch fails, the result stays a failure |
| SqsFetchers.FileQueues | src/drift_detector/fetchers/sqs_fetchers.py:44-54 | the queue loop computes the fold that files each queue under its key |
| SqsFetchers.FetchSqsResources | src/drift_detector/fetchers/sqs_fetchers.py:37-53 | the result depends on the listing and the attribute fetches only, not on `resource_key` or the state attributes |
| SqsFetchers.AnyFailureGivesEmpty | src/drift_detector/fetchers/sqs_fetchers.py:42-55 | one failed attribute fetch fails the whole listing |
| SqsFetchers.LastQueueWins | src/drift_detector/fetchers/sqs_fetchers.py:53 | the record stored under a key is that of the last listed queue with that key |
| SqsFetchers.StoredKeysFromQueues | src/drift_detector/fetchers/sqs_fetchers.py:46-53 | every stored key is the key of some listed queue |
| SqsFetchers.EveryQueueFiled | src/drift_detector/fetchers/sqs_fetchers.py:46-53 | every listed queue's key is stored |
| SqsFetchers.QueueFilingIsHybrid | src/drift_detector/fetchers/sqs_fetchers.py:48-53 | each queue is filed under `extract_hybrid_key_from_sqs` of its record |
| SqsFetchers.ListedQueueFiledUnderArn | src/drift_detector/fetchers/sqs_fetchers.py:46-53 | a listed queue with a truthy `QueueArn` is in the result under that ARN |
| ComparatorsBase.CompareAttributes | src/drift_detector/comparators/base.py:207-287 | only the SQS queue comparator can raise; a type matching no prefix gives no differences |
| ComparatorsBase.ComparatorOf | src/drift_detector/comparators/base.py:229-285 | the comparator `compare_attributes` picks: the first branch whose prefix test passes, in source order. It has no contract of its own; `ComparatorOfRolePolicy`, `ComparatorOfVpc`, `ComparatorOfLambdaPermission`, `ComparatorOfSqsQueue` and `UnknownTypesHaveNoDifferences` state its branches |
| ComparatorsBase.ComparatorOfRolePolicy | src/drift_detector/comparators/base.py:241-253 | `aws_iam_role_policy*` is tested before `aws_iam_role` and picks the role-policy comparator |
| ComparatorsBase.ComparatorOfVpc | src/drift_detector/comparators/base.py:272-273 | `aws_vpc*` picks the EC2 router |
| ComparatorsBase.ComparatorOfLambdaPermission | src/drift_detector/comparators/base.py:262-265 | `aws_lambda_permission*` picks the permission comparator |
| ComparatorsBase.ComparatorOfSqsQueue | src/drift_detector/comparators/base.py:284-285 | `aws_sqs_queue*` picks the SQS comparator |
| ComparatorsBase.RolePoliciesBeforeRoles | src/drift_detector/comparators/base.py:241-253 | inline role policies get the role-policy comparator's list |
| ComparatorsBase.VpcsGetTheInstanceCheck | src/drift_detector/comparators/base.py:272-273 | a VPC is routed without its type and so gets the instance-type check: no differences exactly when `instance_type` equals `InstanceType` |
| ComparatorsBase.PermissionsGetThePermissionCheck | src/drift_detector/comparators/base.py:262-265 | lambda permissions get the permission comparator's list |
| ComparatorsBase.QueuesGetTheQueueCheck | src/drift_detector/comparators/base.py:284-285 | SQS queues get the queue comparator's result, error included |
| ComparatorsBase.UnknownTypesHaveNoDifferences | src/drift_detector/comparators/base.py:229-287 | a type outside `aws_` gives no differences |
| ComparatorsBase.StateKey | src/drift_detector/comparators/base.py:106-171 | the state-side key of one instance: the ARN or positional key, overwritten in turn by each composite whose prefix matches. It has no contract of its own; `GenericStateKeys`, `PermissionStateKey` and the `…StateKeyComposite` lemmas state it |
| ComparatorsBase.PermissionStateKey | src/drift_detector/comparators/base.py:128-134 | raises exactly when `function_name` (default `""`) is not a string |
| ComparatorsBase.GenericStateKeys | src/drift_detector/comparators/base.py:111-118 | outside the composite kinds the state key is the extracted ARN, a failed search giving `{type}.{name}_{idx}` |
| ComparatorsBase.EventTargetStateKeyComposite | src/drift_detector/comparators/base.py:121-125 | event targets' key is replaced by the `event_target:` composite |
| ComparatorsBase.PermissionStateKeyComposite | src/drift_detector/comparators/base.py:128-134 | lambda permissions' key is replaced by the `lambda_permission:` composite |
| ComparatorsBase.DeploymentStateKeyComposite | src/drift_detector/comparators/base.py:137-140 | deployments' key is replaced by the `apigw_deployment:` composite |
| ComparatorsBase.IntegrationStateKeyComposite | src/drift_detector/comparators/base.py:143-147 | integrations' key is replaced by the `apigw_integration:` composite |
| ComparatorsBase.MethodStateKeyComposite | src/drift_detector/comparators/base.py:150-154 | methods' key is replaced by the `apigw_method:` composite |
| ComparatorsBase.ResourceStateKeyComposite | src/drift_detector/comparators/base.py:157-160 | API Gateway resources' key is replaced by the `apigw_resource:` composite |
| ComparatorsBase.RestApiStateKeyComposite | src/drift_detector/comparators/base.py:163-165 | REST APIs' key is replaced by the `apigw_rest_api:` composite |
| ComparatorsBase.StageStateKeyComposite | src/drift_detector/comparators/base.py:168-171 | stages' key is replaced by the `apigw_stage:` composite |
| ComparatorsBase.MatchesQueue | src/drift_detector/comparators/base.py:66-72 | an entry whose `QueueUrl` equals the state URL matches; with a falsy URL nothing else matches; a raise needs a truthy URL and a non-string `QueueArn` or URL; any other match has a `QueueArn` ending with the URL's last `/` segment |
| ComparatorsBase.FirstMatchGivesPolicy | src/drift_detector/comparators/base.py:62-72 | the live policy is the `Policy` of the first matching entry |
| ComparatorsBase.NoMatchGivesNone | src/drift_detector/comparators/base.py:62-72 | with no matching entry the live policy is None |
| ComparatorsBase.FindLivePolicy | src/drift_detector/comparators/base.py:62-72 | the search loop computes the first-match policy |
| ComparatorsBase.LivePolicy | src/drift_detector/comparators/base.py:62-72 | the first-match search over the live map in its order. It has no contract of its own; `FirstMatchGivesPolicy` and `NoMatchGivesNone` state it, and `FindLivePolicy` is the loop proved equal to it |
| ComparatorsBase.Canonical | src/drift_detector/comparators/base.py:74-83 | a canonical form is produced from a truthy raw value only when it is text that parses |
| ComparatorsBase.SameDocumentSameCanonical | src/drift_detector/comparators/base.py:73-83 | two texts that parse to the same document have the same canonical form |
| ComparatorsBase.AbsentPoliciesEqual | src/drift_detector/comparators/base.py:74-83 | policies absent or empty on both sides both canonicalise to None |
| ComparatorsBase.UndecodableComparedRaw | src/drift_detector/comparators/base.py:84-87 | when either side fails to parse, the raw values are compared |
| ComparatorsBase.CanonicalPolicies | src/drift_detector/comparators/base.py:73-87 | the pair of values the policy branch compares. It has no contract of its own; `SameDocumentSameCanonical`, `AbsentPoliciesEqual` and `UndecodableComparedRaw` state it |
| ComparatorsBase.MissingKeyOneRecord | src/drift_detector/comparators/base.py:174-182 | a key absent from the live map gives exactly one `missing_resource` record |
| ComparatorsBase.PresentKeyDriftsIffDifferences | src/drift_detector/comparators/base.py:185-197 | a present key gives one `attribute_drift` record carrying the differences unchanged, exactly when there are any |
| ComparatorsBase.PolicyRecordShape | src/drift_detector/comparators/base.py:89-102 | a policy record exists exactly when the canonical forms differ; it is keyed `{type}.{name} [{queue_url}]` and holds one `policy` difference with both canonical forms |
| ComparatorsBase.PolicyDriftsSubstantiated | src/drift_detector/comparators/base.py:55-103 | a policy instance gives at most one record, and every record is backed by the live map |
| ComparatorsBase.PolicyDrifts | src/drift_detector/comparators/base.py:55-103 | the records of one queue-policy instance. It has no contract of its own; `PolicyRecordShape` and `PolicyDriftsSubstantiated` state it |
| ComparatorsBase.KeyedDrifts | src/drift_detector/comparators/base.py:106-197 | the records of one instance of any other kind. It has no contract of its own; `MissingKeyOneRecord`, `PresentKeyDriftsIffDifferences` and `KeyedDriftsSubstantiated` state it |
| ComparatorsBase.InstanceDrifts | src/drift_detector/comparators/base.py:55-197 | the dispatch between the policy branch and the keyed branch. It has no contract of its own; `InstanceDriftsSubstantiated` states it |
| ComparatorsBase.KeyedDriftsSubstantiated | src/drift_detector/comparators/base.py:106-197 | a keyed instance gives at most one record: missing only when its key is absent, drifted only when present |
| ComparatorsBase.InstanceDriftsSubstantiated | src/drift_detector/comparators/base.py:55-197 | every instance gives at most one record, each backed by the live map |
| ComparatorsBase.BlockErrorPersists | src/drift_detector/comparators/base.py:106-197 | once an instance raises, the block's outcome is that error |
| ComparatorsBase.RunErrorPersists | src/drift_detector/comparators/base.py:46-197 | once a block raises, the run's outcome is that error |
| ComparatorsBase.CompareBlock | src/drift_detector/comparators/base.py:106-197 | the instance loop computes the block fold |
| ComparatorsBase.CompareBlocks | src/drift_detector/comparators/base.py:46-197 | the block loop computes the run fold |
| ComparatorsBase.ReportOf | src/drift_detector/comparators/base.py:199-203 | the report exists exactly when the run succeeded, carries its records and has `total_drifts` equal to their number |
| ComparatorsBase.CompareResources | src/drift_detector/comparators/base.py:29-203 | `compare_resources` is the report of the run fold over the state blocks |
| ComparatorsBase.RecordsFollowStateOrder | src/drift_detector/comparators/base.py:46-201 | the records of earlier blocks are a prefix of the records of later ones: records follow state order |
| ComparatorsBase.BlockDriftsBounded | src/drift_detector/comparators/base.py:106-197 | when every instance gives at most one record satisfying a property, so does a block, with at most one record per instance |
| ComparatorsBase.RunDriftsBounded | src/drift_detector/comparators/base.py:46-201 | when every block's records are bounded by its instances and satisfy a property, so are a run's |
| ComparatorsBase.BlockSubstantiated | src/drift_detector/comparators/base.py:106-197 | a block gives at most one record per instance, each backed by the live map |
| ComparatorsBase.RecordsSubstantiated | src/drift_detector/comparators/base.py:46-201 | a run gives at most one record per instance, each backed by the live map |
| IamComparators.CompareRoleAttributes | src/drift_detector/comparators/iam_comparators.py:39-57 | no record exactly when `name` equals `RoleName`; otherwise the single `role_name` record of the two `str()` values |
| IamComparators.ComparePolicyAttributes | src/drift_detector/comparators/iam_comparators.py:60-78 | no record exactly when `name` equals `PolicyName`; otherwise the single `policy_name` record |
| IamComparators.CompareOpenIdConnectProviderAttributes | src/drift_detector/comparators/iam_comparators.py:161-179 | no record exactly when the two `arn` values are equal; otherwise the single `provider_arn` record |
| IamComparators.PolicyDocumentsDiffer | src/drift_detector/comparators/iam_comparators.py:123-157 | the document test of the role-policy comparator. It has no contract of its own; `DocumentReportedIff`, `DecodedDocumentMatches`, `LiveTextNotDecoded`, `UndecodableComparedRaw` and `MissingAgainstEmptyIsDrift` state it |
| IamComparators.RolePolicyChecks | src/drift_detector/comparators/iam_comparators.py:98-158 | three checks in the order `role_name`, `policy_name`, `policy_document`, over the fields the source reads |
| IamComparators.CompareRolePolicyAttributes | src/drift_detector/comparators/iam_comparators.py:81-158 | at most three records, their fields in the fixed order |
| IamComparators.RolePolicyFieldsDistinct | src/drift_detector/comparators/iam_comparators.py:98-158 | the three field names are distinct |
| IamComparators.RolePolicyRecordsPresent | src/drift_detector/comparators/iam_comparators.py:101-157 | each field that differs is reported, with the `str()` of both sides |
| IamComparators.RolePolicyRecordsOnly | src/drift_detector/comparators/iam_comparators.py:101-157 | every record reports a field that differs |
| IamComparators.DocumentReportedIff | src/drift_detector/comparators/iam_comparators.py:123-157 | a `policy_document` record appears exactly when the documents differ under the decoding rule |
| IamComparators.DecodedDocumentMatches | src/drift_detector/comparators/iam_comparators.py:123-131 | a state JSON string that decodes to the live document gives no document record |
| IamComparators.LiveTextNotDecoded | src/drift_detector/comparators/iam_comparators.py:126-131 | a live document given as text is not decoded: the same JSON text on both sides that decodes to a dict is reported |
| IamComparators.UndecodableComparedRaw | src/drift_detector/comparators/iam_comparators.py:139-148 | a state document that fails to parse is compared raw and reported |
| IamComparators.MissingAgainstEmptyIsDrift | src/drift_detector/comparators/iam_comparators.py:149-157 | with either document falsy, raw `!=` decides: None against `""` is reported |
| IamComparators.CompareIamAttributes | src/drift_detector/comparators/iam_comparators.py:13-36 | role policy, then role, then policy, then OIDC provider; any other type gives no records |
| LambdaComparators.CompareFunctionAttributes | src/drift_detector/comparators/lambda_comparators.py:32-53 | no record exactly when `function_name` equals `FunctionName`; otherwise the single `function_name` record |
| LambdaComparators.UnwrapPrincipal | src/drift_detector/comparators/lambda_comparators.py:89-96 | the live principal the state value is compared with. It has no contract of its own; `ServicePrincipalUnwrapped` and `OtherPrincipalsComparedAsIs` state it |
| LambdaComparators.PermissionChecks | src/drift_detector/comparators/lambda_comparators.py:63-103 | three checks: `statement_id` against `Sid`, `action` against `Action`, `principal` against the unwrapped live principal, reporting the original live value |
| LambdaComparators.ComparePermissionAttributes | src/drift_detector/comparators/lambda_comparators.py:56-104 | at most three records, their fields in the fixed order |
| LambdaComparators.PermissionFieldsDistinct | src/drift_detector/comparators/lambda_comparators.py:63-103 | the three field names are distinct |
| LambdaComparators.PermissionRecordsPresent | src/drift_detector/comparators/lambda_comparators.py:66-103 | each field that differs is reported; the principal record shows the original live principal |
| LambdaComparators.PermissionRecordsOnly | src/drift_detector/comparators/lambda_comparators.py:66-103 | every record reports a field that differs |
| LambdaComparators.ServicePrincipalUnwrapped | src/drift_detector/comparators/lambda_comparators.py:89-96 | a state service principal against `{"Service": same}` gives no principal record |
| LambdaComparators.OtherPrincipalsComparedAsIs | src/drift_detector/comparators/lambda_comparators.py:91-103 | a live principal that is not a dict with `Service` is compared as it is |
| LambdaComparators.CompareLambdaAttributes | src/drift_detector/comparators/lambda_comparators.py:12-29 | `aws_lambda_permission*` goes to the permission comparator; every other type, the `""` default included, to the function comparator |
| EventsComparators.CompareBusAttributes | src/drift_detector/comparators/events_comparators.py:34-52 | no record exactly when `name` equals `Name` (raw comparison); otherwise the single `bus_name` record of `str()` values |
| EventsComparators.CompareRuleAttributes | src/drift_detector/comparators/events_comparators.py:55-73 | no record exactly when `name` equals `Name`; otherwise the single `rule_name` record |
| EventsComparators.CompareTargetAttributes | src/drift_detector/comparators/events_comparators.py:76-105 | at most two records, `target_id` before `arn`; each differing field reported, and only those |
| EventsComparators.CompareEventsAttributes | src/drift_detector/comparators/events_comparators.py:10-31 | bus, then rule, then target; any other type gives no records |
| CloudwatchComparators.CompareDashboardAttributes | src/drift_detector/comparators/cloudwatch_comparators.py:32-50 | no record exactly when `dashboard_name` equals `DashboardName`; otherwise the single record |
| CloudwatchComparators.CompareAlarmAttributes | src/drift_detector/comparators/cloudwatch_comparators.py:53-71 | no record exactly when `alarm_name` equals `AlarmName`; otherwise the single record |
| CloudwatchComparators.CompareCloudwatchAttributes | src/drift_detector/comparators/cloudwatch_comparators.py:10-29 | dashboard, then alarm; any other type gives no records; never more than one record |
| EcsComparators.CompareClusterAttributes | src/drift_detector/comparators/ecs_comparators.py:34-52 | no record exactly when `name` equals `clusterName`; otherwise the single record |
| EcsComparators.CompareServiceAttributes | src/drift_detector/comparators/ecs_comparators.py:55-73 | no record exactly when `name` equals `serviceName`; otherwise the single record |
| EcsComparators.CompareEcsAttributes | src/drift_detector/comparators/ecs_comparators.py:12-31 | cluster, then service; any other type gives no records; never more than one record |
| Ec2Comparators.CompareEc2Attributes | src/drift_detector/comparators/ec2_comparators.py:14-23 | `aws_vpc*` gets the VPC comparator's list unchanged; every other type, the `""` default included, the instance comparator's |
| Ec2Comparators.DefaultTypeComparesInstanceType | src/drift_detector/comparators/ec2_comparators.py:15-23 | a call without a type never reaches the VPC comparator: no records exactly when the instance types agree |
| Ec2InstancesComparator.CompareEc2InstanceAttributes | src/drift_detector/comparators/ec2_instances_comparator.py:12-28 | no record exactly when `instance_type` equals `InstanceType`; otherwise the single `instance_type` record of `str()` values |
| VpcComparator.CompareVpcAttributes | src/drift_detector/comparators/vpc_comparator.py:12-28 | no record exactly when `id` equals `VpcId`; otherwise the single `vpc_id` record |
| RdsComparators.CompareRdsAttributes | src/drift_detector/comparators/rds_comparators.py:10-33 | no record exactly when `db_instance_identifier` equals `DBInstanceIdentifier`; otherwise the single record |
| DynamodbComparators.CompareDynamodbAttributes | src/drift_detector/comparators/dynamodb_comparators.py:12-35 | no record exactly when `name` equals `TableName`; otherwise the single `table_name` record |
| S3Comparators.CompareS3Attributes | src/drift_detector/comparators/s3_comparators.py:10-33 | no record exactly when `bucket` equals `Name`; otherwise the single `bucket_name` record |
| ApigatewayComparators.CompareApigatewayAttributes | src/drift_detector/comparators/apigateway_comparators.py:10-33 | no record exactly when the two `name` values are equal; otherwise the single `api_name` record |
| SqsComparators.LiveQueueName | src/drift_detector/comparators/sqs_comparators.py:46-50 | the text after the last `:` of `QueueArn`; `""` when it is absent or empty; a raise exactly when it is truthy but not text |
| SqsComparators.FieldOrderDistinct | src/drift_detector/comparators/sqs_comparators.py:55-109 | the five field names are distinct |
| SqsComparators.QueueChecks | src/drift_detector/comparators/sqs_comparators.py:55-109 | five text comparisons in the order `name`, `visibility_timeout_seconds`, `message_retention_seconds`, `max_message_size`, `delay_seconds`, over the live fields the source reads |
| SqsComparators.CompareSqsQueueAttributes | src/drift_detector/comparators/sqs_comparators.py:34-109 | raises exactly when the live name does; otherwise at most five records in the fixed order |
| SqsComparators.QueueRecordsPresent | src/drift_detector/comparators/sqs_comparators.py:55-109 | each field whose `str()` differs is reported with both texts |
| SqsComparators.QueueRecordsOnly | src/drift_detector/comparators/sqs_comparators.py:55-109 | every record reports a field whose texts differ |
| SqsComparators.CompareSqsAttributes | src/drift_detector/comparators/sqs_comparators.py:17-31 | the resource type is ignored |
| SqsComparators.NumberMatchesItsText | src/drift_detector/comparators/sqs_comparators.py:62-70 | for every integer, a state number against its own decimal text gives no visibility record |
| SqsComparators.NumberAgainstOtherText | src/drift_detector/comparators/sqs_comparators.py:62-70 | for every integer and every other text, the visibility record shows the number's decimal text against that text |
| SqsComparators.AbsentFields | src/drift_detector/comparators/sqs_comparators.py:45-109 | a field absent on both sides gives no record (`"None"` against `"None"`); a missing name without `QueueArn` is reported as `"None"` against `""` |
| SqsQueuePolicyComparators.NormalisePolicy | src/drift_detector/comparators/sqs_queue_policy_comparators.py:21-37 | a dict is kept; a string is its decoded document, or None when it does not parse; anything else is None |
| SqsQueuePolicyComparators.Shown | src/drift_detector/comparators/sqs_queue_policy_comparators.py:43-44 | the text a record shows: `Missing or invalid` for no policy, else sorted-key JSON. It has no contract of its own; `CompareSqsQueuePolicyAttributes` states the record it fills |
| Json.Dumps | src/drift_detector/comparators/base.py:76-83 | `json.dumps(sort_keys=True)` written out. Its own ensures give only the `null` and quoted-string cases; `DumpsWritesKeysAscending` states the member order `sort_keys=True` promises |
| Json.DumpsWritesKeysAscending | src/drift_detector/comparators/base.py:76-83 | a dict is written member by member in strictly ascending key order, each key once: any ascending listing of exactly its keys gives its text |
| Text.SortedKeys | src/drift_detector/comparators/sqs_queue_policy_comparators.py:43-44 | `sorted(d.keys())`: every key exactly once, in strictly ascending code-point order |
| Text.SortedKeysUnique | src/drift_detector/comparators/sqs_queue_policy_comparators.py:43-44 | the sorted order is determined: any strictly ascending listing of exactly the keys is `SortedKeys` |
| SqsQueuePolicyComparators.CompareSqsQueuePolicyAttributes | src/drift_detector/comparators/sqs_queue_policy_comparators.py:9-47 | at most one record, present exactly when the normalised policies differ, showing sorted-key JSON or `Missing or invalid` |
| SqsQueuePolicyComparators.SameDocumentNoDrift | src/drift_detector/comparators/sqs_queue_policy_comparators.py:21-45 | two texts (or a text and a dict) for the same document give no record, whatever their key order |
| SqsQueuePolicyComparators.EmptyAgainstMissingNoDrift | src/drift_detector/comparators/sqs_queue_policy_comparators.py:24-40 | `""` against a missing policy gives no record |
| ResourceComparators.CompareWith | src/drift_detector/resource_comparators.py:133-382 | a legacy helper gives no record exactly when its state and live fields are equal, otherwise the single record of their `str()` values |
| ResourceComparators.CompareAttributes | src/drift_detector/resource_comparators.py:72-130 | at most one record; a type matching no prefix gives none |
| ResourceComparators.HelperOf | src/drift_detector/resource_comparators.py:92-130 | the legacy helper the first matching prefix picks, None for the rest. It has no contract of its own; `HelperOfRolePolicy`, `CompareAttributes` and `UnknownTypesHaveNoDifferences` state it |
| ResourceComparators.HelperOfRolePolicy | src/drift_detector/resource_comparators.py:90-130 | with no role-policy branch, `aws_iam_role_policy*` picks the role helper |
| ResourceComparators.InlineRolePoliciesReachTheRoleHelper | src/drift_detector/resource_comparators.py:90-130 | inline role policies are compared `name` against `RoleName` |
| ResourceComparators.UnknownTypesHaveNoDifferences | src/drift_detector/resource_comparators.py:128-130 | a type outside `aws_` gives no records |
| ResourceComparators.FirstAttributes | src/drift_detector/resource_comparators.py:48 | an explicit empty instance list raises; a missing list gives `{}`; a non-empty list gives the first instance's attribute bag, `{}` when it has none |
| ResourceComparators.BlockDrifts | src/drift_detector/resource_comparators.py:32-64 | at most one record per block, named `{type}.{name}`; raises exactly when the block is live and its instance list is empty; a record is `missing` exactly when the key is not live |
| ResourceComparators.LegacyMissingOneRecord | src/drift_detector/resource_comparators.py:38-45 | a block whose key is not live gives exactly one `missing` record, with the source's description |
| ResourceComparators.LegacyPresentDriftsIffDifferences | src/drift_detector/resource_comparators.py:46-64 | a live block gives no record when its attributes show no differences, otherwise one `attribute_drift` record carrying those differences unchanged |
| ResourceComparators.LegacyDriftIffFieldDiffers | src/drift_detector/resource_comparators.py:46-130 | a live block of a type with a helper is reported exactly when that helper's state and live fields differ |
| ResourceComparators.LegacyErrorPersists | src/drift_detector/resource_comparators.py:32-64 | once a block raises, the outcome is that error |
| ResourceComparators.CompareResources | src/drift_detector/resource_comparators.py:14-70 | the legacy loop computes the fold over the blocks |
| ResourceComparators.AllMissing | src/drift_detector/resource_comparators.py:38-45 | one `missing` record per block, keyed `{type}.{name}`, in state order |
| ResourceComparators.EmptyLiveAllMissing | src/drift_detector/resource_comparators.py:38-45 | an empty live map gives exactly the records of `AllMissing`: one `missing` record per state block, in order |
| ResourceComparators.RecordsFollowStateOrder | src/drift_detector/resource_comparators.py:32-64 | records of earlier blocks are a prefix of those of later ones |
| ResourceComparators.RecordsNameTheirBlocks | src/drift_detector/resource_comparators.py:32-64 | no more records than blocks, each naming one of them |
| Core.HybridKey | src/drift_detector/core.py:93-128 | the generic state key is always truthy |
| Core.StateKeyOf | src/drift_detector/core.py:76-128 | every state key is truthy |
| Core.CompositeKey | src/drift_detector/core.py:77-91 | the two-part composite of permissions and deployments. It has no contract of its own; `CompositeKeyCases` states its three cases |
| Core.CompositeKeyCases | src/drift_detector/core.py:80-91 | the two-part key is the composite when both parts are truthy, else the second part, else the positional key |
| Core.PermissionStateKeys | src/drift_detector/core.py:77-83 | `lambda_permission:{fn}:{sid}` when both are truthy, else the statement id, else `{type}.{name}_{idx}` |
| Core.DeploymentStateKeys | src/drift_detector/core.py:85-91 | `apigw_deployment:{api}:{id}` when both are truthy, else the id, else `{type}.{name}_{idx}` |
| Core.HybridKeyPrefersArn | src/drift_detector/core.py:95-103 | other kinds are keyed by the first truthy ARN field |
| Core.HybridKeyThenId | src/drift_detector/core.py:104-121 | with no truthy ARN field, by the first truthy ID field |
| Core.BlockKeyingErrorPersists | src/drift_detector/core.py:74-130 | once an instance key is unhashable, the block's outcome is that error |
| Core.StateKeyingErrorPersists | src/drift_detector/core.py:69-130 | once a block fails, the keying's outcome is that error |
| Core.KeyBlock | src/drift_detector/core.py:74-130 | the instance loop computes the block keying |
| Core.KeyState | src/drift_detector/core.py:65-130 | the block loop computes the state keying |
| Core.BlockKeyingSound | src/drift_detector/core.py:74-130 | keying a block keeps the key set equal to the map's domain, every entry naming a keyed instance with that key, with no more keys than instances |
| Core.StateKeyingSound | src/drift_detector/core.py:65-130 | the state key set is the key map's domain, each entry names a non-meta instance carrying that key, and there are no more keys than keyed instances |
| Core.BlockKeyingComplete | src/drift_detector/core.py:74-130 | every instance of a block ends up in the key set |
| Core.BlockKeyingGrows | src/drift_detector/core.py:129-130 | keying a block never removes keys |
| Core.StateKeyingGrows | src/drift_detector/core.py:69-130 | the key set only grows from block to block |
| Core.KeyedInstanceInKeySet | src/drift_detector/core.py:69-130 | every non-meta instance's key is in the state key set |
| Core.LaterInstanceOverwrites | src/drift_detector/core.py:129-130 | the key map keeps the last instance per key and leaves the other keys as they were |
| Core.CountInstances | src/drift_detector/core.py:58-61 | the instance total counts every instance, meta ones included |
| Core.KeyedWithinTotal | src/drift_detector/core.py:55-73 | keyed instances never outnumber the total, and are strictly fewer when a meta block has instances |
| Core.LiveKeyPresent | src/drift_detector/core.py:132 | every live key names an entry of the live map |
| Core.StateKeysPartitioned | src/drift_detector/core.py:146-149 | matched keys, drifted state keys and unmatched keys are pairwise disjoint and cover the state key set |
| Core.UnmatchedMeansAbsent | src/drift_detector/core.py:239-240 | an unmatched key is a state key absent from the live map and from the drifted set |
| Core.UndetectedWithinUnmatched | src/drift_detector/core.py:280 | the unmatched, undetected keys lie within the unmatched keys |
| Core.PolicyDriftCountedUnderBlockKey | src/drift_detector/core.py:133-136 | a policy record `{type}.{name} [{url}]` counts as drifted under `{type}.{name}` |
| Core.DriftedKeys | src/drift_detector/core.py:133-136 | each record's key cut at its first ` [`. It has no contract of its own; `PolicyDriftCountedUnderBlockKey` states it |
| Core.Matched | src/drift_detector/core.py:146-149 | `(state & live) - drifted`. It has no contract of its own; `StateKeysPartitioned` states it |
| Core.Unmatched | src/drift_detector/core.py:239-240 | `state - matched - drifted`. It has no contract of its own; `StateKeysPartitioned` and `UnmatchedMeansAbsent` state it |
| Core.FirstTruthyOf | src/drift_detector/core.py:193-208 | the first truthy candidate; None exactly when none is truthy |
| Core.FirstPresentAt | src/drift_detector/core.py:177-180 | the first present field's value is the live name, even when it is falsy |
| Core.FirstPresentNone | src/drift_detector/core.py:177-180 | with none of the fields present the live name is None |
| Core.LiveNameByPresence | src/drift_detector/core.py:176-180 | for other types the live name is the first present of `name`, `Name`, `id`, `Id` |
| Core.LiveNameAbsent | src/drift_detector/core.py:176-180 | with none of those present it is None |
| Core.AwsLiveName | src/drift_detector/core.py:153-180 | the live name of a matched resource. It has no contract of its own; `LiveNameByPresence` and `LiveNameAbsent` state the generic branch |
| Core.LogicalName | src/drift_detector/core.py:189-210 | always truthy; the resource name itself unless it is empty or `this`; otherwise the first truthy candidate, or `{type}:{key}` when none is truthy |
| Core.FirstTruthyOfAt | src/drift_detector/core.py:208 | if candidate i is the first truthy one, `next(...)` returns it |
| Core.LogicalNameIsFirstTruthyCandidate | src/drift_detector/core.py:191-208 | for a name that is empty or `this`, the logical name is the first truthy of the thirteen candidates |
| Core.LogicalNameFallsBackToTypedKey | src/drift_detector/core.py:209-210 | with no truthy candidate it is `{type}:{key}` |
| Core.DisplayShowsBothIffTheyDiffer | src/drift_detector/core.py:212-218 | the display name is `logical (AWS: live)` exactly when both are present and differ, otherwise the logical name |
| Core.DisplayName | src/drift_detector/core.py:212-218 | always truthy; the logical name itself when it is truthy and the live name is absent or the same |
| Core.MatchRecordFor | src/drift_detector/core.py:150-227 | a matching entry carries the instance's type and name, the live name of its type, and the display name built from its logical and live names |
| Core.MatchResources | src/drift_detector/core.py:146-227 | one matching entry per matched key, built for that key |
| Core.MatchingEntriesFit | src/drift_detector/core.py:146-227 | the loop's entries are exactly the matching records of the matched keys, one per key |
| Core.MatchEntries | src/drift_detector/core.py:146-227 | the matching list is exactly one `MatchRecordFor` entry per matched key, and nothing else |
| Core.MetaBlockErrorPersists | src/drift_detector/core.py:251-277 | once a meta key is unhashable, the block's outcome is that error |
| Core.MetaErrorPersists | src/drift_detector/core.py:247-277 | once a block fails, the meta collection's outcome is that error |
| Core.CollectMeta | src/drift_detector/core.py:244-277 | the meta loop computes the meta fold |
| Core.CollectMetaBlock | src/drift_detector/core.py:244-277 | the inner meta loop computes the fold over one meta block's instances |
| Core.MetaKey | src/drift_detector/core.py:253-271 | the meta key: the first truthy ARN field, else the first truthy ID field, else `{type}.{name}_{idx}`. It has no contract of its own; `HybridKeyPrefersArn` and `HybridKeyThenId` state it |
| Core.MetaValue | src/drift_detector/core.py:253-270 | always truthy: the reported ARN or ID, or `(no id/arn)` |
| Core.ListUnmatched | src/drift_detector/core.py:286-295 | exactly one entry per undetected key the key map knows, with that key's type and name; for keys all in the map, exactly the unmatched records of those keys |
| Core.UnmatchedEntriesFit | src/drift_detector/core.py:286-295 | entries built one per key, in some order, are exactly the unmatched records of those keys |
| Core.UndetectedWithinKeys | src/drift_detector/core.py:280 | the unmatched, undetected keys are state keys, so each is in the key map |
| Core.KeyingBounded | src/drift_detector/core.py:65-130 | the key set is the key map's domain and has no more keys than there are instances |
| Core.SummaryFitsOfParts | src/drift_detector/core.py:298-312 | the summary fits when each of its fields is the one the source computes |
| Core.Summarise | src/drift_detector/core.py:55-312 | succeeds exactly when the state keying and the meta collection both succeed, passing on the first error otherwise; a summary has the block and instance counts, the key total, the drift count, the skipped set, exactly the matching entries of the matched keys, the meta entries, and exactly the unmatched records of the undetected keys |
| Core.Detect | src/drift_detector/core.py:34-317 | for any fetch step and drift step: a state-read failure, a fetch failure, a comparison failure, a keying failure or a meta failure each gives the error report with its message and no drifts; otherwise a report carrying the run's records, detecting drift exactly when there are records, with the summary of the source |
| Core.DetectDrift | src/drift_detector/core.py:34-317 | `detect_drift` with the routing fetch step and the comparator drift step: the stage-by-stage outcome of `Detect` |
| KeyAgreement.CoreKeyIsHybridKey | src/drift_detector/core.py:93-128 | outside permissions and deployments, `str()` of the detect-drift key is the EC2 fetcher's hybrid key |
| KeyAgreement.PlainKindsAgree | src/drift_detector/comparators/base.py:111-118 | outside the composites, the comparator key equals the live key |
| KeyAgreement.EventTargetKeysAgree | src/drift_detector/fetchers/base.py:319-324 | event targets are fetched under exactly the comparator's key |
| KeyAgreement.LambdaPermissionKeysAgree | src/drift_detector/fetchers/base.py:327-333 | lambda permissions are fetched under exactly the comparator's key, and fail alike |
| KeyAgreement.SqsKeysAgree | src/drift_detector/fetchers/sqs_fetchers.py:29-30 | a queue with an ARN is stored under the comparator's key for it |
| KeyAgreement.MethodOutsideGroups | src/drift_detector/fetchers/base.py:296-333 | a method type matches none of the IAM, ECS or network prefixes tested before it |
| KeyAgreement.RouteOfApigatewayMethod | src/drift_detector/fetchers/base.py:296-411 | a method type takes the API Gateway branch |
| KeyAgreement.MethodLiveKey | src/drift_detector/fetchers/base.py:155-168 | a method without `arn` and `id` is keyed `agm-…` or positionally |
| KeyAgreement.MethodFetchedUnderLiveKey | src/drift_detector/fetchers/base.py:278-286 | a method is fetched under its live key |
| KeyAgreement.ApigatewayMethodKeysNeverMeet | src/drift_detector/comparators/base.py:150-154 | without `arn` and `id`, a method's live key never equals its `apigw_method:` state key |
| KeyAgreement.EventRuleKeysMeetIffNoBus | src/drift_detector/fetchers/base.py:314-318 | an event rule's live key equals its state key exactly when it has no bus name |
| KeyAgreement.PermissionKeysAgreeOnPlainNames | src/drift_detector/core.py:77-83 | with a plain function name, the comparator and detect-drift keys of a permission agree |
| KeyAgreement.PermissionKeysDifferOnArnNames | src/drift_detector/comparators/base.py:128-134 | with an ARN function name, the comparator key (cut) differs from the detect-drift key (as written) |
| Python.PlainStrRepr | src/config.py:45-46 | `repr()` of printable ASCII text without a single quote is that text between single quotes |
| Python.SingleQuotedStrRepr | src/config.py:45-46 | `repr()` of printable ASCII text with a single quote and no double quote is that text between double quotes |
| Configuration.StripLeft | src/config.py:45-46 | the stripped text is a suffix that starts with no whitespace, and is the input when there was none to strip |
| Configuration.StripRight | src/config.py:45-46 | the stripped text is a prefix that ends with no whitespace, and is the input when there was none to strip |
| Configuration.Truncated | src/config.py:45-46 | the first n characters, the text itself when it is no longer, as the message's `%.200R` keeps |
| Configuration.ParseInt | src/config.py:45-46 | `int()` raises only with the invalid-literal ValueError |
| Configuration.InvalidLiteralQuotesPlainText | src/config.py:45-46 | for a short literal of printable ASCII without a single quote, the message quotes the literal as it is |
| Configuration.DigitsValueOfNat | src/config.py:45-46 | the digits of a natural number read back as that number |
| Configuration.StripUnchanged | src/config.py:45-46 | text with no whitespace at either end is unchanged by stripping |
| Configuration.ParseDigits | src/config.py:45-46 | a run of digits parses to its value |
| Configuration.ParseNegativeDigits | src/config.py:45-46 | a minus sign and digits parse to the negated value |
| Configuration.ParseIntOfString | src/config.py:45-46 | `int(str(i)) == i` for every integer |
| Configuration.StripLeftSpaces | src/config.py:45-46 | leading whitespace is dropped up to the first other character |
| Configuration.StripRightSpaces | src/config.py:45-46 | trailing whitespace is dropped back to the last other character |
| Configuration.ParseIntBySameStrip | src/config.py:45-46 | two texts with the same stripped form parse alike |
| Configuration.ParseStrippedDigits | src/config.py:45-46 | a text whose stripped form is a digit string parses to the value of those digits |
| Configuration.ParseIntStripsWhitespace | src/config.py:45-46 | for every literal and all whitespace around it, the surrounded text parses exactly when the literal does, to the same value |
| Configuration.UnderscoresIgnored | src/config.py:45-46 | removing the underscores from digits and underscores leaves digits of the same value |
| Configuration.ParseIntSkipsUnderscores | src/config.py:45-46 | every literal with single underscores between digits parses to the value of its digits alone, the same as the literal without its underscores |
| Configuration.ParseIntRefusesBlank | src/config.py:45-46 | every all-whitespace text, the empty one included, is refused with the invalid-literal error |
| Configuration.LoadConfig | src/config.py:21-54 | succeeds exactly when the path is set, starts `s3://` and both numbers parse; a success carries the environment's values or the defaults; every failure is a ValueError |
| Configuration.MissingPathRefused | src/config.py:32-34 | a missing or empty path is refused with a message naming the variable |
| Configuration.NonS3PathRefused | src/config.py:37-40 | a path not starting `s3://` is refused with a message containing `must be a valid S3 path` |
| Configuration.DefaultsApply | src/config.py:43-53 | with only the path set: no region, `INFO`, 3 retries, 30 seconds |
| Configuration.SuppliedValuesOverride | src/config.py:43-53 | supplied values override the defaults, the numbers parsed from their text |
| Configuration.BadRetriesRefused | src/config.py:45 | an unparsable retry count raises `int()`'s ValueError |

## Left out

- Reading or downloading the state file and creating the AWS clients (`src/drift_detector/core.py:34-52`) are left out. `DetectDrift` takes the parsed state, or the failure to get it, as a parameter.
- Every boto3 call is left out: the per-service fetch functions, `resource_fetchers.py`, `fetch_ec2_instance_resources` and the AWS side of `fetch_sqs_resources`. Fetchers are the parameter `fetch`; the SQS listing and attribute fetches are parameters of `FetchSqsResources`.
- The region argument of `get_live_aws_resources` is left out: it only reaches the clients.
- `json.loads` is the parameter `loads`, with None standing for a parse error. `json.dumps(sort_keys=True)` is written out, but floats are shown by an abstract text.
- `str()` of a list or dict is a Python-like rendering that shows dict keys in sorted order, where Python keeps insertion order. Strings inside it are written by `Python.StrRepr`.
- Python.StrRepr: escapes ASCII only. Python's `repr()` also escapes non-printable characters outside ASCII; here they are written as themselves, because Unicode's printable classes are outside an ASCII model.
- Floats are held as their `repr()` text. So `-0.0` and `0.0` compare unequal, and a `nan` compares equal to itself, where Python does the opposite for both. Every comparator's `!=` and the policy normalisations inherit this. Truthiness does treat both zeros as false.
- Python's cross-type equality (`True == 1 == 1.0`) is not modelled; values of different kinds are unequal.
- Set iteration order is not modelled. The order of `matching_resources`, `skipped_resources` and the unmatched lists is left unspecified, as in Python.
- The timestamps (`src/drift_detector/comparators/base.py:202`, `src/drift_detector/resource_comparators.py:66-69`) and the STS account lookup of the legacy comparator are left out. They are clock and network reads.
- Debug prints and logging are left out.
- Configuration.ParseInt: accepts ASCII digits and ASCII whitespace only, because `int()`'s Unicode digits and spaces are outside an ASCII model. The literal its message quotes is written by `Python.StrRepr`, with the limits given for it.
- FetchersBase.RouteTableAssociationKey: the source stores a route-table association under its raw `id` value; the model stores `str()` of it, the same text for the string ids AWS returns, because live keys are strings here.
- The live value of every entry is assumed to be a dict. Resource `type` and `name` are assumed to be strings, and `instances` absent or a list.
