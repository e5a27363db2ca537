/** The live-side hybrid key of the EC2 instance fetcher: an ARN field, else an id field,
    else the positional key. */
module Ec2InstancesFetcher {
  import opened Python
  import opened Keys

  /** The ARN fields, in the order they are tried. */
  const HybridArnFields := ["arn", "Arn", "ARN"]

  /** The id fields, tried only when no ARN field is truthy. */
  const HybridIdFields := ["id", "Id", "ID", "instance_id", "InstanceId", "resource_id", "ResourceId"]

  /** `extract_hybrid_key_from_attributes`; total, it never raises. */
  function ExtractHybridKeyFromAttributes(attributes: Bag, resourceType: string, resourceName: string, idx: int := 0): (r: string)
  {
    match FirstTruthy(attributes, HybridArnFields)
    case Some(arn) => StrOf(arn)
    case None =>
      match FirstTruthy(attributes, HybridIdFields)
      case Some(id) => StrOf(id)
      case None => FallbackKey(resourceType, resourceName, idx)
  }

  /** The first truthy ARN field decides the key. */
  lemma HybridKeyPrefersArn(attributes: Bag, resourceType: string, resourceName: string, idx: int, i: int)
    requires FirstTruthyAt(attributes, HybridArnFields, i)
    ensures ExtractHybridKeyFromAttributes(attributes, resourceType, resourceName, idx) ==
      StrOf(GetV(attributes, HybridArnFields[i]))
  {
    FirstTruthyAtIsFirstTruthy(attributes, HybridArnFields, i);
  }

  /** With every ARN field falsy, the first truthy id field decides the key. */
  lemma HybridKeyThenId(attributes: Bag, resourceType: string, resourceName: string, idx: int, i: int)
    requires forall j :: 0 <= j < |HybridArnFields| ==> !Truthy(GetV(attributes, HybridArnFields[j]))
    requires FirstTruthyAt(attributes, HybridIdFields, i)
    ensures ExtractHybridKeyFromAttributes(attributes, resourceType, resourceName, idx) ==
      StrOf(GetV(attributes, HybridIdFields[i]))
  {
    FirstTruthyAtIsFirstTruthy(attributes, HybridIdFields, i);
  }

  /** With neither, the key is positional; the index defaults to 0. */
  lemma HybridKeyFallback(attributes: Bag, resourceType: string, resourceName: string, idx: int)
    requires forall j :: 0 <= j < |HybridArnFields| ==> !Truthy(GetV(attributes, HybridArnFields[j]))
    requires forall j :: 0 <= j < |HybridIdFields| ==> !Truthy(GetV(attributes, HybridIdFields[j]))
    ensures ExtractHybridKeyFromAttributes(attributes, resourceType, resourceName, idx) ==
      resourceType + "." + resourceName + "_" + StrOfInt(idx)
    ensures ExtractHybridKeyFromAttributes(attributes, resourceType, resourceName) ==
      resourceType + "." + resourceName + "_0"
  {
  }

  /** A present but falsy value is skipped as if it were absent. */
  lemma HybridKeySkipsFalsy(attributes: Bag, field: string, v: Value, resourceType: string, resourceName: string, idx: int)
    requires !Has(attributes, field) && !Truthy(v)
    ensures ExtractHybridKeyFromAttributes(Put(attributes, field, v), resourceType, resourceName, idx) ==
      ExtractHybridKeyFromAttributes(attributes, resourceType, resourceName, idx)
  {
    var withField := Put(attributes, field, v);
    FirstTruthyIgnoresFalsy(withField, attributes, HybridArnFields);
    FirstTruthyIgnoresFalsy(withField, attributes, HybridIdFields);
  }
}
