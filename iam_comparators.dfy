/** The IAM comparators: roles, policies, inline role policies and OpenID Connect
    providers, behind a prefix dispatch. */
module IamComparators {
  import opened Text
  import opened Python
  import opened Json
  import opened Differences

  /** `_compare_iam_role_attributes`: state `name` against live `RoleName`. */
  function CompareRoleAttributes(state: Bag, live: Bag): (r: seq<Difference>)
    ensures r == [] <==> GetV(state, "name") == GetV(live, "RoleName")
    ensures r != [] ==> r == [AttributeDiff("role_name", StrOf(GetV(state, "name")), StrOf(GetV(live, "RoleName")))]
  {
    RunChecks([Compared("role_name", GetV(state, "name"), GetV(live, "RoleName"))])
  }

  /** `_compare_iam_policy_attributes`: state `name` against live `PolicyName`. */
  function ComparePolicyAttributes(state: Bag, live: Bag): (r: seq<Difference>)
    ensures r == [] <==> GetV(state, "name") == GetV(live, "PolicyName")
    ensures r != [] ==> r == [AttributeDiff("policy_name", StrOf(GetV(state, "name")), StrOf(GetV(live, "PolicyName")))]
  {
    RunChecks([Compared("policy_name", GetV(state, "name"), GetV(live, "PolicyName"))])
  }

  /** `_compare_iam_openid_connect_provider_attributes`: `arn` on both sides. */
  function CompareOpenIdConnectProviderAttributes(state: Bag, live: Bag): (r: seq<Difference>)
    ensures r == [] <==> GetV(state, "arn") == GetV(live, "arn")
    ensures r != [] ==> r == [AttributeDiff("provider_arn", StrOf(GetV(state, "arn")), StrOf(GetV(live, "arn")))]
  {
    RunChecks([Compared("provider_arn", GetV(state, "arn"), GetV(live, "arn"))])
  }

  /** Whether the inline policy documents differ. When both are truthy, a state document
      held as a string is decoded and the result compared with the live document as it is;
      a decoding failure, a falsy side or a non-string state document falls back to `!=` on
      the raw values. */
  function PolicyDocumentsDiffer(loads: Loads, stateDoc: Value, liveDoc: Value): bool {
    if Truthy(stateDoc) && Truthy(liveDoc) && stateDoc.Str? && loads(stateDoc.s).Some? then
      loads(stateDoc.s).value != liveDoc
    else
      stateDoc != liveDoc
  }

  const RolePolicyFields: seq<string> := ["role_name", "policy_name", "policy_document"]

  /** The three checks of the inline role-policy comparator, in order. */
  function RolePolicyChecks(loads: Loads, state: Bag, live: Bag): (cs: seq<Check>)
    ensures |cs| == 3 && Names(cs) == RolePolicyFields
    ensures cs[0] == Compared("role_name", GetV(state, "role"), GetV(live, "role_name"))
    ensures cs[1] == Compared("policy_name", GetV(state, "name"), GetV(live, "policy_name"))
    ensures cs[2] == Check("policy_document", PolicyDocumentsDiffer(loads, GetV(state, "policy"), GetV(live, "policy")),
                           StrOf(GetV(state, "policy")), StrOf(GetV(live, "policy")))
  {
    var stateDoc, liveDoc := GetV(state, "policy"), GetV(live, "policy");
    var cs := [
      Compared("role_name", GetV(state, "role"), GetV(live, "role_name")),
      Compared("policy_name", GetV(state, "name"), GetV(live, "policy_name")),
      Check("policy_document", PolicyDocumentsDiffer(loads, stateDoc, liveDoc), StrOf(stateDoc), StrOf(liveDoc))];
    assert Names(cs) == RolePolicyFields;
    cs
  }

  /** `_compare_iam_role_policy_attributes`: `role` against `role_name`, `name` against
      `policy_name`, then the policy documents. */
  function CompareRolePolicyAttributes(loads: Loads, state: Bag, live: Bag): (r: seq<Difference>)
    ensures |r| <= 3
    ensures SubsequenceOf(Attributes(r), RolePolicyFields)
  {
    RunChecks(RolePolicyChecks(loads, state, live))
  }

  lemma RolePolicyFieldsDistinct()
    ensures Distinct(RolePolicyFields)
  {
  }

  /** Each record is reported exactly when its check fails. */
  lemma RolePolicyRecordsPresent(loads: Loads, state: Bag, live: Bag)
    ensures AttributeDiff("role_name", StrOf(GetV(state, "role")), StrOf(GetV(live, "role_name"))) in CompareRolePolicyAttributes(loads, state, live)
      <==> GetV(state, "role") != GetV(live, "role_name")
    ensures AttributeDiff("policy_name", StrOf(GetV(state, "name")), StrOf(GetV(live, "policy_name"))) in CompareRolePolicyAttributes(loads, state, live)
      <==> GetV(state, "name") != GetV(live, "policy_name")
    ensures AttributeDiff("policy_document", StrOf(GetV(state, "policy")), StrOf(GetV(live, "policy"))) in CompareRolePolicyAttributes(loads, state, live)
      <==> PolicyDocumentsDiffer(loads, GetV(state, "policy"), GetV(live, "policy"))
  {
    var checks := RolePolicyChecks(loads, state, live);
    RolePolicyFieldsDistinct();
    assert forall i :: 0 <= i < 3 ==> checks[i].attribute == RolePolicyFields[i];
    RunChecksDistinct(checks);
  }

  /** No other record is reported. */
  lemma RolePolicyRecordsOnly(loads: Loads, state: Bag, live: Bag)
    ensures forall d :: d in CompareRolePolicyAttributes(loads, state, live) ==>
      d == AttributeDiff("role_name", StrOf(GetV(state, "role")), StrOf(GetV(live, "role_name"))) ||
      d == AttributeDiff("policy_name", StrOf(GetV(state, "name")), StrOf(GetV(live, "policy_name"))) ||
      d == AttributeDiff("policy_document", StrOf(GetV(state, "policy")), StrOf(GetV(live, "policy")))
  {
    RunThreeChecks(RolePolicyChecks(loads, state, live));
  }

  /** The policy-document records of a result. */
  predicate ReportsDocument(r: seq<Difference>) {
    exists d :: d in r && d.AttributeDiff? && d.attribute == "policy_document"
  }

  lemma DocumentReportedIff(loads: Loads, state: Bag, live: Bag)
    ensures ReportsDocument(CompareRolePolicyAttributes(loads, state, live))
      <==> PolicyDocumentsDiffer(loads, GetV(state, "policy"), GetV(live, "policy"))
  {
    RolePolicyRecordsPresent(loads, state, live);
    RolePolicyRecordsOnly(loads, state, live);
    RolePolicyFieldsDistinct();
    assert RolePolicyFields[2] == "policy_document";
  }

  /** A state document held as JSON text that decodes to the live document is no drift. */
  lemma DecodedDocumentMatches(loads: Loads, state: Bag, live: Bag, text: string)
    requires GetV(state, "policy") == Str(text) && text != ""
    requires loads(text) == Some(GetV(live, "policy")) && Truthy(GetV(live, "policy"))
    ensures !ReportsDocument(CompareRolePolicyAttributes(loads, state, live))
  {
    DocumentReportedIff(loads, state, live);
  }

  /** Only the state side is decoded: a live document that is itself the same JSON text as
      the state's, which decodes to a dict, is reported as drift. */
  lemma LiveTextNotDecoded(loads: Loads, state: Bag, live: Bag, text: string, doc: map<string, Value>)
    requires GetV(state, "policy") == Str(text) && GetV(live, "policy") == Str(text) && text != ""
    requires loads(text) == Some(Map(doc))
    ensures ReportsDocument(CompareRolePolicyAttributes(loads, state, live))
  {
    DocumentReportedIff(loads, state, live);
  }

  /** Text that does not decode is compared as text. */
  lemma UndecodableComparedRaw(loads: Loads, state: Bag, live: Bag, text: string)
    requires GetV(state, "policy") == Str(text) && loads(text) == None
    ensures ReportsDocument(CompareRolePolicyAttributes(loads, state, live))
      <==> Str(text) != GetV(live, "policy")
  {
    DocumentReportedIff(loads, state, live);
  }

  /** A missing document against an empty one is drift: the raw values differ. */
  lemma MissingAgainstEmptyIsDrift(loads: Loads, state: Bag, live: Bag)
    requires !Has(state, "policy") && GetV(live, "policy") == Str("")
    ensures ReportsDocument(CompareRolePolicyAttributes(loads, state, live))
  {
    DocumentReportedIff(loads, state, live);
  }

  /** `compare_iam_attributes`: inline role policies before roles, then policies, then
      OpenID Connect providers, else no differences. */
  function CompareIamAttributes(loads: Loads, state: Bag, live: Bag, resourceType: string): (r: seq<Difference>)
    ensures StartsWith(resourceType, "aws_iam_role_policy") ==> r == CompareRolePolicyAttributes(loads, state, live)
    ensures (!StartsWith(resourceType, "aws_iam_role_policy") && StartsWith(resourceType, "aws_iam_role"))
      ==> r == CompareRoleAttributes(state, live)
    ensures (!StartsWith(resourceType, "aws_iam_role") && StartsWith(resourceType, "aws_iam_policy"))
      ==> r == ComparePolicyAttributes(state, live)
    ensures (!StartsWith(resourceType, "aws_iam_role") && !StartsWith(resourceType, "aws_iam_policy")
             && StartsWith(resourceType, "aws_iam_openid_connect_provider"))
      ==> r == CompareOpenIdConnectProviderAttributes(state, live)
    ensures (!StartsWith(resourceType, "aws_iam_role") && !StartsWith(resourceType, "aws_iam_policy")
             && !StartsWith(resourceType, "aws_iam_openid_connect_provider")) ==> r == []
  {
    if StartsWith(resourceType, "aws_iam_role_policy") then
      PrefixOfPrefix(resourceType, "aws_iam_role_policy", "aws_iam_role");
      CompareRolePolicyAttributes(loads, state, live)
    else if StartsWith(resourceType, "aws_iam_role") then CompareRoleAttributes(state, live)
    else if StartsWith(resourceType, "aws_iam_policy") then ComparePolicyAttributes(state, live)
    else if StartsWith(resourceType, "aws_iam_openid_connect_provider") then
      CompareOpenIdConnectProviderAttributes(state, live)
    else []
  }
}
