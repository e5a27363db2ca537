/** The Lambda comparators: functions and permissions, behind a prefix dispatch. */
module LambdaComparators {
  import opened Text
  import opened Python
  import opened Differences

  /** `_compare_lambda_function_attributes`: state `function_name` against live
      `FunctionName`. */
  function CompareFunctionAttributes(state: Bag, live: Bag): (r: seq<Difference>)
    ensures r == [] <==> GetV(state, "function_name") == GetV(live, "FunctionName")
    ensures r != [] ==>
      r == [AttributeDiff("function_name", StrOf(GetV(state, "function_name")), StrOf(GetV(live, "FunctionName")))]
  {
    RunChecks([Compared("function_name", GetV(state, "function_name"), GetV(live, "FunctionName"))])
  }

  /** The principal the state value is compared with: a live `{"Service": s}` dict stands
      for `s`; any other value stands for itself. */
  function UnwrapPrincipal(principal: Value): Value {
    if principal.Map? && "Service" in principal.entries then principal.entries["Service"] else principal
  }

  const PermissionFields: seq<string> := ["statement_id", "action", "principal"]

  /** The three checks of the permission comparator, in order. */
  function PermissionChecks(state: Bag, live: Bag): (cs: seq<Check>)
    ensures |cs| == 3 && Names(cs) == PermissionFields
    ensures cs[0] == Compared("statement_id", GetV(state, "statement_id"), GetV(live, "Sid"))
    ensures cs[1] == Compared("action", GetV(state, "action"), GetV(live, "Action"))
    ensures cs[2] == Check("principal", GetV(state, "principal") != UnwrapPrincipal(GetV(live, "Principal")),
                           StrOf(GetV(state, "principal")), StrOf(GetV(live, "Principal")))
  {
    var principal := GetV(live, "Principal");
    var cs := [
      Compared("statement_id", GetV(state, "statement_id"), GetV(live, "Sid")),
      Compared("action", GetV(state, "action"), GetV(live, "Action")),
      Check("principal", GetV(state, "principal") != UnwrapPrincipal(principal),
            StrOf(GetV(state, "principal")), StrOf(principal))];
    assert Names(cs) == PermissionFields;
    cs
  }

  /** `_compare_lambda_permission_attributes`: `statement_id` against `Sid`, `action`
      against `Action`, then `principal` against the unwrapped live `Principal`, reporting
      the live principal as it was. */
  function ComparePermissionAttributes(state: Bag, live: Bag): (r: seq<Difference>)
    ensures |r| <= 3
    ensures SubsequenceOf(Attributes(r), PermissionFields)
  {
    RunChecks(PermissionChecks(state, live))
  }

  lemma PermissionFieldsDistinct()
    ensures Distinct(PermissionFields)
  {
  }

  /** Each record is reported exactly when its check fails. */
  lemma PermissionRecordsPresent(state: Bag, live: Bag)
    ensures AttributeDiff("statement_id", StrOf(GetV(state, "statement_id")), StrOf(GetV(live, "Sid"))) in ComparePermissionAttributes(state, live)
      <==> GetV(state, "statement_id") != GetV(live, "Sid")
    ensures AttributeDiff("action", StrOf(GetV(state, "action")), StrOf(GetV(live, "Action"))) in ComparePermissionAttributes(state, live)
      <==> GetV(state, "action") != GetV(live, "Action")
    ensures AttributeDiff("principal", StrOf(GetV(state, "principal")), StrOf(GetV(live, "Principal"))) in ComparePermissionAttributes(state, live)
      <==> GetV(state, "principal") != UnwrapPrincipal(GetV(live, "Principal"))
  {
    var checks := PermissionChecks(state, live);
    PermissionFieldsDistinct();
    assert forall i :: 0 <= i < 3 ==> checks[i].attribute == PermissionFields[i];
    RunChecksDistinct(checks);
  }

  /** No other record is reported. */
  lemma PermissionRecordsOnly(state: Bag, live: Bag)
    ensures forall d :: d in ComparePermissionAttributes(state, live) ==>
      d == AttributeDiff("statement_id", StrOf(GetV(state, "statement_id")), StrOf(GetV(live, "Sid"))) ||
      d == AttributeDiff("action", StrOf(GetV(state, "action")), StrOf(GetV(live, "Action"))) ||
      d == AttributeDiff("principal", StrOf(GetV(state, "principal")), StrOf(GetV(live, "Principal")))
  {
    RunThreeChecks(PermissionChecks(state, live));
  }

  /** A service principal in state matches the `{"Service": …}` form AWS returns. */
  lemma ServicePrincipalUnwrapped(state: Bag, live: Bag, service: string)
    requires GetV(state, "principal") == Str(service)
    requires GetV(live, "Principal") == Map(map["Service" := Str(service)])
    ensures forall d :: d in ComparePermissionAttributes(state, live) ==> d.attribute != "principal"
  {
    PermissionRecordsPresent(state, live);
    PermissionRecordsOnly(state, live);
    PermissionFieldsDistinct();
    assert PermissionFields[2] == "principal";
  }

  /** A principal that is not a dict with a `Service` key is compared as it is. */
  lemma OtherPrincipalsComparedAsIs(state: Bag, live: Bag)
    requires !(GetV(live, "Principal").Map? && "Service" in GetV(live, "Principal").entries)
    ensures (exists d :: d in ComparePermissionAttributes(state, live) && d.attribute == "principal")
      <==> GetV(state, "principal") != GetV(live, "Principal")
  {
    PermissionRecordsPresent(state, live);
    PermissionRecordsOnly(state, live);
    PermissionFieldsDistinct();
    assert PermissionFields[2] == "principal";
  }

  /** `compare_lambda_attributes(state, live, resource_type="")`: permissions go to the
      permission comparator; any other type, the empty default included, to the function
      comparator. */
  function CompareLambdaAttributes(state: Bag, live: Bag, resourceType: string := ""): (r: seq<Difference>)
    ensures StartsWith(resourceType, "aws_lambda_permission") ==> r == ComparePermissionAttributes(state, live)
    ensures !StartsWith(resourceType, "aws_lambda_permission") ==> r == CompareFunctionAttributes(state, live)
  {
    if resourceType != "" && StartsWith(resourceType, "aws_lambda_permission") then
      ComparePermissionAttributes(state, live)
    else
      CompareFunctionAttributes(state, live)
  }
}
