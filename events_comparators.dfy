/** The EventBridge comparators: buses, rules and targets, behind a prefix dispatch. Fields
    are compared with Python `!=`; `str()` is applied only to the reported values. */
module EventsComparators {
  import opened Text
  import opened Python
  import opened Differences

  /** `_compare_eventbridge_bus_attributes`: state `name` against live `Name`. */
  function CompareBusAttributes(state: Bag, live: Bag): (r: seq<Difference>)
    ensures r == [] <==> GetV(state, "name") == GetV(live, "Name")
    ensures r != [] ==> r == [AttributeDiff("bus_name", StrOf(GetV(state, "name")), StrOf(GetV(live, "Name")))]
  {
    RunChecks([Compared("bus_name", GetV(state, "name"), GetV(live, "Name"))])
  }

  /** `_compare_eventbridge_rule_attributes`: state `name` against live `Name`. */
  function CompareRuleAttributes(state: Bag, live: Bag): (r: seq<Difference>)
    ensures r == [] <==> GetV(state, "name") == GetV(live, "Name")
    ensures r != [] ==> r == [AttributeDiff("rule_name", StrOf(GetV(state, "name")), StrOf(GetV(live, "Name")))]
  {
    RunChecks([Compared("rule_name", GetV(state, "name"), GetV(live, "Name"))])
  }

  /** `_compare_eventbridge_target_attributes`: `target_id` against `Id`, then `arn`
      against `Arn`. */
  function CompareTargetAttributes(state: Bag, live: Bag): (r: seq<Difference>)
    ensures |r| <= 2
    ensures SubsequenceOf(Attributes(r), ["target_id", "arn"])
    ensures AttributeDiff("target_id", StrOf(GetV(state, "target_id")), StrOf(GetV(live, "Id"))) in r
      <==> GetV(state, "target_id") != GetV(live, "Id")
    ensures AttributeDiff("arn", StrOf(GetV(state, "arn")), StrOf(GetV(live, "Arn"))) in r
      <==> GetV(state, "arn") != GetV(live, "Arn")
    ensures forall d :: d in r ==>
      d == AttributeDiff("target_id", StrOf(GetV(state, "target_id")), StrOf(GetV(live, "Id"))) ||
      d == AttributeDiff("arn", StrOf(GetV(state, "arn")), StrOf(GetV(live, "Arn")))
  {
    var checks := [
      Compared("target_id", GetV(state, "target_id"), GetV(live, "Id")),
      Compared("arn", GetV(state, "arn"), GetV(live, "Arn"))];
    assert Names(checks) == ["target_id", "arn"];
    RunChecks(checks)
  }

  /** `compare_events_attributes`: buses, rules, targets, else no differences. */
  function CompareEventsAttributes(state: Bag, live: Bag, resourceType: string): (r: seq<Difference>)
    ensures StartsWith(resourceType, "aws_cloudwatch_event_bus") ==> r == CompareBusAttributes(state, live)
    ensures !StartsWith(resourceType, "aws_cloudwatch_event_bus") && StartsWith(resourceType, "aws_cloudwatch_event_rule")
      ==> r == CompareRuleAttributes(state, live)
    ensures (!StartsWith(resourceType, "aws_cloudwatch_event_bus") && !StartsWith(resourceType, "aws_cloudwatch_event_rule")
             && StartsWith(resourceType, "aws_cloudwatch_event_target")) ==> r == CompareTargetAttributes(state, live)
    ensures (!StartsWith(resourceType, "aws_cloudwatch_event_bus") && !StartsWith(resourceType, "aws_cloudwatch_event_rule")
             && !StartsWith(resourceType, "aws_cloudwatch_event_target")) ==> r == []
  {
    if StartsWith(resourceType, "aws_cloudwatch_event_bus") then CompareBusAttributes(state, live)
    else if StartsWith(resourceType, "aws_cloudwatch_event_rule") then CompareRuleAttributes(state, live)
    else if StartsWith(resourceType, "aws_cloudwatch_event_target") then CompareTargetAttributes(state, live)
    else []
  }
}
