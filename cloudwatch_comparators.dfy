/** The CloudWatch comparators: dashboards and metric alarms, behind a prefix dispatch. */
module CloudwatchComparators {
  import opened Text
  import opened Python
  import opened Differences

  /** `_compare_cloudwatch_dashboard_attributes`: the dashboard name. */
  function CompareDashboardAttributes(state: Bag, live: Bag): (r: seq<Difference>)
    ensures r == [] <==> GetV(state, "dashboard_name") == GetV(live, "DashboardName")
    ensures r != [] ==>
      r == [AttributeDiff("dashboard_name", StrOf(GetV(state, "dashboard_name")), StrOf(GetV(live, "DashboardName")))]
  {
    RunChecks([Compared("dashboard_name", GetV(state, "dashboard_name"), GetV(live, "DashboardName"))])
  }

  /** `_compare_cloudwatch_alarm_attributes`: the alarm name. */
  function CompareAlarmAttributes(state: Bag, live: Bag): (r: seq<Difference>)
    ensures r == [] <==> GetV(state, "alarm_name") == GetV(live, "AlarmName")
    ensures r != [] ==>
      r == [AttributeDiff("alarm_name", StrOf(GetV(state, "alarm_name")), StrOf(GetV(live, "AlarmName")))]
  {
    RunChecks([Compared("alarm_name", GetV(state, "alarm_name"), GetV(live, "AlarmName"))])
  }

  /** `compare_cloudwatch_attributes`: dashboards, then alarms, else no differences. */
  function CompareCloudwatchAttributes(state: Bag, live: Bag, resourceType: string): (r: seq<Difference>)
    ensures StartsWith(resourceType, "aws_cloudwatch_dashboard") ==> r == CompareDashboardAttributes(state, live)
    ensures !StartsWith(resourceType, "aws_cloudwatch_dashboard") && StartsWith(resourceType, "aws_cloudwatch_metric_alarm")
      ==> r == CompareAlarmAttributes(state, live)
    ensures !StartsWith(resourceType, "aws_cloudwatch_dashboard") && !StartsWith(resourceType, "aws_cloudwatch_metric_alarm")
      ==> r == []
    ensures |r| <= 1
  {
    if StartsWith(resourceType, "aws_cloudwatch_dashboard") then CompareDashboardAttributes(state, live)
    else if StartsWith(resourceType, "aws_cloudwatch_metric_alarm") then CompareAlarmAttributes(state, live)
    else []
  }
}
