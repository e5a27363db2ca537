/** The ECS comparators: clusters and services, behind a prefix dispatch. */
module EcsComparators {
  import opened Text
  import opened Python
  import opened Differences

  /** `_compare_ecs_cluster_attributes`: state `name` against live `clusterName`. */
  function CompareClusterAttributes(state: Bag, live: Bag): (r: seq<Difference>)
    ensures r == [] <==> GetV(state, "name") == GetV(live, "clusterName")
    ensures r != [] ==>
      r == [AttributeDiff("cluster_name", StrOf(GetV(state, "name")), StrOf(GetV(live, "clusterName")))]
  {
    RunChecks([Compared("cluster_name", GetV(state, "name"), GetV(live, "clusterName"))])
  }

  /** `_compare_ecs_service_attributes`: state `name` against live `serviceName`. */
  function CompareServiceAttributes(state: Bag, live: Bag): (r: seq<Difference>)
    ensures r == [] <==> GetV(state, "name") == GetV(live, "serviceName")
    ensures r != [] ==>
      r == [AttributeDiff("service_name", StrOf(GetV(state, "name")), StrOf(GetV(live, "serviceName")))]
  {
    RunChecks([Compared("service_name", GetV(state, "name"), GetV(live, "serviceName"))])
  }

  /** `compare_ecs_attributes`: clusters, then services, else no differences. */
  function CompareEcsAttributes(state: Bag, live: Bag, resourceType: string): (r: seq<Difference>)
    ensures StartsWith(resourceType, "aws_ecs_cluster") ==> r == CompareClusterAttributes(state, live)
    ensures !StartsWith(resourceType, "aws_ecs_cluster") && StartsWith(resourceType, "aws_ecs_service")
      ==> r == CompareServiceAttributes(state, live)
    ensures !StartsWith(resourceType, "aws_ecs_cluster") && !StartsWith(resourceType, "aws_ecs_service")
      ==> r == []
    ensures |r| <= 1
  {
    if StartsWith(resourceType, "aws_ecs_cluster") then CompareClusterAttributes(state, live)
    else if StartsWith(resourceType, "aws_ecs_service") then CompareServiceAttributes(state, live)
    else []
  }
}
