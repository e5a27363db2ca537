/** The comparator `compare_ec2_instance_attributes`: the instance type of an EC2 instance. */
module Ec2InstancesComparator {
  import opened Python
  import opened Differences

  /** Compares state `instance_type` with live `InstanceType` under Python `!=`; a difference is one
      `instance_type` record carrying `str()` of both sides. */
  function CompareEc2InstanceAttributes(state: Bag, live: Bag): (r: seq<Difference>)
    ensures r == [] <==> GetV(state, "instance_type") == GetV(live, "InstanceType")
    ensures r != [] ==>
      r == [AttributeDiff("instance_type", StrOf(GetV(state, "instance_type")), StrOf(GetV(live, "InstanceType")))]
  {
    RunChecks([Compared("instance_type", GetV(state, "instance_type"), GetV(live, "InstanceType"))])
  }
}
