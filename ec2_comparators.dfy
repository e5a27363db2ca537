/** The EC2 router: VPCs to the VPC comparator, everything else to the instance comparator. */
module Ec2Comparators {
  import opened Text
  import opened Python
  import opened Differences
  import Ec2InstancesComparator
  import VpcComparator

  /** `compare_ec2_attributes(state, live, resource_type="")` */
  function CompareEc2Attributes(state: Bag, live: Bag, resourceType: string := ""): (r: seq<Difference>)
    ensures StartsWith(resourceType, "aws_vpc") ==> r == VpcComparator.CompareVpcAttributes(state, live)
    ensures !StartsWith(resourceType, "aws_vpc") ==>
      r == Ec2InstancesComparator.CompareEc2InstanceAttributes(state, live)
  {
    if resourceType != "" && StartsWith(resourceType, "aws_vpc") then
      VpcComparator.CompareVpcAttributes(state, live)
    else
      Ec2InstancesComparator.CompareEc2InstanceAttributes(state, live)
  }

  /** Called without a type, the router never reaches the VPC comparator: the only check
      is the instance type. */
  lemma DefaultTypeComparesInstanceType(state: Bag, live: Bag)
    ensures CompareEc2Attributes(state, live) == [] <==> GetV(state, "instance_type") == GetV(live, "InstanceType")
  {
  }
}
