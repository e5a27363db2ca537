/** The comparator `compare_vpc_attributes`: the id of a VPC. */
module VpcComparator {
  import opened Python
  import opened Differences

  /** Compares state `id` with live `VpcId` under Python `!=`; a difference is one
      `vpc_id` record carrying `str()` of both sides. */
  function CompareVpcAttributes(state: Bag, live: Bag): (r: seq<Difference>)
    ensures r == [] <==> GetV(state, "id") == GetV(live, "VpcId")
    ensures r != [] ==>
      r == [AttributeDiff("vpc_id", StrOf(GetV(state, "id")), StrOf(GetV(live, "VpcId")))]
  {
    RunChecks([Compared("vpc_id", GetV(state, "id"), GetV(live, "VpcId"))])
  }
}
