/** The comparator `compare_rds_attributes`: the identifier of an RDS instance. */
module RdsComparators {
  import opened Python
  import opened Differences

  /** Compares state `db_instance_identifier` with live `DBInstanceIdentifier` under Python `!=`; a difference is one
      `db_instance_identifier` record carrying `str()` of both sides. */
  function CompareRdsAttributes(state: Bag, live: Bag): (r: seq<Difference>)
    ensures r == [] <==> GetV(state, "db_instance_identifier") == GetV(live, "DBInstanceIdentifier")
    ensures r != [] ==>
      r == [AttributeDiff("db_instance_identifier", StrOf(GetV(state, "db_instance_identifier")), StrOf(GetV(live, "DBInstanceIdentifier")))]
  {
    RunChecks([Compared("db_instance_identifier", GetV(state, "db_instance_identifier"), GetV(live, "DBInstanceIdentifier"))])
  }
}
