/** The comparator `compare_dynamodb_attributes`: the name of a DynamoDB table. */
module DynamodbComparators {
  import opened Python
  import opened Differences

  /** Compares state `name` with live `TableName` under Python `!=`; a difference is one
      `table_name` record carrying `str()` of both sides. */
  function CompareDynamodbAttributes(state: Bag, live: Bag): (r: seq<Difference>)
    ensures r == [] <==> GetV(state, "name") == GetV(live, "TableName")
    ensures r != [] ==>
      r == [AttributeDiff("table_name", StrOf(GetV(state, "name")), StrOf(GetV(live, "TableName")))]
  {
    RunChecks([Compared("table_name", GetV(state, "name"), GetV(live, "TableName"))])
  }
}
