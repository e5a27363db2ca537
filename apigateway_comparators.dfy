/** The comparator `compare_apigateway_attributes`: the name of an API Gateway REST API. */
module ApigatewayComparators {
  import opened Python
  import opened Differences

  /** Compares state `name` with live `name` under Python `!=`; a difference is one
      `api_name` record carrying `str()` of both sides. */
  function CompareApigatewayAttributes(state: Bag, live: Bag): (r: seq<Difference>)
    ensures r == [] <==> GetV(state, "name") == GetV(live, "name")
    ensures r != [] ==>
      r == [AttributeDiff("api_name", StrOf(GetV(state, "name")), StrOf(GetV(live, "name")))]
  {
    RunChecks([Compared("api_name", GetV(state, "name"), GetV(live, "name"))])
  }
}
