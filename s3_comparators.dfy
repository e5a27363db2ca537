/** The comparator `compare_s3_attributes`: the name of an S3 bucket. */
module S3Comparators {
  import opened Python
  import opened Differences

  /** Compares state `bucket` with live `Name` under Python `!=`; a difference is one
      `bucket_name` record carrying `str()` of both sides. */
  function CompareS3Attributes(state: Bag, live: Bag): (r: seq<Difference>)
    ensures r == [] <==> GetV(state, "bucket") == GetV(live, "Name")
    ensures r != [] ==>
      r == [AttributeDiff("bucket_name", StrOf(GetV(state, "bucket")), StrOf(GetV(live, "Name")))]
  {
    RunChecks([Compared("bucket_name", GetV(state, "bucket"), GetV(live, "Name"))])
  }
}
