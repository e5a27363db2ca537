/** The SQS queue comparator. Every field is compared after `str()`, so an integer in
    state and the same digits as text in AWS agree. */
module SqsComparators {
  import opened Text
  import opened Python
  import opened Differences

  /** The queue name AWS reports: the text after the last `':'` of a truthy `QueueArn`,
      else `""`. A truthy `QueueArn` that is not a string cannot be split. */
  function LiveQueueName(live: Bag): (r: Result<string>)
    ensures r.Err? <==> Truthy(GetV(live, "QueueArn")) && !GetV(live, "QueueArn").Str?
    ensures !Truthy(GetV(live, "QueueArn")) ==> r == Ok("")
    ensures GetV(live, "QueueArn").Str? ==>
      r.Ok? && EndsWith(GetV(live, "QueueArn").s, r.value) && ':' !in r.value
  {
    var arn := GetV(live, "QueueArn");
    if !Truthy(arn) then Ok("")
    else if arn.Str? then Ok(AfterLast(arn.s, ':'))
    else Err(NoAttribute(arn, "split"))
  }

  const FieldOrder: seq<string> :=
    ["name", "visibility_timeout_seconds", "message_retention_seconds", "max_message_size", "delay_seconds"]

  lemma FieldOrderDistinct()
    ensures Distinct(FieldOrder)
  {
  }

  /** The five checks against the live queue name `liveName`, in order. */
  function QueueChecks(state: Bag, live: Bag, liveName: string): (cs: seq<Check>)
    ensures |cs| == 5 && Names(cs) == FieldOrder
    ensures cs[0] == ComparedAsText("name", GetV(state, "name"), Str(liveName))
    ensures cs[1] == ComparedAsText("visibility_timeout_seconds", GetV(state, "visibility_timeout_seconds"), GetV(live, "VisibilityTimeout"))
    ensures cs[2] == ComparedAsText("message_retention_seconds", GetV(state, "message_retention_seconds"), GetV(live, "MessageRetentionPeriod"))
    ensures cs[3] == ComparedAsText("max_message_size", GetV(state, "max_message_size"), GetV(live, "MaximumMessageSize"))
    ensures cs[4] == ComparedAsText("delay_seconds", GetV(state, "delay_seconds"), GetV(live, "DelaySeconds"))
  {
    var cs := [
      ComparedAsText("name", GetV(state, "name"), Str(liveName)),
      ComparedAsText("visibility_timeout_seconds", GetV(state, "visibility_timeout_seconds"), GetV(live, "VisibilityTimeout")),
      ComparedAsText("message_retention_seconds", GetV(state, "message_retention_seconds"), GetV(live, "MessageRetentionPeriod")),
      ComparedAsText("max_message_size", GetV(state, "max_message_size"), GetV(live, "MaximumMessageSize")),
      ComparedAsText("delay_seconds", GetV(state, "delay_seconds"), GetV(live, "DelaySeconds"))];
    assert Names(cs) == FieldOrder;
    cs
  }

  /** `_compare_sqs_queue_attributes`: the name, then the visibility timeout, the retention
      period, the maximum message size and the delay, each compared after `str()`. Fails
      when the live `QueueArn` cannot be split. */
  function CompareSqsQueueAttributes(state: Bag, live: Bag): (r: Result<seq<Difference>>)
    ensures r.Err? <==> LiveQueueName(live).Err?
    ensures r.Ok? ==> |r.value| <= 5 && SubsequenceOf(Attributes(r.value), FieldOrder)
  {
    match LiveQueueName(live)
    case Err(e) => Err(e)
    case Ok(liveName) => Ok(RunChecks(QueueChecks(state, live, liveName)))
  }

  /** Each of the five records is reported exactly when its two sides differ after
      `str()`. */
  lemma QueueRecordsPresent(state: Bag, live: Bag, r: seq<Difference>)
    requires CompareSqsQueueAttributes(state, live) == Ok(r)
    ensures AttributeDiff("name", StrOf(GetV(state, "name")), LiveQueueName(live).value) in r
      <==> StrOf(GetV(state, "name")) != LiveQueueName(live).value
    ensures AttributeDiff("visibility_timeout_seconds", StrOf(GetV(state, "visibility_timeout_seconds")), StrOf(GetV(live, "VisibilityTimeout"))) in r
      <==> StrOf(GetV(state, "visibility_timeout_seconds")) != StrOf(GetV(live, "VisibilityTimeout"))
    ensures AttributeDiff("message_retention_seconds", StrOf(GetV(state, "message_retention_seconds")), StrOf(GetV(live, "MessageRetentionPeriod"))) in r
      <==> StrOf(GetV(state, "message_retention_seconds")) != StrOf(GetV(live, "MessageRetentionPeriod"))
    ensures AttributeDiff("max_message_size", StrOf(GetV(state, "max_message_size")), StrOf(GetV(live, "MaximumMessageSize"))) in r
      <==> StrOf(GetV(state, "max_message_size")) != StrOf(GetV(live, "MaximumMessageSize"))
    ensures AttributeDiff("delay_seconds", StrOf(GetV(state, "delay_seconds")), StrOf(GetV(live, "DelaySeconds"))) in r
      <==> StrOf(GetV(state, "delay_seconds")) != StrOf(GetV(live, "DelaySeconds"))
  {
    var checks := QueueChecks(state, live, LiveQueueName(live).value);
    FieldOrderDistinct();
    assert forall i :: 0 <= i < 5 ==> checks[i].attribute == FieldOrder[i];
    RunChecksDistinct(checks);
  }

  /** No other record is reported. */
  lemma QueueRecordsOnly(state: Bag, live: Bag, r: seq<Difference>)
    requires CompareSqsQueueAttributes(state, live) == Ok(r)
    ensures forall d :: d in r ==>
      d == AttributeDiff("name", StrOf(GetV(state, "name")), LiveQueueName(live).value) ||
      d == AttributeDiff("visibility_timeout_seconds", StrOf(GetV(state, "visibility_timeout_seconds")), StrOf(GetV(live, "VisibilityTimeout"))) ||
      d == AttributeDiff("message_retention_seconds", StrOf(GetV(state, "message_retention_seconds")), StrOf(GetV(live, "MessageRetentionPeriod"))) ||
      d == AttributeDiff("max_message_size", StrOf(GetV(state, "max_message_size")), StrOf(GetV(live, "MaximumMessageSize"))) ||
      d == AttributeDiff("delay_seconds", StrOf(GetV(state, "delay_seconds")), StrOf(GetV(live, "DelaySeconds")))
  {
    RunFiveChecks(QueueChecks(state, live, LiveQueueName(live).value));
  }

  /** `compare_sqs_attributes(state, live, resource_type="")`; the type is not consulted. */
  function CompareSqsAttributes(state: Bag, live: Bag, resourceType: string := ""): (r: Result<seq<Difference>>)
    ensures r == CompareSqsQueueAttributes(state, live)
  {
    CompareSqsQueueAttributes(state, live)
  }

  /** A number in state agrees with its own decimal text in AWS, since both sides are
      compared through `str()`. */
  lemma NumberMatchesItsText(state: Bag, live: Bag, r: seq<Difference>, n: int)
    requires CompareSqsQueueAttributes(state, live) == Ok(r)
    requires GetV(state, "visibility_timeout_seconds") == Int(n) && GetV(live, "VisibilityTimeout") == Str(IntToString(n))
    ensures forall d :: d in r ==> d.attribute != "visibility_timeout_seconds"
  {
    QueueRecordsPresent(state, live, r);
    QueueRecordsOnly(state, live, r);
    FieldOrderDistinct();
    assert FieldOrder[1] == "visibility_timeout_seconds";
  }

  /** A number in state against any other text in AWS is one record holding the number's
      decimal text and the live text. */
  lemma NumberAgainstOtherText(state: Bag, live: Bag, r: seq<Difference>, n: int, text: string)
    requires CompareSqsQueueAttributes(state, live) == Ok(r)
    requires GetV(state, "visibility_timeout_seconds") == Int(n) && GetV(live, "VisibilityTimeout") == Str(text)
    requires text != IntToString(n)
    ensures AttributeDiff("visibility_timeout_seconds", IntToString(n), text) in r
  {
    QueueRecordsPresent(state, live, r);
  }

  /** A setting absent on both sides agrees, since both read as `"None"`; a state name
      absent with no live `QueueArn` is drift, `"None"` against `""`. */
  lemma AbsentFields(state: Bag, live: Bag)
    requires !Has(state, "delay_seconds") && !Has(live, "DelaySeconds")
    requires !Has(state, "name") && !Has(live, "QueueArn")
    ensures CompareSqsQueueAttributes(state, live).Ok?
    ensures forall d :: d in CompareSqsQueueAttributes(state, live).value ==> d.attribute != "delay_seconds"
    ensures AttributeDiff("name", "None", "") in CompareSqsQueueAttributes(state, live).value
  {
    var r := CompareSqsQueueAttributes(state, live).value;
    QueueRecordsPresent(state, live, r);
    QueueRecordsOnly(state, live, r);
    FieldOrderDistinct();
  }
}
