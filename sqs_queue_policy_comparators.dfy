/** The SQS queue-policy comparator: the policy documents are compared decoded, so the
    layout and key order of the JSON text cannot cause drift. */
module SqsQueuePolicyComparators {
  import opened Python
  import opened Json
  import opened Differences

  /** A policy as the comparator sees it: text is decoded, `None` when it does not decode;
      a dict is taken as it is; anything else is `None`. */
  function NormalisePolicy(loads: Loads, policy: Value): (r: Value)
    ensures policy.Map? ==> r == policy
    ensures policy.Str? ==> r == (if loads(policy.s).Some? then loads(policy.s).value else Null)
    ensures !policy.Map? && !policy.Str? ==> r == Null
  {
    match policy
    case Str(text) => (match loads(text) case Some(doc) => doc case None => Null)
    case Map(_) => policy
    case _ => Null
  }

  /** The text a record shows for a normalised policy. */
  function Shown(policy: Value): string {
    if policy == Null then "Missing or invalid" else Dumps(policy, DefaultSeparators)
  }

  /** `compare_sqs_queue_policy_attributes`: at most one `policy` record, present exactly
      when the normalised documents differ, showing each as sorted-key JSON. */
  function CompareSqsQueuePolicyAttributes(loads: Loads, state: Bag, live: Bag): (r: seq<Difference>)
    ensures |r| <= 1
    ensures r == [] <==> NormalisePolicy(loads, GetV(state, "policy")) == NormalisePolicy(loads, GetV(live, "policy"))
    ensures r != [] ==>
      r == [PolicyDiff(Shown(NormalisePolicy(loads, GetV(state, "policy"))), Shown(NormalisePolicy(loads, GetV(live, "policy"))))]
  {
    var statePolicy := NormalisePolicy(loads, GetV(state, "policy"));
    var livePolicy := NormalisePolicy(loads, GetV(live, "policy"));
    if statePolicy != livePolicy then [PolicyDiff(Shown(statePolicy), Shown(livePolicy))] else []
  }

  /** Two texts that decode to the same document give no record, however they are laid
      out; nor does a text that decodes to the live dict. */
  lemma SameDocumentNoDrift(loads: Loads, state: Bag, live: Bag, doc: Value)
    requires GetV(state, "policy").Str? && loads(GetV(state, "policy").s) == Some(doc)
    requires (GetV(live, "policy").Str? && loads(GetV(live, "policy").s) == Some(doc)) ||
             (doc.Map? && GetV(live, "policy") == doc)
    ensures CompareSqsQueuePolicyAttributes(loads, state, live) == []
  {
  }

  /** An empty policy against a missing one is no drift: both normalise to `None`. */
  lemma EmptyAgainstMissingNoDrift(loads: Loads, state: Bag, live: Bag)
    requires loads("") == None
    requires GetV(state, "policy") == Str("") && !Has(live, "policy")
    ensures CompareSqsQueuePolicyAttributes(loads, state, live) == []
  {
  }
}
