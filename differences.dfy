/** The inputs and outputs every comparator shares: a Terraform state resource block and the
    difference records comparators return. */
module Differences {
  import opened Python

  /** One `resources[]` entry of a Terraform state file. `instances` is `None` when the
      block has no `instances` key; each instance is its `attributes` dict. */
  datatype Resource = Resource(rtype: string, name: string, instances: Option<seq<Bag>>)

  /** `resource.get("instances", [])` */
  function Instances(r: Resource): seq<Bag> {
    if r.instances.Some? then r.instances.value else []
  }

  /** A difference record of a comparator.
      `AttributeDiff` is `{"attribute", "state_value", "live_value"}` with `str()` values;
      `PolicyDiff` is the queue-policy comparator's `{"attribute": "policy", "state", "live"}`;
      `CanonicalPolicyDiff` is the queue-policy branch of the aggregator,
      `{"name": "policy", "state", "live"}`, whose values are canonical JSON text, `None`
      or the raw attribute values. */
  datatype Difference =
    | AttributeDiff(attribute: string, stateValue: string, liveValue: string)
    | PolicyDiff(stateJson: string, liveJson: string)
    | CanonicalPolicyDiff(stateCanonical: Value, liveCanonical: Value)

  /** The attribute names of a list of difference records, in order (`""` for the policy
      records, which name no attribute field). */
  function Attributes(ds: seq<Difference>): (r: seq<string>)
    ensures |r| == |ds|
  {
    if ds == [] then []
    else [if ds[0].AttributeDiff? then ds[0].attribute else ""] + Attributes(ds[1..])
  }

  /** `xs` is a subsequence of `order`. */
  predicate SubsequenceOf(xs: seq<string>, order: seq<string>) {
    xs == [] ||
    (order != [] &&
     ((xs[0] == order[0] && SubsequenceOf(xs[1..], order[1..])) || SubsequenceOf(xs, order[1..])))
  }

  /** One straight-line check of a comparator: whether it fires and the texts it reports. */
  datatype Check = Check(attribute: string, differs: bool, stateText: string, liveText: string)

  /** The check `if state_value != live_value`, reporting `str()` of both values. */
  function Compared(attribute: string, stateValue: Value, liveValue: Value): Check {
    Check(attribute, stateValue != liveValue, StrOf(stateValue), StrOf(liveValue))
  }

  /** The check `if str(state_value) != str(live_value)`. */
  function ComparedAsText(attribute: string, stateValue: Value, liveValue: Value): Check {
    Check(attribute, StrOf(stateValue) != StrOf(liveValue), StrOf(stateValue), StrOf(liveValue))
  }

  /** A field absent from both bags never drifts: both sides read as `None`. */
  lemma AbsentOnBothSides(state: Bag, stateField: string, live: Bag, liveField: string, attribute: string)
    requires !Has(state, stateField) && !Has(live, liveField)
    ensures !Compared(attribute, GetV(state, stateField), GetV(live, liveField)).differs
  {
  }

  /** The record a firing check appends. */
  function Record(c: Check): Difference {
    AttributeDiff(c.attribute, c.stateText, c.liveText)
  }

  /** The attributes the checks are about, in check order. */
  function Names(cs: seq<Check>): (r: seq<string>)
    ensures |r| == |cs|
    ensures forall i :: 0 <= i < |cs| ==> r[i] == cs[i].attribute
  {
    if cs == [] then [] else [cs[0].attribute] + Names(cs[1..])
  }

  /** No string occurs twice. */
  predicate Distinct(xs: seq<string>) {
    forall i, j :: 0 <= i < j < |xs| ==> xs[i] != xs[j]
  }

  /** A comparator body: the checks run in order, each appending its record when it fires. */
  function RunChecks(cs: seq<Check>): (r: seq<Difference>)
    ensures |r| <= |cs|
    ensures forall d :: d in r ==> exists i :: 0 <= i < |cs| && cs[i].differs && d == Record(cs[i])
    ensures forall i :: 0 <= i < |cs| && cs[i].differs ==> Record(cs[i]) in r
    ensures SubsequenceOf(Attributes(r), Names(cs))
  {
    if cs == [] then []
    else
      var rest := RunChecks(cs[1..]);
      assert forall i :: 0 < i < |cs| ==> cs[1..][i - 1] == cs[i];
      if cs[0].differs then
        var r := [Record(cs[0])] + rest;
        assert r[1..] == rest;
        r
      else rest
  }

  /** When a comparator's checks name distinct attributes, each check's record is present
      exactly when that check fires. */
  lemma RunChecksDistinct(cs: seq<Check>)
    requires forall i, j :: 0 <= i < j < |cs| ==> cs[i].attribute != cs[j].attribute
    ensures forall i :: 0 <= i < |cs| ==> (Record(cs[i]) in RunChecks(cs) <==> cs[i].differs)
  {
    var r := RunChecks(cs);
    forall i | 0 <= i < |cs| && Record(cs[i]) in r ensures cs[i].differs {
      var j :| 0 <= j < |cs| && cs[j].differs && Record(cs[i]) == Record(cs[j]);
      assert cs[i].attribute == cs[j].attribute;
    }
  }

  /** The records of five checks are among those checks' records. */
  lemma RunFiveChecks(cs: seq<Check>)
    requires |cs| == 5
    ensures forall d :: d in RunChecks(cs) ==>
      d == Record(cs[0]) || d == Record(cs[1]) || d == Record(cs[2]) || d == Record(cs[3]) || d == Record(cs[4])
  {
    forall d | d in RunChecks(cs)
      ensures d == Record(cs[0]) || d == Record(cs[1]) || d == Record(cs[2]) || d == Record(cs[3]) || d == Record(cs[4])
    {
      var i :| 0 <= i < |cs| && cs[i].differs && d == Record(cs[i]);
      assert i == 0 || i == 1 || i == 2 || i == 3 || i == 4;
    }
  }

  /** The records of three checks are among those checks' records. */
  lemma RunThreeChecks(cs: seq<Check>)
    requires |cs| == 3
    ensures forall d :: d in RunChecks(cs) ==> d == Record(cs[0]) || d == Record(cs[1]) || d == Record(cs[2])
  {
    forall d | d in RunChecks(cs) ensures d == Record(cs[0]) || d == Record(cs[1]) || d == Record(cs[2]) {
      var i :| 0 <= i < |cs| && cs[i].differs && d == Record(cs[i]);
      assert i == 0 || i == 1 || i == 2;
    }
  }
}
