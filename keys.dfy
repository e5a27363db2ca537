/** The pieces every keying scheme of the engine shares: the positional fallback key and
    the ordered first-truthy-field lookup. */
module Keys {
  import opened Python

  /** `f"{resource_type}.{resource_name}_{idx}"` */
  function FallbackKey(resourceType: string, resourceName: string, idx: int): string {
    resourceType + "." + resourceName + "_" + StrOfInt(idx)
  }

  /** `fields[i]` is the first of `fields` whose value in `d` is truthy. */
  predicate FirstTruthyAt(d: Bag, fields: seq<string>, i: int) {
    0 <= i < |fields| && Truthy(GetV(d, fields[i])) && forall j :: 0 <= j < i ==> !Truthy(GetV(d, fields[j]))
  }

  /** The value of the first of `fields` that is present in `d` with a truthy value. */
  function FirstTruthy(d: Bag, fields: seq<string>): (r: Option<Value>)
    ensures r.None? <==> forall i :: 0 <= i < |fields| ==> !Truthy(GetV(d, fields[i]))
    ensures r.Some? ==> Truthy(r.value)
    ensures r.Some? ==> exists i :: FirstTruthyAt(d, fields, i) && Get(d, fields[i]) == Some(r.value)
  {
    if fields == [] then None
    else if Has(d, fields[0]) && Truthy(GetV(d, fields[0])) then
      Some(GetV(d, fields[0]))
    else
      var r := FirstTruthy(d, fields[1..]);
      assert forall i :: 0 < i < |fields| ==> fields[1..][i - 1] == fields[i];
      if r.Some? then
        var i :| FirstTruthyAt(d, fields[1..], i) && Get(d, fields[1..][i]) == Some(r.value);
        assert FirstTruthyAt(d, fields, i + 1);
        r
      else r
  }

  /** The field `FirstTruthyAt` singles out is the one `FirstTruthy` returns. */
  lemma {:induction false} FirstTruthyAtIsFirstTruthy(d: Bag, fields: seq<string>, i: int)
    requires FirstTruthyAt(d, fields, i)
    ensures FirstTruthy(d, fields) == Some(GetV(d, fields[i]))
  {
    if i > 0 {
      assert !Truthy(GetV(d, fields[0]));
      assert FirstTruthyAt(d, fields[1..], i - 1) by {
        assert forall j :: 0 <= j < i - 1 ==> fields[1..][j] == fields[j + 1];
      }
      FirstTruthyAtIsFirstTruthy(d, fields[1..], i - 1);
    }
  }

  /** Two bags that agree on every field truthy in either of them give the same lookup:
      falsy values, present or not, are passed over alike. */
  lemma {:induction false} FirstTruthyIgnoresFalsy(d: Bag, e: Bag, fields: seq<string>)
    requires forall i :: 0 <= i < |fields| && (Truthy(GetV(d, fields[i])) || Truthy(GetV(e, fields[i]))) ==>
      GetV(d, fields[i]) == GetV(e, fields[i])
    ensures FirstTruthy(d, fields) == FirstTruthy(e, fields)
  {
    if fields != [] {
      assert forall i :: 0 < i < |fields| ==> fields[1..][i - 1] == fields[i];
      FirstTruthyIgnoresFalsy(d, e, fields[1..]);
    }
  }
}
