/** `detect_drift`: the live map and the drift records are combined with the state's own
    key set into matched, drifted, unmatched and meta resources and a summary. Downloading
    and parsing the state are left to the caller, who passes the parsed blocks or the
    failure. */
module Core {
  import opened Text
  import opened Python
  import opened Json
  import opened Keys
  import opened Differences
  import FetchersBase
  import ComparatorsBase
  import Ec2InstancesFetcher

  /** Blocks of these types describe the account, not infrastructure, and are not keyed. */
  const MetaResourceTypes: set<string> := {"aws_region", "aws_caller_identity"}

  // ---------------------------------------------------------------------------------
  // State keys

  /** The ARN fields of the aggregation path, in the order they are tried. */
  const ArnFields := ["arn", "Arn", "ARN"]

  /** The id fields, tried only when no ARN field is truthy. */
  const IdFields := ["id", "Id", "ID", "instance_id", "InstanceId", "resource_id", "ResourceId"]

  /** The hybrid key: the value of the first truthy ARN field, else of the first truthy id
      field, else `{type}.{name}_{idx}`. The key is the attribute value itself, of
      whatever type. */
  function HybridKey(attributes: Bag, t: string, name: string, idx: int): (r: Value)
    ensures Truthy(r)
  {
    match FirstTruthy(attributes, ArnFields)
    case Some(arn) => arn
    case None =>
      match FirstTruthy(attributes, IdFields)
      case Some(id) => id
      case None => Str(FallbackKey(t, name, idx))
  }

  /** `f"{t}.{name}_{idx}" or`-style keys of the two composite kinds: the composite when
      both parts are truthy, else the second part, else the positional key. */
  function CompositeKey(prefix: string, first: Value, second: Value, t: string, name: string, idx: int): Value {
    if Truthy(first) && Truthy(second) then Str(prefix + ":" + StrOf(first) + ":" + StrOf(second))
    else Or(second, Str(FallbackKey(t, name, idx)))
  }

  lemma CompositeKeyCases(prefix: string, first: Value, second: Value, t: string, name: string, idx: int)
    ensures var key := CompositeKey(prefix, first, second, t, name, idx);
      (Truthy(first) && Truthy(second) ==> key == Str(prefix + ":" + StrOf(first) + ":" + StrOf(second))) &&
      (!Truthy(first) && Truthy(second) ==> key == second) &&
      (!Truthy(second) ==> key == Str(FallbackKey(t, name, idx)))
  {
  }

  /** The key an instance enters the state key set under. */
  function StateKeyOf(t: string, name: string, idx: int, attributes: Bag): (r: Value)
    ensures Truthy(r)
  {
    if t == "aws_lambda_permission" then
      CompositeKey("lambda_permission", GetV(attributes, "function_name"), GetV(attributes, "statement_id"), t, name, idx)
    else if t == "aws_api_gateway_deployment" then
      CompositeKey("apigw_deployment", GetV(attributes, "rest_api_id"), GetV(attributes, "id"), t, name, idx)
    else HybridKey(attributes, t, name, idx)
  }

  /** A lambda permission with a function name and a statement id is keyed by both, the
      function name as written; otherwise by its statement id, otherwise by position. */
  lemma PermissionStateKeys(name: string, idx: int, attributes: Bag)
    ensures var fn := GetV(attributes, "function_name");
      var sid := GetV(attributes, "statement_id");
      var key := StateKeyOf("aws_lambda_permission", name, idx, attributes);
      (Truthy(fn) && Truthy(sid) ==> key == Str("lambda_permission:" + StrOf(fn) + ":" + StrOf(sid))) &&
      (!Truthy(fn) && Truthy(sid) ==> key == sid) &&
      (!Truthy(sid) ==> key == Str(FallbackKey("aws_lambda_permission", name, idx)))
  {
    var fn := GetV(attributes, "function_name");
    var sid := GetV(attributes, "statement_id");
    assert StateKeyOf("aws_lambda_permission", name, idx, attributes) ==
      CompositeKey("lambda_permission", fn, sid, "aws_lambda_permission", name, idx);
    CompositeKeyCases("lambda_permission", fn, sid, "aws_lambda_permission", name, idx);
  }

  /** A deployment with a REST API id and an id is keyed by both; otherwise by its id,
      otherwise by position. */
  lemma DeploymentStateKeys(name: string, idx: int, attributes: Bag)
    ensures var api := GetV(attributes, "rest_api_id");
      var id := GetV(attributes, "id");
      var key := StateKeyOf("aws_api_gateway_deployment", name, idx, attributes);
      (Truthy(api) && Truthy(id) ==> key == Str("apigw_deployment:" + StrOf(api) + ":" + StrOf(id))) &&
      (!Truthy(api) && Truthy(id) ==> key == id) &&
      (!Truthy(id) ==> key == Str(FallbackKey("aws_api_gateway_deployment", name, idx)))
  {
    var api := GetV(attributes, "rest_api_id");
    var id := GetV(attributes, "id");
    assert StateKeyOf("aws_api_gateway_deployment", name, idx, attributes) ==
      CompositeKey("apigw_deployment", api, id, "aws_api_gateway_deployment", name, idx);
    CompositeKeyCases("apigw_deployment", api, id, "aws_api_gateway_deployment", name, idx);
  }

  /** The first truthy ARN field decides any other kind's key. */
  lemma HybridKeyPrefersArn(t: string, name: string, idx: int, attributes: Bag, i: int)
    requires t != "aws_lambda_permission" && t != "aws_api_gateway_deployment"
    requires FirstTruthyAt(attributes, ArnFields, i)
    ensures StateKeyOf(t, name, idx, attributes) == GetV(attributes, ArnFields[i])
  {
    FirstTruthyAtIsFirstTruthy(attributes, ArnFields, i);
  }

  /** With every ARN field falsy, the first truthy id field decides. */
  lemma HybridKeyThenId(t: string, name: string, idx: int, attributes: Bag, i: int)
    requires t != "aws_lambda_permission" && t != "aws_api_gateway_deployment"
    requires forall j :: 0 <= j < |ArnFields| ==> !Truthy(GetV(attributes, ArnFields[j]))
    requires FirstTruthyAt(attributes, IdFields, i)
    ensures StateKeyOf(t, name, idx, attributes) == GetV(attributes, IdFields[i])
  {
    FirstTruthyAtIsFirstTruthy(attributes, IdFields, i);
  }

  /** `set.add` and `dict[key] =` need a hashable key. */
  predicate Hashable(v: Value) {
    !v.List? && !v.Map?
  }

  function Unhashable(v: Value): PyError {
    TypeError("unhashable type: '" + TypeName(v) + "'")
  }

  /** `(resource_type, resource_name, idx)`, the value of `state_resource_key_map`. */
  datatype Origin = Origin(rtype: string, name: string, idx: int)

  /** `all_state_resources` and `state_resource_key_map`. */
  datatype Keying = Keying(keys: set<Value>, origins: map<Value, Origin>)

  /** How an instance is keyed, from its type, name, index and attributes; the keying loop
      uses `StateKeyOf`. */
  type KeyOf = (string, string, int, Bag) -> Value

  /** One instance added: its key joins the set, and the map now names this instance. */
  function KeyStep(keyOf: KeyOf, k: Keying, t: string, name: string, idx: int, attributes: Bag): Result<Keying> {
    var key := keyOf(t, name, idx, attributes);
    if !Hashable(key) then Err(Unhashable(key))
    else Ok(Keying(k.keys + {key}, k.origins[key := Origin(t, name, idx)]))
  }

  /** The keying after the first `count` instances of a block. */
  function BlockKeying(keyOf: KeyOf, k0: Keying, resource: Resource, count: nat): Result<Keying>
    requires count <= |Instances(resource)|
  {
    if count == 0 then Ok(k0)
    else match BlockKeying(keyOf, k0, resource, count - 1)
    case Err(e) => Err(e)
    case Ok(k) => KeyStep(keyOf, k, resource.rtype, resource.name, count - 1, Instances(resource)[count - 1])
  }

  /** The keying after the first `count` blocks; meta blocks are passed over. */
  function StateKeying(keyOf: KeyOf, resources: seq<Resource>, count: nat): Result<Keying>
    requires count <= |resources|
  {
    if count == 0 then Ok(Keying({}, map[]))
    else match StateKeying(keyOf, resources, count - 1)
    case Err(e) => Err(e)
    case Ok(k) =>
      var resource := resources[count - 1];
      if resource.rtype in MetaResourceTypes then Ok(k)
      else BlockKeying(keyOf, k, resource, |Instances(resource)|)
  }

  lemma {:induction false} BlockKeyingErrorPersists(keyOf: KeyOf, k0: Keying, resource: Resource, k: nat, n: nat)
    requires k <= n <= |Instances(resource)|
    requires BlockKeying(keyOf, k0, resource, k).Err?
    ensures BlockKeying(keyOf, k0, resource, n) == BlockKeying(keyOf, k0, resource, k)
    decreases n
  {
    if n > k {
      BlockKeyingErrorPersists(keyOf, k0, resource, k, n - 1);
    }
  }

  lemma {:induction false} StateKeyingErrorPersists(keyOf: KeyOf, resources: seq<Resource>, k: nat, n: nat)
    requires k <= n <= |resources|
    requires StateKeying(keyOf, resources, k).Err?
    ensures StateKeying(keyOf, resources, n) == StateKeying(keyOf, resources, k)
    decreases n
  {
    if n > k {
      StateKeyingErrorPersists(keyOf, resources, k, n - 1);
    }
  }

  /** The inner keying loop over one block's instances. */
  method KeyBlock(keyOf: KeyOf, k0: Keying, resource: Resource) returns (r: Result<Keying>)
    ensures r == BlockKeying(keyOf, k0, resource, |Instances(resource)|)
  {
    var k := k0;
    var instances := Instances(resource);
    var j := 0;
    while j < |instances|
      invariant 0 <= j <= |instances|
      invariant BlockKeying(keyOf, k0, resource, j) == Ok(k)
    {
      var key := keyOf(resource.rtype, resource.name, j, instances[j]);
      if !Hashable(key) {
        BlockKeyingErrorPersists(keyOf, k0, resource, j + 1, |instances|);
        return Err(Unhashable(key));
      }
      k := Keying(k.keys + {key}, k.origins[key := Origin(resource.rtype, resource.name, j)]);
      j := j + 1;
    }
    return Ok(k);
  }

  /** The keying loop of `detect_drift` over the state's blocks, keying each instance
      with `keyOf` (`StateKeyOf` there). */
  method KeyState(keyOf: KeyOf, resources: seq<Resource>) returns (r: Result<Keying>)
    ensures r == StateKeying(keyOf, resources, |resources|)
  {
    var k := Keying({}, map[]);
    var i := 0;
    while i < |resources|
      invariant 0 <= i <= |resources|
      invariant StateKeying(keyOf, resources, i) == Ok(k)
    {
      if resources[i].rtype !in MetaResourceTypes {
        var block := KeyBlock(keyOf, k, resources[i]);
        if block.Err? {
          StateKeyingErrorPersists(keyOf, resources, i + 1, |resources|);
          return block;
        }
        k := block.value;
      }
      i := i + 1;
    }
    return Ok(k);
  }

  /** The instance `origin` names, in block `b`, is a keyed instance whose key is `key`. */
  predicate KeyedAs(keyOf: KeyOf, resources: seq<Resource>, b: int, origin: Origin, key: Value) {
    0 <= b < |resources| && resources[b].rtype == origin.rtype && resources[b].name == origin.name &&
    origin.rtype !in MetaResourceTypes && 0 <= origin.idx < |Instances(resources[b])| &&
    keyOf(origin.rtype, origin.name, origin.idx, Instances(resources[b])[origin.idx]) == key
  }

  /** The number of instances of non-meta blocks among the first `count`. */
  function KeyedInstances(resources: seq<Resource>, count: nat): nat
    requires count <= |resources|
  {
    if count == 0 then 0
    else
      var own := if resources[count - 1].rtype in MetaResourceTypes then 0 else |Instances(resources[count - 1])|;
      KeyedInstances(resources, count - 1) + own
  }

  /** A well-formed keying of the first `count` blocks: the key set is the map's domain,
      every entry names a keyed instance carrying that key, and there are no more keys
      than keyed instances. */
  predicate SoundKeying(keyOf: KeyOf, resources: seq<Resource>, count: nat, k: Keying)
    requires count <= |resources|
  {
    && k.keys == k.origins.Keys
    && (forall key :: key in k.origins ==> exists b :: 0 <= b < count && KeyedAs(keyOf, resources, b, k.origins[key], key))
    && |k.keys| <= KeyedInstances(resources, count)
  }

  /** Adding one key keeps the key set the map's domain and grows it by at most one. */
  lemma KeyingStepCounted(prev: Keying, origin: Origin, key: Value, bound: nat, k: Keying)
    requires prev.keys == prev.origins.Keys && |prev.keys| <= bound
    requires k == Keying(prev.keys + {key}, prev.origins[key := origin])
    ensures k.keys == k.origins.Keys && |k.keys| <= bound + 1
  {
    assert k.origins.Keys == prev.origins.Keys + {key};
    if key in prev.keys {
      assert prev.keys + {key} == prev.keys;
    } else {
      assert |prev.keys + {key}| == |prev.keys| + 1;
    }
  }

  /** Adding one keyed instance of block `b` keeps every origin a keyed instance with its
      key. */
  lemma KeyingStepOrigins(keyOf: KeyOf, resources: seq<Resource>, b: nat, prev: Keying, origin: Origin, key: Value, k: Keying)
    requires forall key' :: key' in prev.origins ==> exists c :: 0 <= c < b + 1 && KeyedAs(keyOf, resources, c, prev.origins[key'], key')
    requires KeyedAs(keyOf, resources, b, origin, key)
    requires k == Keying(prev.keys + {key}, prev.origins[key := origin])
    ensures forall key' :: key' in k.origins ==> exists c :: 0 <= c < b + 1 && KeyedAs(keyOf, resources, c, k.origins[key'], key')
  {
    forall key' | key' in k.origins
      ensures exists c :: 0 <= c < b + 1 && KeyedAs(keyOf, resources, c, k.origins[key'], key')
    {
      if key' == key {
        assert KeyedAs(keyOf, resources, b, k.origins[key'], key');
      } else {
        assert k.origins[key'] == prev.origins[key'];
      }
    }
  }

  /** One more instance of a block: the keying before it succeeded, and this one adds its
      key and origin. */
  lemma BlockKeyingStep(keyOf: KeyOf, k0: Keying, resource: Resource, count: nat)
    requires 0 < count <= |Instances(resource)|
    requires BlockKeying(keyOf, k0, resource, count).Ok?
    ensures BlockKeying(keyOf, k0, resource, count - 1).Ok?
    ensures var prev := BlockKeying(keyOf, k0, resource, count - 1).value;
      var key := keyOf(resource.rtype, resource.name, count - 1, Instances(resource)[count - 1]);
      BlockKeying(keyOf, k0, resource, count).value ==
        Keying(prev.keys + {key}, prev.origins[key := Origin(resource.rtype, resource.name, count - 1)])
  {
  }

  /** Origins in the first `b` blocks are origins in the first `b + 1`. */
  lemma OriginsWiden(keyOf: KeyOf, resources: seq<Resource>, b: nat, k: Keying)
    requires forall key :: key in k.origins ==> exists c :: 0 <= c < b && KeyedAs(keyOf, resources, c, k.origins[key], key)
    ensures forall key :: key in k.origins ==> exists c :: 0 <= c < b + 1 && KeyedAs(keyOf, resources, c, k.origins[key], key)
  {
    forall key | key in k.origins
      ensures exists c :: 0 <= c < b + 1 && KeyedAs(keyOf, resources, c, k.origins[key], key)
    {
      var c :| 0 <= c < b && KeyedAs(keyOf, resources, c, k.origins[key], key);
    }
  }

  lemma {:induction false} BlockKeyingSound(keyOf: KeyOf, resources: seq<Resource>, b: nat, k0: Keying, count: nat)
    requires b < |resources| && resources[b].rtype !in MetaResourceTypes
    requires count <= |Instances(resources[b])|
    requires SoundKeying(keyOf, resources, b, k0)
    requires BlockKeying(keyOf, k0, resources[b], count).Ok?
    ensures var k := BlockKeying(keyOf, k0, resources[b], count).value;
      && k.keys == k.origins.Keys
      && (forall key :: key in k.origins ==> exists c :: 0 <= c < b + 1 && KeyedAs(keyOf, resources, c, k.origins[key], key))
      && |k.keys| <= KeyedInstances(resources, b) + count
  {
    var resource := resources[b];
    if count == 0 {
      OriginsWiden(keyOf, resources, b, k0);
    } else {
      BlockKeyingStep(keyOf, k0, resource, count);
      BlockKeyingSound(keyOf, resources, b, k0, count - 1);
      BlockKeyingSoundStep(keyOf, resources, b, count, KeyedInstances(resources, b),
        BlockKeying(keyOf, k0, resource, count - 1).value, BlockKeying(keyOf, k0, resource, count).value);
    }
  }

  /** The step case of `BlockKeyingSound`, on the keyings before and after instance
      `count - 1` of block `b`. */
  lemma BlockKeyingSoundStep(keyOf: KeyOf, resources: seq<Resource>, b: nat, count: nat, before: nat, prev: Keying, k: Keying)
    requires b < |resources| && resources[b].rtype !in MetaResourceTypes
    requires 0 < count <= |Instances(resources[b])|
    requires && prev.keys == prev.origins.Keys
      && (forall key :: key in prev.origins ==> exists c :: 0 <= c < b + 1 && KeyedAs(keyOf, resources, c, prev.origins[key], key))
      && |prev.keys| <= before + (count - 1)
    requires var key := keyOf(resources[b].rtype, resources[b].name, count - 1, Instances(resources[b])[count - 1]);
      k == Keying(prev.keys + {key}, prev.origins[key := Origin(resources[b].rtype, resources[b].name, count - 1)])
    ensures && k.keys == k.origins.Keys
      && (forall key :: key in k.origins ==> exists c :: 0 <= c < b + 1 && KeyedAs(keyOf, resources, c, k.origins[key], key))
      && |k.keys| <= before + count
  {
    var resource := resources[b];
    var origin := Origin(resource.rtype, resource.name, count - 1);
    var key := keyOf(resource.rtype, resource.name, count - 1, Instances(resource)[count - 1]);
    assert KeyedAs(keyOf, resources, b, origin, key);
    KeyingStepCounted(prev, origin, key, before + (count - 1), k);
    KeyingStepOrigins(keyOf, resources, b, prev, origin, key, k);
  }

  /** The keying is sound: keys and map agree, each key comes from a keyed (non-meta)
      instance with that key, and there are at most as many keys as keyed instances. */
  lemma {:induction false} StateKeyingSound(keyOf: KeyOf, resources: seq<Resource>, count: nat)
    requires count <= |resources|
    requires StateKeying(keyOf, resources, count).Ok?
    ensures SoundKeying(keyOf, resources, count, StateKeying(keyOf, resources, count).value)
  {
    if count > 0 {
      var b := count - 1;
      StateKeyingSound(keyOf, resources, b);
      var prev := StateKeying(keyOf, resources, b).value;
      if resources[b].rtype in MetaResourceTypes {
        OriginsWiden(keyOf, resources, b, prev);
      } else {
        BlockKeyingSound(keyOf, resources, b, prev, |Instances(resources[b])|);
      }
    }
  }

  lemma {:induction false} BlockKeyingComplete(keyOf: KeyOf, k0: Keying, resource: Resource, count: nat, j: nat)
    requires j < count <= |Instances(resource)|
    requires BlockKeying(keyOf, k0, resource, count).Ok?
    ensures keyOf(resource.rtype, resource.name, j, Instances(resource)[j]) in BlockKeying(keyOf, k0, resource, count).value.keys
  {
    if BlockKeying(keyOf, k0, resource, count - 1).Err? {
      assert false;
    }
    if j < count - 1 {
      BlockKeyingComplete(keyOf, k0, resource, count - 1, j);
    }
  }

  lemma {:induction false} BlockKeyingGrows(keyOf: KeyOf, k0: Keying, resource: Resource, count: nat)
    requires count <= |Instances(resource)|
    requires BlockKeying(keyOf, k0, resource, count).Ok?
    ensures k0.keys <= BlockKeying(keyOf, k0, resource, count).value.keys
  {
    if count > 0 {
      if BlockKeying(keyOf, k0, resource, count - 1).Err? {
        assert false;
      }
      BlockKeyingGrows(keyOf, k0, resource, count - 1);
    }
  }

  lemma {:induction false} StateKeyingGrows(keyOf: KeyOf, resources: seq<Resource>, k: nat, n: nat)
    requires k <= n <= |resources|
    requires StateKeying(keyOf, resources, n).Ok?
    ensures StateKeying(keyOf, resources, k).Ok?
    ensures StateKeying(keyOf, resources, k).value.keys <= StateKeying(keyOf, resources, n).value.keys
    decreases n
  {
    if n > k {
      if StateKeying(keyOf, resources, n - 1).Err? {
        assert false;
      }
      StateKeyingGrows(keyOf, resources, k, n - 1);
      var resource := resources[n - 1];
      if resource.rtype !in MetaResourceTypes {
        BlockKeyingGrows(keyOf, StateKeying(keyOf, resources, n - 1).value, resource, |Instances(resource)|);
      }
    }
  }

  /** Every instance of a non-meta block enters the key set under its key. */
  lemma KeyedInstanceInKeySet(keyOf: KeyOf, resources: seq<Resource>, b: nat, j: nat)
    requires b < |resources| && resources[b].rtype !in MetaResourceTypes && j < |Instances(resources[b])|
    requires StateKeying(keyOf, resources, |resources|).Ok?
    ensures keyOf(resources[b].rtype, resources[b].name, j, Instances(resources[b])[j])
      in StateKeying(keyOf, resources, |resources|).value.keys
  {
    StateKeyingGrows(keyOf, resources, b + 1, |resources|);
    StateKeyingGrows(keyOf, resources, b, b + 1);
    BlockKeyingComplete(keyOf, StateKeying(keyOf, resources, b).value, resources[b], |Instances(resources[b])|, j);
  }

  /** The map keeps the instance added last: once an instance is keyed, its key names it,
      and every other key keeps its entry. */
  lemma LaterInstanceOverwrites(keyOf: KeyOf, k: Keying, t: string, name: string, idx: int, attributes: Bag)
    requires KeyStep(keyOf, k, t, name, idx, attributes).Ok?
    ensures KeyStep(keyOf, k, t, name, idx, attributes).value.origins[keyOf(t, name, idx, attributes)] == Origin(t, name, idx)
    ensures forall key :: key in k.origins && key != keyOf(t, name, idx, attributes) ==>
      (KeyStep(keyOf, k, t, name, idx, attributes).value.origins[key] == k.origins[key])
  {
  }

  // ---------------------------------------------------------------------------------
  // Counts

  /** `sum(len(resource.get("instances", [])) ...)` over the first `count` blocks, meta
      blocks included. */
  function InstanceTotal(resources: seq<Resource>, count: nat): nat
    requires count <= |resources|
  {
    if count == 0 then 0 else InstanceTotal(resources, count - 1) + |Instances(resources[count - 1])|
  }

  /** The counting loop. */
  method CountInstances(resources: seq<Resource>) returns (total: nat)
    ensures total == InstanceTotal(resources, |resources|)
  {
    total := 0;
    var i := 0;
    while i < |resources|
      invariant 0 <= i <= |resources|
      invariant total == InstanceTotal(resources, i)
    {
      total := total + |Instances(resources[i])|;
      i := i + 1;
    }
  }

  /** Meta instances are counted in the instance total though they are never keyed, so
      the keyed instances never outnumber it. */
  lemma {:induction false} KeyedWithinTotal(resources: seq<Resource>, count: nat)
    requires count <= |resources|
    ensures KeyedInstances(resources, count) <= InstanceTotal(resources, count)
    ensures (exists b :: 0 <= b < count && resources[b].rtype in MetaResourceTypes && Instances(resources[b]) != []) ==>
      KeyedInstances(resources, count) < InstanceTotal(resources, count)
  {
    if count > 0 {
      KeyedWithinTotal(resources, count - 1);
      if exists b :: 0 <= b < count && resources[b].rtype in MetaResourceTypes && Instances(resources[b]) != [] {
        var b :| 0 <= b < count && resources[b].rtype in MetaResourceTypes && Instances(resources[b]) != [];
        if b < count - 1 {
          assert exists b :: 0 <= b < count - 1 && resources[b].rtype in MetaResourceTypes && Instances(resources[b]) != [];
        }
      }
    }
  }

  // ---------------------------------------------------------------------------------
  // Matched, drifted, unmatched

  /** `set(live_resources.keys())` */
  function LiveKeys(live: Dict<Bag>): set<Value> {
    set p | p in live :: Str(p.0)
  }

  lemma LiveKeyPresent(live: Dict<Bag>, key: Value)
    requires key in LiveKeys(live)
    ensures key.Str? && Has(live, key.s)
  {
    var p :| p in live && key == Str(p.0);
    var i :| 0 <= i < |live| && live[i] == p;
    KeyAt(live, i);
  }

  /** The keys counted as drifted: each record's key cut at its first `" ["`. */
  function DriftedKeys(drifts: seq<ComparatorsBase.Drift>): set<Value> {
    set d | d in drifts :: Str(BeforeFirst(d.resourceKey, " ["))
  }

  /** `(state & live) - drifted` */
  function Matched<K>(stateKeys: set<K>, liveKeys: set<K>, drifted: set<K>): set<K> {
    (stateKeys * liveKeys) - drifted
  }

  /** `state - matched - drifted` */
  function Unmatched<K>(stateKeys: set<K>, liveKeys: set<K>, drifted: set<K>): set<K> {
    stateKeys - Matched(stateKeys, liveKeys, drifted) - drifted
  }

  /** The matched keys, the drifted state keys and the unmatched keys split the state key
      set: pairwise disjoint, and together all of it. */
  lemma StateKeysPartitioned<K>(stateKeys: set<K>, liveKeys: set<K>, drifted: set<K>)
    ensures var m := Matched(stateKeys, liveKeys, drifted);
      var u := Unmatched(stateKeys, liveKeys, drifted);
      m * (stateKeys * drifted) == {} && m * u == {} && (stateKeys * drifted) * u == {} &&
      m + (stateKeys * drifted) + u == stateKeys
  {
  }

  /** An unmatched key is one the live map lacks, and that no record names. */
  lemma UnmatchedMeansAbsent<K>(stateKeys: set<K>, liveKeys: set<K>, drifted: set<K>, key: K)
    requires key in Unmatched(stateKeys, liveKeys, drifted)
    ensures key in stateKeys && key !in liveKeys && key !in drifted
  {
  }

  /** `unmatched_undetected` excludes the meta keys besides, so it lies within the
      unmatched keys. */
  lemma UndetectedWithinUnmatched<K>(stateKeys: set<K>, liveKeys: set<K>, drifted: set<K>, metaKeys: set<K>)
    ensures stateKeys - Matched(stateKeys, liveKeys, drifted) - drifted - metaKeys <= Unmatched(stateKeys, liveKeys, drifted)
  {
  }

  /** A policy record named `{type}.{name} [{url}]` counts as drifted under `{type}.{name}`. */
  lemma {:induction false} PolicyDriftCountedUnderBlockKey(a: string, b: string)
    requires !Contains(a, " [")
    ensures BeforeFirst(a + " [" + b, " [") == a
  {
    if a == "" {
      assert StartsWith(" [" + b, " [") by {
        assert (" [" + b)[..2] == " [";
      }
    } else {
      var s := a + " [" + b;
      assert !Contains(a[1..], " [");
      assert s[1..] == a[1..] + " [" + b;
      PolicyDriftCountedUnderBlockKey(a[1..], b);
      assert a == [a[0]] + a[1..];
    }
  }

  // ---------------------------------------------------------------------------------
  // Display names

  /** `next((k for k in candidates if k), None)` */
  function FirstTruthyOf(vs: seq<Value>): (r: Option<Value>)
    ensures r.Some? ==> Truthy(r.value) && r.value in vs
    ensures r.None? <==> forall i :: 0 <= i < |vs| ==> !Truthy(vs[i])
  {
    if vs == [] then None
    else if Truthy(vs[0]) then Some(vs[0])
    else
      var r := FirstTruthyOf(vs[1..]);
      assert forall i :: 0 < i < |vs| ==> vs[1..][i - 1] == vs[i];
      r
  }

  /** The candidate at `i`, when it is the first truthy one, is what the scan returns. */
  lemma {:induction false} FirstTruthyOfAt(vs: seq<Value>, i: nat)
    requires i < |vs| && Truthy(vs[i])
    requires forall j :: 0 <= j < i ==> !Truthy(vs[j])
    ensures FirstTruthyOf(vs) == Some(vs[i])
  {
    if i > 0 {
      assert !Truthy(vs[0]);
      assert forall j :: 0 <= j < i - 1 ==> vs[1..][j] == vs[j + 1];
      FirstTruthyOfAt(vs[1..], i - 1);
    }
  }

  /** The value of the first of `fields` present in `d`, falsy or not; `None` when none
      is. */
  function FirstPresent(d: Bag, fields: seq<string>): Value {
    if fields == [] then Null
    else if Has(d, fields[0]) then GetV(d, fields[0])
    else FirstPresent(d, fields[1..])
  }

  /** The first field present decides, whatever its value. */
  lemma {:induction false} FirstPresentAt(d: Bag, fields: seq<string>, i: nat)
    requires i < |fields| && Has(d, fields[i])
    requires forall j :: 0 <= j < i ==> !Has(d, fields[j])
    ensures FirstPresent(d, fields) == GetV(d, fields[i])
  {
    if i > 0 {
      assert !Has(d, fields[0]);
      assert forall j :: 0 <= j < i - 1 ==> fields[1..][j] == fields[j + 1];
      FirstPresentAt(d, fields[1..], i - 1);
    }
  }

  /** With none of the fields present, the result is `None`. */
  lemma {:induction false} FirstPresentNone(d: Bag, fields: seq<string>)
    requires forall j :: 0 <= j < |fields| ==> !Has(d, fields[j])
    ensures FirstPresent(d, fields) == Null
  {
    if fields != [] {
      assert !Has(d, fields[0]);
      assert forall j :: 0 <= j < |fields| - 1 ==> fields[1..][j] == fields[j + 1];
      FirstPresentNone(d, fields[1..]);
    }
  }

  /** The live field a type's live name is read from, when the type has one. */
  function LiveNameField(t: string): Option<string> {
    if t == "aws_api_gateway_rest_api" then Some("name")
    else if t == "aws_cloudwatch_dashboard" then Some("DashboardName")
    else if t == "aws_dynamodb_table" then Some("TableName")
    else if t == "aws_ecs_cluster" then Some("clusterName")
    else if t == "aws_ecs_service" then Some("serviceName")
    else if t == "aws_iam_role" then Some("RoleName")
    else if t == "aws_iam_role_policy" then Some("policy_name")
    else if t == "aws_region" then Some("RegionName")
    else if t == "aws_sqs_queue" then Some("QueueName")
    else if t == "aws_sqs_queue_policy" then Some("QueueUrl")
    else if t == "aws_vpc" then Some("VpcId")
    else None
  }

  /** The fields tried, by presence, for a type without its own live name field. */
  const LiveNameFields := ["name", "Name", "id", "Id"]

  /** The live name of a matched resource: its type's field (missing reads as `None`),
      else the first of `name`, `Name`, `id`, `Id` present in the live bag. */
  function AwsLiveName(t: string, live: Bag): Value {
    match LiveNameField(t)
    case Some(field) => GetV(live, field)
    case None => FirstPresent(live, LiveNameFields)
  }

  /** A type without its own field takes the first of the generic fields present, even a
      falsy one, and `None` when none is present. */
  lemma LiveNameByPresence(t: string, live: Bag, i: nat)
    requires LiveNameField(t).None?
    requires i < |LiveNameFields| && Has(live, LiveNameFields[i])
    requires forall j :: 0 <= j < i ==> !Has(live, LiveNameFields[j])
    ensures AwsLiveName(t, live) == GetV(live, LiveNameFields[i])
  {
    FirstPresentAt(live, LiveNameFields, i);
  }

  lemma LiveNameAbsent(t: string, live: Bag)
    requires LiveNameField(t).None?
    requires forall j :: 0 <= j < |LiveNameFields| ==> !Has(live, LiveNameFields[j])
    ensures AwsLiveName(t, live) == Null
  {
    FirstPresentNone(live, LiveNameFields);
  }

  /** The names tried, in order, for a resource called `this` or nothing. */
  function NameCandidates(awsLiveName: Value, live: Bag): seq<Value> {
    [awsLiveName, GetV(live, "function_name"), GetV(live, "FunctionName"), GetV(live, "clusterName"),
     GetV(live, "serviceName"), GetV(live, "TableName"), GetV(live, "RoleName"), GetV(live, "policy_name"),
     GetV(live, "QueueName"), GetV(live, "id"), GetV(live, "Id"), GetV(live, "arn"), GetV(live, "Arn")]
  }

  /** `f"{resource_type}:{resource_key}"` */
  function TypedKey(t: string, key: Value): string {
    t + ":" + StrOf(key)
  }

  /** The logical name: the resource name unless it is empty or `this`, else the first
      truthy candidate, else `{type}:{key}`. */
  function LogicalName(t: string, name: string, key: Value, live: Bag, awsLiveName: Value): (r: Value)
    ensures Truthy(r)
    ensures name != "" && name != "this" ==> r == Str(name)
    ensures (name == "" || name == "this") && FirstTruthyOf(NameCandidates(awsLiveName, live)).Some? ==>
      r == FirstTruthyOf(NameCandidates(awsLiveName, live)).value
    ensures (name == "" || name == "this") && FirstTruthyOf(NameCandidates(awsLiveName, live)).None? ==>
      r == Str(TypedKey(t, key))
  {
    if name != "" && name != "this" then Str(name)
    else match FirstTruthyOf(NameCandidates(awsLiveName, live))
    case Some(v) => v
    case None => Str(TypedKey(t, key))
  }

  /** For a resource called `this` or nothing, the logical name is the first truthy of
      the candidates: the live name, then the live fields in the order `detect_drift`
      lists them. */
  lemma LogicalNameIsFirstTruthyCandidate(t: string, name: string, key: Value, live: Bag, awsLiveName: Value, i: nat)
    requires name == "" || name == "this"
    requires i < |NameCandidates(awsLiveName, live)| && Truthy(NameCandidates(awsLiveName, live)[i])
    requires forall j :: 0 <= j < i ==> !Truthy(NameCandidates(awsLiveName, live)[j])
    ensures LogicalName(t, name, key, live, awsLiveName) == NameCandidates(awsLiveName, live)[i]
  {
    FirstTruthyOfAt(NameCandidates(awsLiveName, live), i);
  }

  /** With no truthy candidate, the logical name is `{type}:{key}`. */
  lemma LogicalNameFallsBackToTypedKey(t: string, name: string, key: Value, live: Bag, awsLiveName: Value)
    requires name == "" || name == "this"
    requires forall j :: 0 <= j < |NameCandidates(awsLiveName, live)| ==> !Truthy(NameCandidates(awsLiveName, live)[j])
    ensures LogicalName(t, name, key, live, awsLiveName) == Str(t + ":" + StrOf(key))
  {
  }

  /** `logical (AWS: live)` when both names are present and differ, else the first present
      of the logical name, the live name and `{type}:{key}`. */
  function DisplayName(t: string, key: Value, logical: Value, awsLiveName: Value): (r: Value)
    ensures Truthy(r)
    ensures Truthy(logical) && !(Truthy(awsLiveName) && logical != awsLiveName) ==> r == logical
  {
    if Truthy(logical) && Truthy(awsLiveName) && logical != awsLiveName then
      Str(StrOf(logical) + " (AWS: " + StrOf(awsLiveName) + ")")
    else Or(Or(logical, awsLiveName), Str(TypedKey(t, key)))
  }

  /** With a logical name always present, the display shows both names exactly when a live
      name is present and differs; otherwise it is the logical name itself. */
  lemma DisplayShowsBothIffTheyDiffer(t: string, key: Value, logical: Value, awsLiveName: Value)
    requires Truthy(logical)
    ensures DisplayName(t, key, logical, awsLiveName) == Str(StrOf(logical) + " (AWS: " + StrOf(awsLiveName) + ")")
      <==> Truthy(awsLiveName) && logical != awsLiveName
    ensures !(Truthy(awsLiveName) && logical != awsLiveName) ==> DisplayName(t, key, logical, awsLiveName) == logical
  {
    var both := StrOf(logical) + " (AWS: " + StrOf(awsLiveName) + ")";
    if !(Truthy(awsLiveName) && logical != awsLiveName) && logical.Str? {
      assert |both| > |StrOf(logical)|;
    }
  }

  /** A `matching_resources` entry. */
  datatype MatchRecord = MatchRecord(rtype: string, name: string, awsLiveName: Value, displayName: Value)

  /** The entry for a matched key, from the instance the key map names and the live bag. */
  function MatchRecordFor(origins: map<Value, Origin>, live: Dict<Bag>, key: Value): (r: MatchRecord)
    requires key in origins && key.Str? && Has(live, key.s)
    ensures r.rtype == origins[key].rtype && r.name == origins[key].name
    ensures r.awsLiveName == AwsLiveName(origins[key].rtype, Get(live, key.s).value)
    ensures r.displayName == DisplayName(origins[key].rtype, key,
      LogicalName(origins[key].rtype, origins[key].name, key, Get(live, key.s).value, r.awsLiveName), r.awsLiveName)
    ensures Truthy(r.displayName)
  {
    var o := origins[key];
    var liveAttributes := Get(live, key.s).value;
    var awsLiveName := AwsLiveName(o.rtype, liveAttributes);
    var logical := LogicalName(o.rtype, o.name, key, liveAttributes, awsLiveName);
    MatchRecord(o.rtype, o.name, awsLiveName, DisplayName(o.rtype, key, logical, awsLiveName))
  }

  /** The matching loop over `state & live`, in the set's (unspecified) order: one entry
      per matched key, skipping drifted keys; `recordOf` builds the entry (`MatchRecordFor`
      there). `order` is the order the keys were visited in; it holds each matched key
      once. */
  method MatchResources<K, R>(stateKeys: set<K>, liveKeys: set<K>, drifted: set<K>, recordOf: K --> R)
    returns (records: seq<R>, ghost order: seq<K>)
    requires forall k :: k in stateKeys && k in liveKeys ==> recordOf.requires(k)
    ensures forall k :: k in order <==> k in Matched(stateKeys, liveKeys, drifted)
    ensures |records| == |order| == |Matched(stateKeys, liveKeys, drifted)|
    ensures forall i :: 0 <= i < |order| ==> recordOf.requires(order[i]) && records[i] == recordOf(order[i])
  {
    var todo := stateKeys * liveKeys;
    ghost var chosen: set<K> := {};
    records := [];
    order := [];
    while todo != {}
      invariant todo <= stateKeys * liveKeys
      invariant forall k :: k in chosen <==> k in stateKeys && k in liveKeys && k !in todo && k !in drifted
      invariant forall k :: k in order <==> k in chosen
      invariant |records| == |order| == |chosen|
      invariant forall i :: 0 <= i < |order| ==> recordOf.requires(order[i]) && records[i] == recordOf(order[i])
      decreases |todo|
    {
      var key :| key in todo;
      if key !in drifted {
        records := records + [recordOf(key)];
        order := order + [key];
        chosen := chosen + {key};
      }
      todo := todo - {key};
    }
    assert chosen == Matched(stateKeys, liveKeys, drifted);
  }

  // ---------------------------------------------------------------------------------
  // Meta and unmatched entries

  /** A `meta_resources` entry. */
  datatype MetaRecord = MetaRecord(rtype: string, name: string, value: Value)

  /** The reported value of a meta instance: its ARN or id, else `(no id/arn)`. */
  function MetaValue(attributes: Bag): (r: Value)
    ensures Truthy(r)
  {
    match FirstTruthy(attributes, ArnFields)
    case Some(arn) => arn
    case None =>
      match FirstTruthy(attributes, IdFields)
      case Some(id) => id
      case None => Str("(no id/arn)")
  }

  /** The key of a meta instance: its hybrid key. */
  function MetaKey(t: string, name: string, idx: int, attributes: Bag): Value {
    HybridKey(attributes, t, name, idx)
  }

  /** The meta entries and keys after the first `count` blocks, each instance keyed by
      `keyOf` and reported by `valueOf` (`MetaKey` and `MetaValue` in `detect_drift`). */
  function MetaAfter(keyOf: KeyOf, valueOf: Bag -> Value, resources: seq<Resource>, count: nat): Result<(seq<MetaRecord>, set<Value>)>
    requires count <= |resources|
  {
    if count == 0 then Ok(([], {}))
    else match MetaAfter(keyOf, valueOf, resources, count - 1)
    case Err(e) => Err(e)
    case Ok(acc) =>
      var resource := resources[count - 1];
      if resource.rtype in MetaResourceTypes then MetaBlock(keyOf, valueOf, acc, resource, |Instances(resource)|)
      else Ok(acc)
  }

  function MetaBlock(keyOf: KeyOf, valueOf: Bag -> Value, acc: (seq<MetaRecord>, set<Value>), resource: Resource, count: nat): Result<(seq<MetaRecord>, set<Value>)>
    requires count <= |Instances(resource)|
  {
    if count == 0 then Ok(acc)
    else match MetaBlock(keyOf, valueOf, acc, resource, count - 1)
    case Err(e) => Err(e)
    case Ok(prev) =>
      var attributes := Instances(resource)[count - 1];
      var key := keyOf(resource.rtype, resource.name, count - 1, attributes);
      if !Hashable(key) then Err(Unhashable(key))
      else Ok((prev.0 + [MetaRecord(resource.rtype, resource.name, valueOf(attributes))], prev.1 + {key}))
  }

  lemma {:induction false} MetaBlockErrorPersists(keyOf: KeyOf, valueOf: Bag -> Value, acc: (seq<MetaRecord>, set<Value>), resource: Resource, k: nat, n: nat)
    requires k <= n <= |Instances(resource)|
    requires MetaBlock(keyOf, valueOf, acc, resource, k).Err?
    ensures MetaBlock(keyOf, valueOf, acc, resource, n) == MetaBlock(keyOf, valueOf, acc, resource, k)
    decreases n
  {
    if n > k {
      MetaBlockErrorPersists(keyOf, valueOf, acc, resource, k, n - 1);
    }
  }

  lemma {:induction false} MetaErrorPersists(keyOf: KeyOf, valueOf: Bag -> Value, resources: seq<Resource>, k: nat, n: nat)
    requires k <= n <= |resources|
    requires MetaAfter(keyOf, valueOf, resources, k).Err?
    ensures MetaAfter(keyOf, valueOf, resources, n) == MetaAfter(keyOf, valueOf, resources, k)
    decreases n
  {
    if n > k {
      MetaErrorPersists(keyOf, valueOf, resources, k, n - 1);
    }
  }

  /** The inner meta loop: the instances of one meta block, in order. */
  method CollectMetaBlock(keyOf: KeyOf, valueOf: Bag -> Value, acc: (seq<MetaRecord>, set<Value>), resource: Resource)
    returns (r: Result<(seq<MetaRecord>, set<Value>)>)
    ensures r == MetaBlock(keyOf, valueOf, acc, resource, |Instances(resource)|)
  {
    var instances := Instances(resource);
    var records := acc.0;
    var keys := acc.1;
    var j := 0;
    while j < |instances|
      invariant 0 <= j <= |instances|
      invariant MetaBlock(keyOf, valueOf, acc, resource, j) == Ok((records, keys))
    {
      var key := keyOf(resource.rtype, resource.name, j, instances[j]);
      if !Hashable(key) {
        MetaBlockErrorPersists(keyOf, valueOf, acc, resource, j + 1, |instances|);
        return Err(Unhashable(key));
      }
      records := records + [MetaRecord(resource.rtype, resource.name, valueOf(instances[j]))];
      keys := keys + {key};
      j := j + 1;
    }
    return Ok((records, keys));
  }

  /** The meta loop: every instance of every meta block, in state order. */
  method CollectMeta(keyOf: KeyOf, valueOf: Bag -> Value, resources: seq<Resource>) returns (r: Result<(seq<MetaRecord>, set<Value>)>)
    ensures r == MetaAfter(keyOf, valueOf, resources, |resources|)
  {
    var acc: (seq<MetaRecord>, set<Value>) := ([], {});
    var i := 0;
    while i < |resources|
      invariant 0 <= i <= |resources|
      invariant MetaAfter(keyOf, valueOf, resources, i) == Ok(acc)
    {
      if resources[i].rtype in MetaResourceTypes {
        var block := CollectMetaBlock(keyOf, valueOf, acc, resources[i]);
        if block.Err? {
          MetaErrorPersists(keyOf, valueOf, resources, i + 1, |resources|);
          return block;
        }
        acc := block.value;
      }
      i := i + 1;
    }
    return Ok(acc);
  }

  /** An `unmatched_resources` entry. */
  datatype UnmatchedRecord<K> = UnmatchedRecord(rtype: string, name: string, key: K)

  /** The entries for the unmatched, undetected keys, in the set's (unspecified) order: one
      per key the key map knows. */
  method ListUnmatched<K(!new)>(keys: set<K>, origins: map<K, Origin>) returns (records: seq<UnmatchedRecord<K>>)
    ensures |records| == |keys * origins.Keys|
    ensures forall r :: r in records <==>
      (r.key in keys && r.key in origins && r == UnmatchedRecord(origins[r.key].rtype, origins[r.key].name, r.key))
    ensures keys <= origins.Keys ==> UnmatchedFits(origins, keys, records)
  {
    var todo := keys;
    ghost var chosen: set<K> := {};
    records := [];
    while todo != {}
      invariant todo <= keys
      invariant forall k :: k in chosen <==> k in keys && k !in todo && k in origins
      invariant |records| == |chosen|
      invariant forall r :: r in records <==>
        (r.key in chosen && r == UnmatchedRecord(origins[r.key].rtype, origins[r.key].name, r.key))
      decreases |todo|
    {
      var key :| key in todo;
      if key in origins {
        records := records + [UnmatchedRecord(origins[key].rtype, origins[key].name, key)];
        chosen := chosen + {key};
      }
      todo := todo - {key};
    }
    assert chosen == keys * origins.Keys;
    if keys <= origins.Keys {
      UnmatchedEntriesFit(origins, keys, records);
    }
  }

  // ---------------------------------------------------------------------------------
  // `detect_drift`

  /** The `summary` of a report, without its timestamp. `unmatchedResources` is the list
      the report carries under both `unmatched_undetected_resources` and
      `unmatched_resources`. */
  datatype Summary = Summary(
    resourceBlockCount: int, totalInstanceCount: int, totalResources: int, driftCount: int,
    matchingResources: seq<MatchRecord>, skippedResources: set<Value>, metaResources: seq<MetaRecord>,
    unmatchedResources: seq<UnmatchedRecord<Value>>)

  /** A report, or the error report an exception turns into. */
  datatype Outcome =
    | Report(driftDetected: bool, drifts: seq<ComparatorsBase.Drift>, summary: Summary)
    | ErrorReport(error: string, driftDetected: bool, drifts: seq<ComparatorsBase.Drift>)

  /** `str(e)` */
  function ErrorText(e: PyError): string {
    e.message
  }

  /** The matching entries: one per matched key, each built by `MatchRecordFor`, and no
      other. */
  ghost predicate MatchingFits(origins: map<Value, Origin>, live: Dict<Bag>, matched: set<Value>, entries: seq<MatchRecord>) {
    && |entries| == |matched|
    && (forall k :: k in matched ==>
          k in origins && k.Str? && Has(live, k.s) && MatchRecordFor(origins, live, k) in entries)
    && (forall m :: m in entries ==>
          exists k :: k in matched && k in origins && k.Str? && Has(live, k.s) && m == MatchRecordFor(origins, live, k))
  }

  /** The unmatched entries: one per undetected key, naming the instance the key map
      holds for it. */
  ghost predicate UnmatchedFits<K(!new)>(origins: map<K, Origin>, undetected: set<K>, entries: seq<UnmatchedRecord<K>>) {
    && |entries| == |undetected|
    && (forall u :: u in entries <==>
          u.key in undetected && u.key in origins && u == UnmatchedRecord(origins[u.key].rtype, origins[u.key].name, u.key))
  }

  /** What the summary says of the state, the live map and the drift records: the block
      and instance counts, the number of state keys (never more than instances), the
      number of drifted keys, the skipped (unmatched) keys, one matching entry per matched
      key, the meta entries in state order, and one unmatched entry per key that is
      neither matched, drifted nor a meta key. */
  ghost predicate SummaryFits(resources: seq<Resource>, live: Dict<Bag>, drifts: seq<ComparatorsBase.Drift>, summary: Summary) {
    var keying := StateKeying(StateKeyOf, resources, |resources|);
    var meta := MetaAfter(MetaKey, MetaValue, resources, |resources|);
    && keying.Ok?
    && meta.Ok?
    && summary.resourceBlockCount == |resources|
    && summary.totalInstanceCount == InstanceTotal(resources, |resources|)
    && summary.totalResources == |keying.value.keys| <= summary.totalInstanceCount
    && summary.driftCount == |DriftedKeys(drifts)|
    && summary.skippedResources == Unmatched(keying.value.keys, LiveKeys(live), DriftedKeys(drifts))
    && MatchingFits(keying.value.origins, live, Matched(keying.value.keys, LiveKeys(live), DriftedKeys(drifts)),
                    summary.matchingResources)
    && summary.metaResources == meta.value.0
    && UnmatchedFits(keying.value.origins,
                     keying.value.keys - Matched(keying.value.keys, LiveKeys(live), DriftedKeys(drifts)) - DriftedKeys(drifts) - meta.value.1,
                     summary.unmatchedResources)
  }

  /** The summary fits once each of its parts does, given the keying and the meta
      entries as values. */
  lemma SummaryFitsOfParts(resources: seq<Resource>, live: Dict<Bag>, drifts: seq<ComparatorsBase.Drift>, summary: Summary,
                           keying: Keying, meta: (seq<MetaRecord>, set<Value>), matched: set<Value>, undetected: set<Value>)
    requires StateKeying(StateKeyOf, resources, |resources|) == Ok(keying)
    requires MetaAfter(MetaKey, MetaValue, resources, |resources|) == Ok(meta)
    requires matched == Matched(keying.keys, LiveKeys(live), DriftedKeys(drifts))
    requires undetected == keying.keys - matched - DriftedKeys(drifts) - meta.1
    requires summary.resourceBlockCount == |resources|
    requires summary.totalInstanceCount == InstanceTotal(resources, |resources|)
    requires summary.totalResources == |keying.keys| <= summary.totalInstanceCount
    requires summary.driftCount == |DriftedKeys(drifts)|
    requires summary.skippedResources == Unmatched(keying.keys, LiveKeys(live), DriftedKeys(drifts))
    requires MatchingFits(keying.origins, live, matched, summary.matchingResources)
    requires summary.metaResources == meta.0
    requires UnmatchedFits(keying.origins, undetected, summary.unmatchedResources)
    ensures SummaryFits(resources, live, drifts, summary)
  {
  }

  lemma UndetectedWithinKeys(keys: set<Value>, matched: set<Value>, drifted: set<Value>, metaKeys: set<Value>)
    ensures keys - matched - drifted - metaKeys <= keys
  {
  }

  /** The entries `ListUnmatched` builds fit the undetected keys when the key map knows all of
      them. */
  lemma UnmatchedEntriesFit<K(!new)>(origins: map<K, Origin>, undetected: set<K>, entries: seq<UnmatchedRecord<K>>)
    requires undetected <= origins.Keys
    requires |entries| == |undetected * origins.Keys|
    requires forall u :: u in entries <==>
      (u.key in undetected && u.key in origins && u == UnmatchedRecord(origins[u.key].rtype, origins[u.key].name, u.key))
    ensures UnmatchedFits(origins, undetected, entries)
  {
    assert undetected * origins.Keys == undetected;
  }

  /** The matching loop's entries, read through the order it visited the keys in, fit the
      matched keys. */
  lemma MatchingEntriesFit(origins: map<Value, Origin>, live: Dict<Bag>, matched: set<Value>,
                           entries: seq<MatchRecord>, order: seq<Value>)
    requires forall k :: k in matched ==> k in origins && k.Str? && Has(live, k.s)
    requires forall k :: k in order <==> k in matched
    requires |entries| == |order| == |matched|
    requires forall i :: 0 <= i < |order| ==>
      order[i] in origins && order[i].Str? && Has(live, order[i].s) && entries[i] == MatchRecordFor(origins, live, order[i])
    ensures MatchingFits(origins, live, matched, entries)
  {
    forall k | k in matched ensures MatchRecordFor(origins, live, k) in entries {
      var i :| 0 <= i < |order| && order[i] == k;
      assert entries[i] == MatchRecordFor(origins, live, k);
    }
    forall m | m in entries
      ensures exists k :: k in matched && k in origins && k.Str? && Has(live, k.s) && m == MatchRecordFor(origins, live, k)
    {
      var i :| 0 <= i < |entries| && entries[i] == m;
      assert order[i] in order;
      assert m == MatchRecordFor(origins, live, order[i]);
    }
  }

  /** What the summary needs of a successful keying: its key set is the key map's domain
      and no larger than the instance count. */
  lemma KeyingBounded(resources: seq<Resource>, keying: Keying)
    requires StateKeying(StateKeyOf, resources, |resources|) == Ok(keying)
    ensures keying.keys == keying.origins.Keys
    ensures |keying.keys| <= InstanceTotal(resources, |resources|)
  {
    StateKeyingSound(StateKeyOf, resources, |resources|);
    KeyedWithinTotal(resources, |resources|);
  }

  /** Step 4 of `detect_drift`: the matching entries for a key map and a live map. */
  method MatchEntries(keying: Keying, live: Dict<Bag>, drifted: set<Value>) returns (entries: seq<MatchRecord>)
    requires keying.keys == keying.origins.Keys
    ensures MatchingFits(keying.origins, live, Matched(keying.keys, LiveKeys(live), drifted), entries)
  {
    var origins := keying.origins;
    var liveKeys := LiveKeys(live);
    forall key | key in liveKeys {
      LiveKeyPresent(live, key);
    }
    var records, order := MatchResources(keying.keys, liveKeys, drifted,
      key requires key in origins && key.Str? && Has(live, key.s) => MatchRecordFor(origins, live, key));
    MatchingEntriesFit(origins, live, Matched(keying.keys, liveKeys, drifted), records, order);
    entries := records;
  }

  /** Steps 4 to 6 of `detect_drift`: counts, keying, matching, meta and unmatched
      entries. It fails exactly when a state key or a meta key is unhashable, with that
      error. */
  method Summarise(resources: seq<Resource>, live: Dict<Bag>, drifts: seq<ComparatorsBase.Drift>) returns (r: Result<Summary>)
    ensures r.Ok? <==> StateKeying(StateKeyOf, resources, |resources|).Ok? && MetaAfter(MetaKey, MetaValue, resources, |resources|).Ok?
    ensures r.Ok? ==> SummaryFits(resources, live, drifts, r.value)
    ensures StateKeying(StateKeyOf, resources, |resources|).Err? ==> r == Err(StateKeying(StateKeyOf, resources, |resources|).error)
    ensures StateKeying(StateKeyOf, resources, |resources|).Ok? && MetaAfter(MetaKey, MetaValue, resources, |resources|).Err? ==>
      r == Err(MetaAfter(MetaKey, MetaValue, resources, |resources|).error)
  {
    var total := CountInstances(resources);
    var keyed := KeyState(StateKeyOf, resources);
    if keyed.Err? {
      return Err(keyed.error);
    }
    var keying := keyed.value;
    KeyingBounded(resources, keying);
    var liveKeys := LiveKeys(live);
    var drifted := DriftedKeys(drifts);
    var matching := MatchEntries(keying, live, drifted);
    var matched := Matched(keying.keys, liveKeys, drifted);
    var unmatched := Unmatched(keying.keys, liveKeys, drifted);
    var meta := CollectMeta(MetaKey, MetaValue, resources);
    if meta.Err? {
      return Err(meta.error);
    }
    var undetected := keying.keys - matched - drifted - meta.value.1;
    UndetectedWithinKeys(keying.keys, matched, drifted, meta.value.1);
    var unmatchedRecords := ListUnmatched(undetected, keying.origins);
    var summary := Summary(|resources|, total, |keying.keys|, |drifted|, matching, unmatched, meta.value.0, unmatchedRecords);
    SummaryFitsOfParts(resources, live, drifts, summary, keying, meta.value, matched, undetected);
    return Ok(summary);
  }

  /** The drift step `compare_resources` uses against a live map. */
  function DrifterOf(loads: Loads): Dict<Bag> -> ComparatorsBase.DriftStep {
    live => ComparatorsBase.Drifter(loads, live)
  }

  /** What `detect_drift` gives for a parsed state, stage by stage, when `step` fetches
      an instance and `drifterOf(live)` compares one: the error report of the first stage
      that raises (fetching, comparing, keying, meta keying), else the report of the
      comparison's records with a summary that fits them. */
  ghost predicate DetectedFrom(step: FetchersBase.Step, drifterOf: Dict<Bag> -> ComparatorsBase.DriftStep,
                               resources: seq<Resource>, r: Outcome) {
    var live := FetchersBase.AfterResources(step, resources, |resources|);
    if live.Err? then r == ErrorReport(ErrorText(live.error), false, [])
    else
      var run := ComparatorsBase.RunDrifts(drifterOf(live.value), resources, |resources|);
      if run.Err? then r == ErrorReport(ErrorText(run.error), false, [])
      else
        var keying := StateKeying(StateKeyOf, resources, |resources|);
        var meta := MetaAfter(MetaKey, MetaValue, resources, |resources|);
        if keying.Err? then r == ErrorReport(ErrorText(keying.error), false, [])
        else if meta.Err? then r == ErrorReport(ErrorText(meta.error), false, [])
        else
          && r.Report?
          && r.drifts == run.value
          && r.driftDetected == (run.value != [])
          && SummaryFits(resources, live.value, r.drifts, r.summary)
  }

  /** The body of `detect_drift` for any fetch and comparison steps: fetch every block,
      compare every instance, then summarise; any exception gives the error report. */
  method Detect(step: FetchersBase.Step, drifterOf: Dict<Bag> -> ComparatorsBase.DriftStep, state: Result<seq<Resource>>)
    returns (r: Outcome)
    ensures r.ErrorReport? ==> !r.driftDetected && r.drifts == []
    ensures state.Err? ==> r == ErrorReport(ErrorText(state.error), false, [])
    ensures state.Ok? ==> DetectedFrom(step, drifterOf, state.value, r)
  {
    if state.Err? {
      return ErrorReport(ErrorText(state.error), false, []);
    }
    var resources := state.value;
    var fetched := FetchersBase.FetchBlocks(step, resources);
    if fetched.Err? {
      return ErrorReport(ErrorText(fetched.error), false, []);
    }
    var compared := ComparatorsBase.CompareBlocks(drifterOf(fetched.value), resources);
    if compared.Err? {
      return ErrorReport(ErrorText(compared.error), false, []);
    }
    var drifts := compared.value;
    var summary := Summarise(resources, fetched.value, drifts);
    if summary.Err? {
      return ErrorReport(ErrorText(summary.error), false, []);
    }
    return Report(|drifts| > 0, drifts, summary.value);
  }

  /** `detect_drift` from the parsed state onwards. `state` is the parsed block list, or
      the failure to read or parse it; `fetch` answers the fetchers' calls and `loads`
      stands for `json.loads`. */
  method DetectDrift(loads: Loads, fetch: FetchersBase.Fetch, state: Result<seq<Resource>>) returns (r: Outcome)
    ensures r.ErrorReport? ==> !r.driftDetected && r.drifts == []
    ensures state.Err? ==> r == ErrorReport(ErrorText(state.error), false, [])
    ensures state.Ok? ==> DetectedFrom(FetchersBase.Stepper(fetch), DrifterOf(loads), state.value, r)
  {
    r := Detect(FetchersBase.Stepper(fetch), DrifterOf(loads), state);
  }
}
