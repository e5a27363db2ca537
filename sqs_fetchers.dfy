/** The SQS fetcher's part in reconciliation: the hybrid key it files each queue under and
    the map it builds from a listing of queue URLs. The SQS client is abstract: the listing
    and each queue's attributes are inputs. */
module SqsFetchers {
  import opened Python
  import opened Keys

  /** `extract_hybrid_key_from_sqs`: a truthy `QueueArn`, else a truthy `QueueUrl`, else a
      constant. */
  function ExtractHybridKeyFromSqs(queue: Bag): (r: string) {
    match FirstTruthy(queue, ["QueueArn", "QueueUrl"])
    case Some(v) => StrOf(v)
    case None => "aws_sqs_queue.unknown"
  }

  lemma SqsKeyIsArn(queue: Bag)
    requires Truthy(GetV(queue, "QueueArn"))
    ensures ExtractHybridKeyFromSqs(queue) == StrOf(GetV(queue, "QueueArn"))
  {
    assert FirstTruthyAt(queue, ["QueueArn", "QueueUrl"], 0);
    FirstTruthyAtIsFirstTruthy(queue, ["QueueArn", "QueueUrl"], 0);
  }

  lemma SqsKeyElseUrl(queue: Bag)
    requires !Truthy(GetV(queue, "QueueArn"))
    ensures ExtractHybridKeyFromSqs(queue) ==
      if Truthy(GetV(queue, "QueueUrl")) then StrOf(GetV(queue, "QueueUrl")) else "aws_sqs_queue.unknown"
  {
    if Truthy(GetV(queue, "QueueUrl")) {
      assert FirstTruthyAt(queue, ["QueueArn", "QueueUrl"], 1);
      FirstTruthyAtIsFirstTruthy(queue, ["QueueArn", "QueueUrl"], 1);
    }
  }

  /** The record stored for one queue: `{"QueueUrl": url, **attrs}` with `QueueArn` then set
      to `attrs.get("QueueArn")`. */
  function QueueRecord(url: string, attrs: Bag): (r: Bag)
    ensures Get(r, "QueueArn") == Some(GetV(attrs, "QueueArn"))
    ensures !Has(attrs, "QueueUrl") ==> Get(r, "QueueUrl") == Some(Str(url))
    ensures forall k :: k != "QueueArn" && Has(attrs, k) ==> Get(r, k) == Get(attrs, k)
    ensures forall k :: Has(r, k) ==> k == "QueueUrl" || k == "QueueArn" || Has(attrs, k)
  {
    var base: Bag := [("QueueUrl", Str(url))];
    forall k | k != "QueueUrl" ensures !Has(base, k) {
      assert base[0].0 != k;
      assert base[1..] == [];
      assert Get(base, k) == Get(base[1..], k);
    }
    var merged := Update(base, attrs);
    var r := Put(merged, "QueueArn", GetV(attrs, "QueueArn"));
    forall k | Has(r, k) && k != "QueueUrl" && k != "QueueArn" ensures Has(attrs, k) {
      assert Get(r, k) == Get(merged, k);
      assert !Has(base, k);
      assert Get(merged, k) == if Has(attrs, k) then Get(attrs, k) else Get(base, k);
    }
    r
  }

  /** The key a listed queue is filed under. */
  function QueueKey(url: string, attrs: Bag): string {
    ExtractHybridKeyFromSqs(QueueRecord(url, attrs))
  }

  /** A queue whose attributes carry a truthy ARN is filed under that ARN. */
  lemma QueueKeyIsQueueArn(url: string, attrs: Bag)
    requires Truthy(GetV(attrs, "QueueArn"))
    ensures QueueKey(url, attrs) == StrOf(GetV(attrs, "QueueArn"))
  {
    SqsKeyIsArn(QueueRecord(url, attrs));
  }

  /** `get_queue_attributes(...)["Attributes"]` for a URL; `None` where the call raises. */
  type AttributesOf = string -> Option<Bag>

  /** How a listed queue is filed: its key and the record stored under it. */
  type Filing = (string, Bag) -> (string, Bag)

  /** The filing `fetch_sqs_resources` uses. */
  function QueueFiling(): Filing {
    (url: string, attrs: Bag) => (QueueKey(url, attrs), QueueRecord(url, attrs))
  }

  /** The map after the first `n` listed queues, or `None` once a lookup has raised. */
  function QueuesAfter(filing: Filing, urls: seq<string>, attributesOf: AttributesOf, n: nat): Option<Dict<Bag>>
    requires n <= |urls|
  {
    if n == 0 then
      var empty: Dict<Bag> := [];
      Some(empty)
    else
      match QueuesAfter(filing, urls, attributesOf, n - 1)
      case None => None
      case Some(live) =>
        match attributesOf(urls[n - 1])
        case None => None
        case Some(attrs) => Some(Put(live, filing(urls[n - 1], attrs).0, filing(urls[n - 1], attrs).1))
  }

  /** What `fetch_sqs_resources` returns: the filled map, or `{}` when listing the queues or
      reading any queue's attributes raised. */
  function SqsResources(listing: Option<seq<string>>, attributesOf: AttributesOf): Dict<Bag> {
    match listing
    case None => []
    case Some(urls) =>
      match QueuesAfter(QueueFiling(), urls, attributesOf, |urls|)
      case None => []
      case Some(live) => live
  }

  lemma {:induction false} QueuesErrorPersists(filing: Filing, urls: seq<string>, attributesOf: AttributesOf, k: nat, n: nat)
    requires k <= n <= |urls| && QueuesAfter(filing, urls, attributesOf, k).None?
    ensures QueuesAfter(filing, urls, attributesOf, n).None?
    decreases n - k
  {
    if k < n {
      QueuesErrorPersists(filing, urls, attributesOf, k + 1, n);
    }
  }

  /** The loop of `fetch_sqs_resources`, for any filing of the queues. */
  method FileQueues(filing: Filing, urls: seq<string>, attributesOf: AttributesOf) returns (r: Option<Dict<Bag>>)
    ensures r == QueuesAfter(filing, urls, attributesOf, |urls|)
  {
    var live: Dict<Bag> := [];
    var i := 0;
    while i < |urls|
      invariant 0 <= i <= |urls|
      invariant QueuesAfter(filing, urls, attributesOf, i) == Some(live)
    {
      var attrs := attributesOf(urls[i]);
      if attrs.None? {
        QueuesErrorPersists(filing, urls, attributesOf, i + 1, |urls|);
        return None;
      }
      var entry := filing(urls[i], attrs.value);
      live := Put(live, entry.0, entry.1);
      i := i + 1;
    }
    return Some(live);
  }

  /** `fetch_sqs_resources`: the resource key and attributes it is given play no part. */
  method FetchSqsResources(resourceKey: string, attributes: Bag, listing: Option<seq<string>>,
                           attributesOf: AttributesOf) returns (r: Dict<Bag>)
    ensures r == SqsResources(listing, attributesOf)
  {
    if listing.None? {
      return [];
    }
    var filed := FileQueues(QueueFiling(), listing.value, attributesOf);
    if filed.None? {
      return [];
    }
    return filed.value;
  }

  /** One failed attribute lookup empties the whole result. */
  lemma AnyFailureGivesEmpty(filing: Filing, urls: seq<string>, attributesOf: AttributesOf, i: int)
    requires 0 <= i < |urls| && attributesOf(urls[i]).None?
    ensures QueuesAfter(filing, urls, attributesOf, |urls|).None?
  {
    QueuesErrorPersists(filing, urls, attributesOf, i + 1, |urls|);
  }

  /** Queue `i` of the first `n` is filed under `k` and no later one of them is. */
  predicate LastWithKey(filing: Filing, urls: seq<string>, attributesOf: AttributesOf, n: nat, k: string, i: int)
    requires n <= |urls|
  {
    0 <= i < n && attributesOf(urls[i]).Some? && filing(urls[i], attributesOf(urls[i]).value).0 == k &&
    forall j :: i < j < n ==> attributesOf(urls[j]).Some? && filing(urls[j], attributesOf(urls[j]).value).0 != k
  }

  /** The last listed queue filed under a key is the one kept under it. */
  lemma {:induction false} LastQueueWins(filing: Filing, urls: seq<string>, attributesOf: AttributesOf, n: nat, k: string, i: int)
    requires n <= |urls| && QueuesAfter(filing, urls, attributesOf, n).Some?
    requires LastWithKey(filing, urls, attributesOf, n, k, i)
    ensures Get(QueuesAfter(filing, urls, attributesOf, n).value, k) == Some(filing(urls[i], attributesOf(urls[i]).value).1)
  {
    if i < n - 1 {
      assert LastWithKey(filing, urls, attributesOf, n - 1, k, i);
      LastQueueWins(filing, urls, attributesOf, n - 1, k, i);
    }
  }

  /** Every stored key is the key of a listed queue. */
  lemma {:induction false} StoredKeysFromQueues(filing: Filing, urls: seq<string>, attributesOf: AttributesOf, n: nat, k: string)
    requires n <= |urls| && QueuesAfter(filing, urls, attributesOf, n).Some?
    requires Has(QueuesAfter(filing, urls, attributesOf, n).value, k)
    ensures exists i :: 0 <= i < n && attributesOf(urls[i]).Some? && filing(urls[i], attributesOf(urls[i]).value).0 == k
  {
    var prev := QueuesAfter(filing, urls, attributesOf, n - 1).value;
    var entry := filing(urls[n - 1], attributesOf(urls[n - 1]).value);
    if entry.0 != k {
      assert Get(prev, k) == Get(Put(prev, entry.0, entry.1), k);
      StoredKeysFromQueues(filing, urls, attributesOf, n - 1, k);
    }
  }

  /** Every listed queue is stored under its key. */
  lemma {:induction false} EveryQueueFiled(filing: Filing, urls: seq<string>, attributesOf: AttributesOf, n: nat, i: int)
    requires n <= |urls| && 0 <= i < n && QueuesAfter(filing, urls, attributesOf, n).Some?
    ensures attributesOf(urls[i]).Some?
    ensures Has(QueuesAfter(filing, urls, attributesOf, n).value, filing(urls[i], attributesOf(urls[i]).value).0)
  {
    var prev := QueuesAfter(filing, urls, attributesOf, n - 1).value;
    var entry := filing(urls[n - 1], attributesOf(urls[n - 1]).value);
    var live := Put(prev, entry.0, entry.1);
    if i < n - 1 {
      EveryQueueFiled(filing, urls, attributesOf, n - 1, i);
      var k := filing(urls[i], attributesOf(urls[i]).value).0;
      assert Get(prev, k).Some?;
      assert Get(live, k).Some?;
    } else {
      assert Get(live, entry.0).Some?;
    }
  }

  /** The filing of `fetch_sqs_resources` stores the queue's record under its hybrid key. */
  lemma QueueFilingIsHybrid(url: string, attrs: Bag)
    ensures QueueFiling()(url, attrs) == (ExtractHybridKeyFromSqs(QueueRecord(url, attrs)), QueueRecord(url, attrs))
  {
  }

  /** When every lookup succeeds, a listed queue with a truthy `QueueArn` is found in the
      result under that ARN. */
  lemma ListedQueueFiledUnderArn(urls: seq<string>, attributesOf: AttributesOf, i: int)
    requires QueuesAfter(QueueFiling(), urls, attributesOf, |urls|).Some?
    requires 0 <= i < |urls| && attributesOf(urls[i]).Some? && Truthy(GetV(attributesOf(urls[i]).value, "QueueArn"))
    ensures Has(SqsResources(Some(urls), attributesOf), StrOf(GetV(attributesOf(urls[i]).value, "QueueArn")))
  {
    EveryQueueFiled(QueueFiling(), urls, attributesOf, |urls|, i);
    QueueKeyIsQueueArn(urls[i], attributesOf(urls[i]).value);
  }
}
