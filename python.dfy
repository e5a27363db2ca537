/** The slice of Python's data model that the reconciliation engine manipulates: the values
    an attribute bag can hold (the `ResourceValue` union), truthiness, `str()`, the
    exceptions the engine raises or trips over, and insertion-ordered dictionaries. */
module Python {
  import opened Text

  datatype Option<T> = None | Some(value: T)

  /** A value of `Union[str, int, float, bool, List, Dict, None]`. A float is kept as the
      text `repr()` gives it; a nested dict is order-free, as Python's `==` on dicts is. */
  datatype Value =
    | Null
    | Bool(b: bool)
    | Int(i: int)
    | Float(repr: string)
    | Str(s: string)
    | List(items: seq<Value>)
    | Map(entries: map<string, Value>)

  /** `bool(v)` */
  predicate Truthy(v: Value) {
    match v
    case Null => false
    case Bool(b) => b
    case Int(i) => i != 0
    case Float(repr) => repr != "0.0" && repr != "-0.0"
    case Str(s) => s != ""
    case List(items) => items != []
    case Map(entries) => entries != map[]
  }

  /** `a or b` */
  function Or(a: Value, b: Value): Value {
    if Truthy(a) then a else b
  }

  /** `str(v)`. Containers are rendered as Python renders them, except that dict keys come
      out in sorted order. */
  function StrOf(v: Value): (r: string)
    ensures v == Null ==> r == "None"
    ensures v.Str? ==> r == v.s
    decreases v, 1
  {
    match v
    case Null => "None"
    case Bool(b) => if b then "True" else "False"
    case Int(i) => IntToString(i)
    case Float(repr) => repr
    case Str(s) => s
    case List(items) =>
      "[" + Join(seq(|items|, k requires 0 <= k < |items| => ReprOf(items[k])), ", ") + "]"
    case Map(entries) =>
      var keys := SortedKeys(entries);
      "{" + Join(seq(|keys|, k requires 0 <= k < |keys| =>
                   StrRepr(keys[k]) + ": " + ReprOf(entries[keys[k]])), ", ") + "}"
  }

  /** `repr(v)` as used for the elements of a container. */
  function ReprOf(v: Value): string
    decreases v, 2
  {
    if v.Str? then StrRepr(v.s) else StrOf(v)
  }

  // ---------------------------------------------------------------------------------
  // `repr()` of a string

  /** The quote `repr()` encloses a string in: a double quote when the string holds a
      single quote and no double quote, else a single quote. */
  function ReprQuote(s: string): char {
    if '\'' in s && '"' !in s then '"' else '\''
  }

  const HexDigits := "0123456789abcdef"

  /** A character `repr()` writes as itself inside either quote. */
  predicate PlainChar(c: char) {
    ' ' <= c && c != '\\' && c != '\U{7F}'
  }

  /** How `repr()` writes one character between `quote`s: a backslash before itself and
      the quote, the named escapes for tab, newline and carriage return, `\xhh` for the
      other ASCII control characters, and any other character as itself. */
  function ReprChar(c: char, quote: char): string {
    if c == '\\' || c == quote then ['\\', c]
    else if c == '\t' then "\\t"
    else if c == '\n' then "\\n"
    else if c == '\r' then "\\r"
    else if c < ' ' || c == '\U{7F}' then ['\\', 'x', HexDigits[c as int / 16], HexDigits[c as int % 16]]
    else [c]
  }

  function ReprBody(s: string, quote: char): string {
    if s == [] then [] else ReprChar(s[0], quote) + ReprBody(s[1..], quote)
  }

  /** `repr(s)` for a string. */
  function StrRepr(s: string): string {
    var q := ReprQuote(s);
    [q] + ReprBody(s, q) + [q]
  }

  /** Plain characters other than the quote are written as they are. */
  lemma {:induction false} ReprBodyPlain(s: string, quote: char)
    requires forall i :: 0 <= i < |s| ==> PlainChar(s[i]) && s[i] != quote
    ensures ReprBody(s, quote) == s
  {
    if s != [] {
      ReprBodyPlain(s[1..], quote);
      assert s == [s[0]] + s[1..];
    }
  }

  /** A string of plain characters without a single quote is shown between single quotes
      as it is. */
  lemma PlainStrRepr(s: string)
    requires '\'' !in s
    requires forall i :: 0 <= i < |s| ==> PlainChar(s[i])
    ensures StrRepr(s) == "'" + s + "'"
  {
    ReprBodyPlain(s, '\'');
  }

  /** A string of plain characters with a single quote and no double quote is shown
      between double quotes as it is. */
  lemma SingleQuotedStrRepr(s: string)
    requires '\'' in s && '"' !in s
    requires forall i :: 0 <= i < |s| ==> PlainChar(s[i])
    ensures StrRepr(s) == "\"" + s + "\""
  {
    ReprBodyPlain(s, '"');
  }

  /** A newline is shown as the two characters `\n`. */
  lemma NewlineEscaped(quote: char)
    requires quote == '\'' || quote == '"'
    ensures ReprChar('\n', quote) == ['\\', 'n']
  {
  }

  /** `str(i)` for an index or count. */
  function StrOfInt(i: int): string {
    StrOf(Int(i))
  }

  /** The exceptions the engine raises or that Python raises inside it, with `str(e)`. */
  datatype PyError =
    | ValueError(message: string)
    | AttributeError(message: string)
    | TypeError(message: string)
    | IndexError(message: string)

  datatype Result<T> = Ok(value: T) | Err(error: PyError)

  /** `type(v).__name__` */
  function TypeName(v: Value): string {
    match v
    case Null => "NoneType"
    case Bool(_) => "bool"
    case Int(_) => "int"
    case Float(_) => "float"
    case Str(_) => "str"
    case List(_) => "list"
    case Map(_) => "dict"
  }

  /** The error of calling a `str` method such as `split` on a value that is not a `str`. */
  function NoAttribute(v: Value, attribute: string): PyError {
    AttributeError("'" + TypeName(v) + "' object has no attribute '" + attribute + "'")
  }

  // ---------------------------------------------------------------------------------
  // Insertion-ordered dictionaries keyed by strings

  predicate DistinctKeys<V>(d: seq<(string, V)>) {
    forall i, j :: 0 <= i < j < |d| ==> d[i].0 != d[j].0
  }

  /** A Python `dict` with string keys: its items in insertion order. */
  type Dict<V> = d: seq<(string, V)> | DistinctKeys(d) witness []

  /** An attribute bag: a dict from attribute names to values. */
  type Bag = Dict<Value>

  /** `d.get(k)`, with `None` for a missing key kept apart from a present `None`. */
  function Get<V>(d: seq<(string, V)>, k: string): Option<V> {
    if d == [] then None
    else if d[0].0 == k then Some(d[0].1)
    else Get(d[1..], k)
  }

  /** `k in d` */
  predicate Has<V>(d: seq<(string, V)>, k: string) {
    Get(d, k).Some?
  }

  /** A key is in a dict exactly when some item carries it. */
  lemma {:induction false} HasIndex<V>(d: seq<(string, V)>, k: string)
    ensures Has(d, k) <==> exists i :: 0 <= i < |d| && d[i].0 == k
  {
    if d != [] {
      HasIndex(d[1..], k);
      if d[0].0 != k && (exists i :: 0 <= i < |d| && d[i].0 == k) {
        var i :| 0 <= i < |d| && d[i].0 == k;
        assert d[1..][i - 1].0 == k;
      }
    }
  }

  /** A value `get` finds is the value of an item with that key. */
  lemma {:induction false} GetFound<V>(d: seq<(string, V)>, k: string)
    requires Get(d, k).Some?
    ensures exists i :: 0 <= i < |d| && d[i] == (k, Get(d, k).value)
  {
    if d[0].0 != k {
      GetFound(d[1..], k);
      var i :| 0 <= i < |d[1..]| && d[1..][i] == (k, Get(d, k).value);
      assert d[i + 1] == d[1..][i];
    }
  }

  lemma {:induction false} GetAt<V>(d: Dict<V>, i: nat)
    requires i < |d|
    ensures Get(d, d[i].0) == Some(d[i].1)
  {
    if i > 0 {
      var tail: Dict<V> := d[1..];
      assert d[0].0 != d[i].0;
      GetAt(tail, i - 1);
    }
  }

  /** Every item's key is in the dict. */
  lemma {:induction false} KeyAt<V>(d: seq<(string, V)>, i: nat)
    requires i < |d|
    ensures Has(d, d[i].0)
  {
    if i > 0 && d[0].0 != d[i].0 {
      KeyAt(d[1..], i - 1);
    }
  }

  /** `d.get(k)` on a bag: a missing key reads as `None`. */
  function GetV(d: Bag, k: string): (r: Value) {
    match Get(d, k)
    case Some(v) => v
    case None => Null
  }

  /** `d.get(k, default)`: only a missing key gives the default. */
  function GetOr(d: Bag, k: string, default: Value): (r: Value) {
    match Get(d, k)
    case Some(v) => v
    case None => default
  }

  function IndexOf<V>(d: Dict<V>, k: string): (i: nat)
    requires Has(d, k)
    ensures i < |d| && d[i].0 == k
  {
    if d[0].0 == k then 0
    else
      var tail: Dict<V> := d[1..];
      1 + IndexOf(tail, k)
  }

  /** `d[k] = v`: an existing key keeps its position, a new key goes last. */
  function Put<V>(d: Dict<V>, k: string, v: V): (r: Dict<V>)
    ensures Get(r, k) == Some(v)
    ensures forall k' :: k' != k ==> Get(r, k') == Get(d, k')
    ensures |r| == if Has(d, k) then |d| else |d| + 1
    decreases |d|
  {
    if d == [] then [(k, v)]
    else
      var tail: Dict<V> := d[1..];
      HasIndex(tail, d[0].0);
      if d[0].0 == k then
        var r := [(k, v)] + tail;
        assert r[1..] == tail;
        forall i, j | 0 <= i < j < |r| ensures r[i].0 != r[j].0 {
          if i > 0 {
            assert r[i] == d[i] && r[j] == d[j];
          }
        }
        r
      else
        var rest := Put(tail, k, v);
        var r := [d[0]] + rest;
        assert r[1..] == rest;
        forall j | 0 <= j < |rest| ensures rest[j].0 != d[0].0 {
          KeyAt(rest, j);
        }
        forall i, j | 0 <= i < j < |r| ensures r[i].0 != r[j].0 {
          if i > 0 {
            assert r[i] == rest[i - 1] && r[j] == rest[j - 1];
          }
        }
        r
  }

  /** `d.update(e)`: `e`'s items are put in `e`'s order, so `e` wins on a shared key. */
  function Update<V>(d: Dict<V>, e: Dict<V>): (r: Dict<V>)
    ensures forall k :: Get(r, k) == if Has(e, k) then Get(e, k) else Get(d, k)
    decreases |e|
  {
    if e == [] then d
    else
      var tail: Dict<V> := e[1..];
      var r := Update(Put(d, e[0].0, e[0].1), tail);
      forall k ensures Get(r, k) == if Has(e, k) then Get(e, k) else Get(d, k) {
        if Has(tail, k) {
          var j := IndexOf(tail, k);
          assert e[j + 1] == tail[j];
        }
      }
      r
  }
}
