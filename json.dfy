/** JSON text as the engine's policy comparisons see it. Decoding (`json.loads`) is not
    modelled here: it is a parameter of every operation that decodes, returning `None` where
    Python raises `JSONDecodeError`. Encoding with `sort_keys=True` is written out, since
    its output is what the drift records carry. */
module Json {
  import opened Text
  import opened Python

  /** `json.loads` on a string; `None` stands for `JSONDecodeError`. */
  type Loads = string -> Option<Value>

  /** The `separators` argument of `json.dumps`. */
  datatype Separators = Separators(item: string, key: string)

  /** `json.dumps`'s default separators. */
  const DefaultSeparators := Separators(", ", ": ")

  /** `separators=(",", ":")` */
  const CompactSeparators := Separators(",", ":")

  function HexDigit(d: nat): char
    requires d < 16
  {
    "0123456789abcdef"[d]
  }

  /** Four lower-case hex digits, as in Python's `\uXXXX` escapes. */
  function Hex4(n: nat): (r: string)
    requires n < 0x10000
    ensures |r| == 4
  {
    [HexDigit(n / 0x1000), HexDigit(n / 0x100 % 16), HexDigit(n / 0x10 % 16), HexDigit(n % 16)]
  }

  /** One character of a JSON string literal with `ensure_ascii=True`: printable ASCII
      stays, the short escapes are used where JSON has them, anything else is `\uXXXX`
      (a UTF-16 surrogate pair above U+FFFF). */
  function EscapeChar(c: char): string {
    if c == '"' then "\\\""
    else if c == '\\' then "\\\\"
    else if c == '\n' then "\\n"
    else if c == '\r' then "\\r"
    else if c == '\t' then "\\t"
    else if c == '\U{8}' then "\\b"
    else if c == '\U{C}' then "\\f"
    else if ' ' <= c <= '~' then [c]
    else if (c as int) < 0x10000 then "\\u" + Hex4(c as int)
    else
      var n := c as int - 0x10000;
      "\\u" + Hex4(0xD800 + n / 0x400) + "\\u" + Hex4(0xDC00 + n % 0x400)
  }

  function Quote(s: string): (r: string)
    ensures |r| >= 2 && r[0] == '"' && r[|r| - 1] == '"'
  {
    "\"" + EscapeAll(s) + "\""
  }

  function EscapeAll(s: string): string {
    if s == "" then "" else EscapeChar(s[0]) + EscapeAll(s[1..])
  }

  /** `float.__repr__` text as `json.dumps` writes it: infinities and NaN get JavaScript's
      names. */
  function FloatText(repr: string): string {
    if repr == "inf" then "Infinity"
    else if repr == "-inf" then "-Infinity"
    else if repr == "nan" then "NaN"
    else repr
  }

  /** `json.dumps(v, sort_keys=True, separators=sep)` */
  function Dumps(v: Value, sep: Separators): (r: string)
    ensures v == Null ==> r == "null"
    ensures v.Str? ==> r == Quote(v.s)
    decreases v
  {
    match v
    case Null => "null"
    case Bool(b) => if b then "true" else "false"
    case Int(i) => IntToString(i)
    case Float(repr) => FloatText(repr)
    case Str(s) => Quote(s)
    case List(items) =>
      "[" + Join(seq(|items|, k requires 0 <= k < |items| => Dumps(items[k], sep)), sep.item) + "]"
    case Map(entries) =>
      var keys := SortedKeys(entries);
      "{" + Join(seq(|keys|, k requires 0 <= k < |keys| =>
                   Quote(keys[k]) + sep.key + Dumps(entries[keys[k]], sep)), sep.item) + "}"
  }

  /** `sort_keys=True`: a dict is written member by member in ascending key order, each
      key once. Any strictly ascending listing of exactly its keys gives its text. */
  lemma DumpsWritesKeysAscending(entries: map<string, Value>, sep: Separators, keys: seq<string>)
    requires StrictlyAscending(keys)
    requires forall k :: k in entries <==> k in keys
    ensures Dumps(Map(entries), sep) ==
      "{" + Join(seq(|keys|, i requires 0 <= i < |keys| => Quote(keys[i]) + sep.key + Dumps(entries[keys[i]], sep)), sep.item) + "}"
  {
    SortedKeysUnique(entries, keys);
  }
}
