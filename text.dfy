/** String operations of the Python runtime that the reconciliation engine relies on:
    `startswith`, `endswith`, `in`, ASCII `lower()`, `split(sep)[-1]`, `split(sep)[0]`,
    decimal rendering of integers, `join` and the code-point order `sorted()` uses on
    strings. */
module Text {

  /** `s.startswith(prefix)` */
  predicate StartsWith(s: string, prefix: string) {
    |prefix| <= |s| && s[..|prefix|] == prefix
  }

  /** A string that starts with `long` starts with every prefix of `long`. */
  lemma PrefixOfPrefix(s: string, long: string, short: string)
    requires StartsWith(s, long) && StartsWith(long, short)
    ensures StartsWith(s, short)
  {
    assert s[..|short|] == s[..|long|][..|short|];
  }

  /** Two prefixes that differ in some position cannot both start one string. */
  lemma DiffersAt(s: string, a: string, b: string, i: nat)
    requires StartsWith(s, a) && i < |a| && i < |b| && a[i] != b[i]
    ensures !StartsWith(s, b)
  {
    assert s[..|a|][i] == a[i];
    if |b| <= |s| {
      assert s[..|b|][i] == s[i];
    }
  }

  /** A string outside the `aws_` namespace starts with no `aws_` prefix. */
  lemma NotAws(t: string, p: string)
    requires |p| >= 4 && p[0] == 'a' && p[1] == 'w' && p[2] == 's' && p[3] == '_'
    requires !StartsWith(t, "aws_")
    ensures !StartsWith(t, p)
  {
    if |p| <= |t| {
      assert t[..|p|][..4] == t[..4];
      assert p[..4] == "aws_";
    }
  }

  /** `s.endswith(suffix)` */
  predicate EndsWith(s: string, suffix: string) {
    |suffix| <= |s| && s[|s| - |suffix|..] == suffix
  }

  /** `sub in s` */
  predicate Contains(s: string, sub: string)
    decreases |s|
  {
    StartsWith(s, sub) || (|s| > 0 && Contains(s[1..], sub))
  }

  /** `sub` occurs in `s` starting at index `i`. */
  predicate OccursAt(s: string, sub: string, i: nat) {
    i + |sub| <= |s| && s[i..i + |sub|] == sub
  }

  lemma {:induction false} ContainsAt(s: string, sub: string, i: nat)
    requires OccursAt(s, sub, i)
    ensures Contains(s, sub)
    decreases i
  {
    if i == 0 {
      assert s[..|sub|] == sub;
    } else {
      assert s[1..][i - 1..i - 1 + |sub|] == s[i..i + |sub|];
      ContainsAt(s[1..], sub, i - 1);
    }
  }

  lemma {:induction false} ContainsWitness(s: string, sub: string)
    requires Contains(s, sub)
    ensures exists i: nat :: OccursAt(s, sub, i)
    decreases |s|
  {
    if StartsWith(s, sub) {
      assert s[0..|sub|] == sub;
      assert OccursAt(s, sub, 0);
    } else {
      ContainsWitness(s[1..], sub);
      var i: nat :| OccursAt(s[1..], sub, i);
      assert s[i + 1..i + 1 + |sub|] == s[1..][i..i + |sub|];
      assert OccursAt(s, sub, i + 1);
    }
  }

  function LowerChar(c: char): char {
    if 'A' <= c <= 'Z' then (c as int + 32) as char else c
  }

  /** `s.lower()` restricted to ASCII letters (the only letters whose lower case is 'a',
      'r' or 'n'). */
  function AsciiLower(s: string): (r: string)
    ensures |r| == |s|
    ensures forall i :: 0 <= i < |s| ==> r[i] == LowerChar(s[i])
  {
    seq(|s|, i requires 0 <= i < |s| => LowerChar(s[i]))
  }

  /** `s.split(c)[-1]`: the text after the last occurrence of `c`, or `s` itself. */
  function AfterLast(s: string, c: char): (r: string)
    ensures EndsWith(s, r)
    ensures c !in r
    ensures c !in s ==> r == s
    ensures |r| < |s| ==> s[|s| - |r| - 1] == c
    decreases |s|
  {
    if |s| == 0 then ""
    else if s[|s| - 1] == c then ""
    else
      var init := s[..|s| - 1];
      var r0 := AfterLast(init, c);
      var r := r0 + [s[|s| - 1]];
      assert init + [s[|s| - 1]] == s;
      assert s[|s| - |r|..] == init[|init| - |r0|..] + [s[|s| - 1]];
      assert |r0| < |init| ==> s[|s| - |r| - 1] == init[|init| - |r0| - 1];
      assert c !in s ==> c !in init && r0 == init;
      r
  }

  /** An occurrence of `c` at position `p` lies before the text `AfterLast` returns. */
  lemma AfterLastFollows(s: string, c: char, p: nat)
    requires p < |s| && s[p] == c
    ensures |AfterLast(s, c)| < |s| - p
  {
    var r := AfterLast(s, c);
    var offset := |s| - |r|;
    assert forall k :: 0 <= k < |r| ==> r[k] == s[offset + k];
  }

  /** `s.split(sep)[0]`: the text before the first occurrence of `sep`, or `s` itself. */
  function BeforeFirst(s: string, sep: string): (r: string)
    requires sep != ""
    ensures StartsWith(s, r)
    ensures !Contains(s, sep) ==> r == s
    decreases |s|
  {
    if StartsWith(s, sep) then ""
    else if s == "" then ""
    else [s[0]] + BeforeFirst(s[1..], sep)
  }

  function DigitChar(d: nat): char
    requires d < 10
  {
    "0123456789"[d]
  }

  function NatToString(n: nat): (r: string)
    ensures |r| >= 1
    ensures forall i :: 0 <= i < |r| ==> '0' <= r[i] <= '9'
  {
    if n < 10 then [DigitChar(n)] else NatToString(n / 10) + [DigitChar(n % 10)]
  }

  /** `str(i)` of a Python int. */
  function IntToString(i: int): string {
    if i < 0 then "-" + NatToString(-i) else NatToString(i)
  }

  /** `sep.join(parts)` */
  function Join(parts: seq<string>, sep: string): string {
    if parts == [] then ""
    else if |parts| == 1 then parts[0]
    else parts[0] + sep + Join(parts[1..], sep)
  }

  /** The order Python uses on `str`: lexicographic on code points. */
  predicate StrLe(a: string, b: string) {
    if a == [] then true
    else if b == [] then false
    else if a[0] != b[0] then a[0] < b[0]
    else StrLe(a[1..], b[1..])
  }

  lemma {:induction false} StrLeAntisymmetric(a: string, b: string)
    requires StrLe(a, b) && StrLe(b, a)
    ensures a == b
  {
    if a != [] && b != [] {
      StrLeAntisymmetric(a[1..], b[1..]);
      assert a == [a[0]] + a[1..] && b == [b[0]] + b[1..];
    }
  }

  lemma {:induction false} StrLeTransitive(a: string, b: string, c: string)
    requires StrLe(a, b) && StrLe(b, c)
    ensures StrLe(a, c)
  {
    if a != [] && b != [] && c != [] && a[0] == b[0] == c[0] {
      StrLeTransitive(a[1..], b[1..], c[1..]);
    }
  }

  lemma {:induction false} StrLeTotal(a: string, b: string)
    ensures StrLe(a, b) || StrLe(b, a)
  {
    if a != [] && b != [] && a[0] == b[0] {
      StrLeTotal(a[1..], b[1..]);
    }
  }

  lemma StrLeAntisymmetricAll()
    ensures forall a, b :: StrLe(a, b) && StrLe(b, a) ==> a == b
  {
    forall a, b | StrLe(a, b) && StrLe(b, a) ensures a == b {
      StrLeAntisymmetric(a, b);
    }
  }

  /** Adding a string no smaller than the least keeps the least. */
  lemma LeastKept(rest: set<string>, y: string, m: string)
    requires forall x :: x in rest ==> StrLe(m, x)
    requires StrLe(m, y)
    ensures forall x :: x in rest + {y} ==> StrLe(m, x)
  {
  }

  /** Adding a string below the least makes it the least. */
  lemma LeastReplaced(rest: set<string>, y: string, m: string)
    requires forall x :: x in rest ==> StrLe(m, x)
    requires StrLe(y, m)
    ensures forall x :: x in rest + {y} ==> StrLe(y, x)
  {
    forall x | x in rest + {y} ensures StrLe(y, x) {
      if x in rest {
        StrLeTransitive(y, m, x);
      } else {
        StrLeTotal(y, y);
      }
    }
  }

  lemma {:induction false} LeastExists(s: set<string>)
    requires s != {}
    ensures exists m :: m in s && forall x :: x in s ==> StrLe(m, x)
    decreases |s|
  {
    var y :| y in s;
    var rest := s - {y};
    assert s == rest + {y};
    if rest == {} {
      StrLeTotal(y, y);
      LeastReplaced(rest, y, y);
      assert y in s;
    } else {
      LeastExists(rest);
      var m :| m in rest && forall x :: x in rest ==> StrLe(m, x);
      StrLeTotal(m, y);
      if StrLe(m, y) {
        LeastKept(rest, y, m);
        assert m in s;
      } else {
        LeastReplaced(rest, y, m);
        assert y in s;
      }
    }
  }

  /** The least string of a non-empty set. */
  function Least(s: set<string>): (m: string)
    requires s != {}
    ensures m in s
    ensures forall x :: x in s ==> StrLe(m, x)
  {
    LeastExists(s);
    StrLeAntisymmetricAll();
    var m :| m in s && forall x :: x in s ==> StrLe(m, x);
    m
  }

  /** Strictly ascending in Python's string order, so also free of repeats. */
  predicate StrictlyAscending(s: seq<string>) {
    forall i, j :: 0 <= i < j < |s| ==> StrLe(s[i], s[j]) && s[i] != s[j]
  }

  /** `sorted(m.keys())`: every key once, in ascending order. */
  function SortedKeys<V>(m: map<string, V>): (r: seq<string>)
    ensures |r| == |m|
    ensures forall k :: k in m <==> k in r
    ensures StrictlyAscending(r)
    decreases |m|
  {
    if |m| == 0 then []
    else
      var k := Least(m.Keys);
      var rest := m - {k};
      assert rest.Keys == m.Keys - {k};
      var tail := SortedKeys(rest);
      PrependLeast(k, tail);
      [k] + tail
  }

  /** A string below every element of an ascending sequence, and none of them, can go
      in front. */
  lemma PrependLeast(k: string, tail: seq<string>)
    requires StrictlyAscending(tail)
    requires forall x :: x in tail ==> StrLe(k, x) && x != k
    ensures StrictlyAscending([k] + tail)
  {
    var s := [k] + tail;
    forall i, j | 0 <= i < j < |s| ensures StrLe(s[i], s[j]) && s[i] != s[j] {
      assert s[j] == tail[j - 1];
      if i > 0 {
        assert s[i] == tail[i - 1];
      }
    }
  }

  /** The key order is determined: any strictly ascending listing of exactly the keys of
      `m` is `SortedKeys(m)`. */
  lemma {:induction false} SortedKeysUnique<V>(m: map<string, V>, s: seq<string>)
    requires StrictlyAscending(s)
    requires forall k :: k in m <==> k in s
    ensures s == SortedKeys(m)
    decreases |m|
  {
    if s == [] {
      assert m.Keys == {};
    } else {
      assert s[0] in m;
      var k := Least(m.Keys);
      HeadIsLeast(m.Keys, s, k);
      var rest := m - {k};
      RemoveShrinks(m, k);
      TailAscending(s);
      TailKeys(m.Keys, s);
      SortedKeysUnique(rest, s[1..]);
      SortedKeysStep(m, s);
    }
  }

  lemma RemoveShrinks<V>(m: map<string, V>, k: string)
    requires k in m
    ensures (m - {k}).Keys == m.Keys - {k} && |m - {k}| < |m|
  {
    assert (m - {k}).Keys == m.Keys - {k};
  }

  /** One step of `SortedKeys`: the least key, then the sorted rest. */
  lemma SortedKeysStep<V>(m: map<string, V>, s: seq<string>)
    requires |m| > 0 && s != [] && s[0] == Least(m.Keys) && s[1..] == SortedKeys(m - {s[0]})
    ensures SortedKeys(m) == s
  {
    assert s == [s[0]] + s[1..];
  }

  /** The head of an ascending listing of a set is its least element. */
  lemma HeadIsLeast(keys: set<string>, s: seq<string>, k: string)
    requires s != [] && StrictlyAscending(s)
    requires forall x :: x in keys <==> x in s
    requires k in keys && forall x :: x in keys ==> StrLe(k, x)
    ensures s[0] == k
  {
    var j :| 0 <= j < |s| && s[j] == k;
    if j > 0 {
      assert StrLe(s[0], s[j]);
    }
    assert s[0] in keys;
    StrLeAntisymmetric(s[0], k);
  }

  lemma TailAscending(s: seq<string>)
    requires s != [] && StrictlyAscending(s)
    ensures StrictlyAscending(s[1..])
  {
    var tail := s[1..];
    forall i, j | 0 <= i < j < |tail| ensures StrLe(tail[i], tail[j]) && tail[i] != tail[j] {
      assert tail[i] == s[i + 1] && tail[j] == s[j + 1];
    }
  }

  /** Dropping the head of a repeat-free listing drops exactly that element. */
  lemma TailKeys(keys: set<string>, s: seq<string>)
    requires s != [] && StrictlyAscending(s)
    requires forall x :: x in keys <==> x in s
    ensures forall x :: x in keys - {s[0]} <==> x in s[1..]
  {
    var tail := s[1..];
    forall x ensures x in keys - {s[0]} <==> x in tail {
      if x in tail {
        var j :| 0 <= j < |tail| && tail[j] == x;
        assert s[j + 1] == x;
      }
      if x in keys - {s[0]} {
        var j :| 0 <= j < |s| && s[j] == x;
        assert j != 0 && tail[j - 1] == x;
      }
    }
  }
}
