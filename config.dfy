/** `load_config`: the detector's settings read from the process environment, with the
    state path required and checked, and defaults for the rest. */
module Configuration {
  import opened Text
  import opened Python

  /** The settings record. */
  datatype Config = Config(
    s3StatePath: string, awsRegion: Option<string>, logLevel: string, maxRetries: int, timeoutSeconds: int)

  /** The process environment. */
  type Environment = map<string, string>

  /** `os.environ.get(name)` */
  function Lookup(env: Environment, name: string): Option<string> {
    if name in env then Some(env[name]) else None
  }

  /** `os.environ.get(name, default)` */
  function LookupOr(env: Environment, name: string, default: string): string {
    if name in env then env[name] else default
  }

  // ---------------------------------------------------------------------------------
  // `int(s)` on a decimal string

  /** The ASCII characters `str.isspace` accepts, which `int()` strips from both ends. */
  predicate IsSpace(c: char) {
    c == ' ' || c == '\t' || c == '\n' || c == '\r' || c == '\U{0B}' || c == '\U{0C}' ||
    c == '\U{1C}' || c == '\U{1D}' || c == '\U{1E}' || c == '\U{1F}'
  }

  predicate IsDigit(c: char) {
    '0' <= c <= '9'
  }

  /** `s` without its leading whitespace. */
  function StripLeft(s: string): (r: string)
    ensures |r| <= |s| && EndsWith(s, r)
    ensures r != [] ==> !IsSpace(r[0])
    ensures (s == [] || !IsSpace(s[0])) ==> r == s
  {
    if s != [] && IsSpace(s[0]) then
      var r := StripLeft(s[1..]);
      assert s[|s| - |r|..] == s[1..][|s[1..]| - |r|..];
      r
    else s
  }

  /** `s` without its trailing whitespace. */
  function StripRight(s: string): (r: string)
    ensures |r| <= |s| && StartsWith(s, r)
    ensures r != [] ==> !IsSpace(r[|r| - 1])
    ensures (s == [] || !IsSpace(s[|s| - 1])) ==> r == s
  {
    if s != [] && IsSpace(s[|s| - 1]) then
      var r := StripRight(s[..|s| - 1]);
      assert s[..|r|] == s[..|s| - 1][..|r|];
      r
    else s
  }

  /** `s.strip()` restricted to ASCII whitespace. */
  function Strip(s: string): string {
    StripRight(StripLeft(s))
  }

  /** The digit part of an integer literal: ASCII digits, with single underscores allowed
      between two digits. */
  predicate DecimalDigits(s: string) {
    && s != []
    && IsDigit(s[0]) && IsDigit(s[|s| - 1])
    && (forall i :: 0 <= i < |s| ==> IsDigit(s[i]) || s[i] == '_')
    && (forall i, j :: 0 <= i < |s| && 0 <= j < |s| && j == i + 1 ==> !(s[i] == '_' && s[j] == '_'))
  }

  /** The value of a digit string, underscores ignored. */
  function DigitsValue(s: string): nat {
    if s == [] then 0
    else
      var c := s[|s| - 1];
      if IsDigit(c) then 10 * DigitsValue(s[..|s| - 1]) + (c as int - '0' as int)
      else DigitsValue(s[..|s| - 1])
  }

  /** The first `n` characters of `s`, as the `%.200R` of the message keeps. */
  function Truncated(s: string, n: nat): (r: string)
    ensures |r| <= n && StartsWith(s, r)
    ensures |s| <= n ==> r == s
  {
    if |s| <= n then s else s[..n]
  }

  /** The ValueError of `int()`: the literal's `repr()`, cut to 200 characters. */
  function InvalidLiteral(s: string): PyError {
    ValueError("invalid literal for int() with base 10: " + Truncated(StrRepr(s), 200))
  }

  /** For a short literal of plain characters without a single quote, the message quotes
      it as it is. */
  lemma InvalidLiteralQuotesPlainText(s: string)
    requires |s| <= 198 && '\'' !in s
    requires forall i :: 0 <= i < |s| ==> PlainChar(s[i])
    ensures InvalidLiteral(s).message == "invalid literal for int() with base 10: '" + s + "'"
  {
    PlainStrRepr(s);
  }

  /** `int(s)` on the ASCII decimal forms: optional surrounding whitespace, an optional
      sign, then digits with single underscores between them. */
  function ParseInt(s: string): (r: Result<int>)
    ensures r.Err? ==> r.error == InvalidLiteral(s)
  {
    match StrippedValue(Strip(s))
    case Some(v) => Ok(v)
    case None => Err(InvalidLiteral(s))
  }

  /** The value of a stripped literal: an optional sign, then digits with single
      underscores between them; `None` for anything else. */
  function StrippedValue(t: string): Option<int> {
    if t != [] && (t[0] == '-' || t[0] == '+') then
      if DecimalDigits(t[1..]) then
        var magnitude: int := DigitsValue(t[1..]);
        Some(if t[0] == '-' then -magnitude else magnitude)
      else None
    else if DecimalDigits(t) then Some(DigitsValue(t))
    else None
  }

  lemma {:induction false} DigitsValueOfNat(n: nat)
    ensures DigitsValue(NatToString(n)) == n
  {
    var s := NatToString(n);
    if n >= 10 {
      DigitsValueOfNat(n / 10);
      assert s[..|s| - 1] == NatToString(n / 10);
    }
  }

  /** A string that neither starts nor ends with whitespace is its own `strip()`. */
  lemma StripUnchanged(s: string)
    requires s != [] && !IsSpace(s[0]) && !IsSpace(s[|s| - 1])
    ensures Strip(s) == s
  {
    assert StripLeft(s) == s;
  }

  /** A digit string parses to its value. */
  lemma ParseDigits(s: string)
    requires DecimalDigits(s)
    ensures ParseInt(s) == Ok(DigitsValue(s))
  {
    StripUnchanged(s);
  }

  /** A digit string after a minus sign parses to the negated value. */
  lemma ParseNegativeDigits(s: string, v: nat)
    requires DecimalDigits(s) && DigitsValue(s) == v
    ensures ParseInt("-" + s) == Ok(-(v as int))
  {
    var t := "-" + s;
    assert t[|t| - 1] == s[|s| - 1];
    StripUnchanged(t);
    assert t[1..] == s;
  }

  /** A non-empty run of ASCII digits, such as `str()` gives a natural number. */
  predicate AllDigits(s: string) {
    s != [] && forall i :: 0 <= i < |s| ==> '0' <= s[i] <= '9'
  }

  lemma AllDigitsDecimal(s: string)
    requires AllDigits(s)
    ensures DecimalDigits(s)
  {
  }

  /** A run of digits with value `v` parses to `v`. */
  lemma ParseAllDigits(s: string, v: nat)
    requires AllDigits(s) && DigitsValue(s) == v
    ensures ParseInt(s) == Ok(v)
  {
    AllDigitsDecimal(s);
    ParseDigits(s);
  }

  /** A minus sign and a run of digits with value `v` parse to `-v`. */
  lemma ParseNegativeAllDigits(s: string, v: nat)
    requires AllDigits(s) && DigitsValue(s) == v
    ensures ParseInt("-" + s) == Ok(-(v as int))
  {
    AllDigitsDecimal(s);
    ParseNegativeDigits(s, v);
  }

  /** `int(str(i)) == i`: the text `str()` gives an integer parses back to it. */
  lemma ParseIntOfString(i: int)
    ensures ParseInt(IntToString(i)) == Ok(i)
  {
    if i < 0 {
      var n: nat := -i;
      assert IntToString(i) == "-" + NatToString(n);
      DigitsValueOfNat(n);
      ParseNegativeAllDigits(NatToString(n), n);
    } else {
      assert IntToString(i) == NatToString(i);
      DigitsValueOfNat(i);
      ParseAllDigits(NatToString(i), i);
    }
  }

  /** A string whose `strip()` is a digit string parses to the value of those digits. */
  lemma ParseStrippedDigits(s: string, t: string, v: nat)
    requires Strip(s) == t && DecimalDigits(t) && DigitsValue(t) == v
    ensures ParseInt(s) == Ok(v)
  {
  }

  /** Leading whitespace is dropped up to the first other character. */
  lemma {:induction false} StripLeftSpaces(p: string, t: string)
    requires forall i :: 0 <= i < |p| ==> IsSpace(p[i])
    requires t == [] || !IsSpace(t[0])
    ensures StripLeft(p + t) == t
  {
    if p == [] {
      assert p + t == t;
    } else {
      assert (p + t)[0] == p[0];
      assert (p + t)[1..] == p[1..] + t;
      StripLeftSpaces(p[1..], t);
    }
  }

  /** Trailing whitespace is dropped back to the last other character. */
  lemma {:induction false} StripRightSpaces(t: string, q: string)
    requires forall i :: 0 <= i < |q| ==> IsSpace(q[i])
    requires t == [] || !IsSpace(t[|t| - 1])
    ensures StripRight(t + q) == t
  {
    if q == [] {
      assert t + q == t;
    } else {
      assert (t + q)[|t + q| - 1] == q[|q| - 1];
      assert (t + q)[..|t + q| - 1] == t + q[..|q| - 1];
      StripRightSpaces(t, q[..|q| - 1]);
    }
  }

  /** Whitespace around a literal never changes what `int()` makes of it: the same value,
      and a refused literal stays refused. */
  lemma ParseIntStripsWhitespace(p: string, t: string, q: string)
    requires forall i :: 0 <= i < |p| ==> IsSpace(p[i])
    requires forall i :: 0 <= i < |q| ==> IsSpace(q[i])
    requires t != [] && !IsSpace(t[0]) && !IsSpace(t[|t| - 1])
    ensures Strip(p + t + q) == t
    ensures ParseInt(p + t + q).Ok? <==> ParseInt(t).Ok?
    ensures ParseInt(t).Ok? ==> ParseInt(p + t + q) == ParseInt(t)
  {
    assert p + t + q == p + (t + q);
    assert (t + q)[0] == t[0];
    StripLeftSpaces(p, t + q);
    StripRightSpaces(t, q);
    StripUnchanged(t);
    ParseIntBySameStrip(p + t + q, t);
  }

  /** `int()` reads only the stripped text, save for the text its message quotes. */
  lemma ParseIntBySameStrip(a: string, b: string)
    requires Strip(a) == Strip(b)
    ensures ParseInt(a).Ok? <==> ParseInt(b).Ok?
    ensures ParseInt(a).Ok? ==> ParseInt(a) == ParseInt(b)
  {
  }

  /** The digits of `s`, its underscores removed. */
  function WithoutUnderscores(s: string): (r: string)
    ensures |r| <= |s|
  {
    if s == [] then []
    else if s[|s| - 1] == '_' then WithoutUnderscores(s[..|s| - 1])
    else WithoutUnderscores(s[..|s| - 1]) + [s[|s| - 1]]
  }

  /** Removing the underscores from digits and underscores leaves digits of the same
      value. */
  lemma {:induction false} UnderscoresIgnored(s: string)
    requires forall i :: 0 <= i < |s| ==> IsDigit(s[i]) || s[i] == '_'
    ensures DigitsValue(WithoutUnderscores(s)) == DigitsValue(s)
    ensures forall i :: 0 <= i < |WithoutUnderscores(s)| ==> IsDigit(WithoutUnderscores(s)[i])
  {
    if s != [] {
      var init := s[..|s| - 1];
      assert forall i :: 0 <= i < |init| ==> init[i] == s[i];
      UnderscoresIgnored(init);
      if s[|s| - 1] != '_' {
        var r := WithoutUnderscores(s);
        assert r[..|r| - 1] == WithoutUnderscores(init);
      }
    }
  }

  /** Single underscores between digits are accepted and ignored: a literal parses to the
      value of its digits alone, the same as the literal without its underscores. */
  lemma ParseIntSkipsUnderscores(s: string)
    requires DecimalDigits(s)
    ensures AllDigits(WithoutUnderscores(s))
    ensures ParseInt(s) == Ok(DigitsValue(WithoutUnderscores(s)))
    ensures ParseInt(s) == ParseInt(WithoutUnderscores(s))
  {
    UnderscoresIgnored(s);
    ParseDigits(s);
    ParseAllDigits(WithoutUnderscores(s), DigitsValue(s));
  }

  /** Text made only of whitespace, the empty text included, is refused. */
  lemma ParseIntRefusesBlank(s: string)
    requires forall i :: 0 <= i < |s| ==> IsSpace(s[i])
    ensures ParseInt(s) == Err(InvalidLiteral(s))
  {
    StripLeftSpaces(s, []);
    assert s + [] == s;
  }

  // ---------------------------------------------------------------------------------
  // `load_config`

  const StatePathVariable := "STATE_FILE_S3_PATH"
  const MissingPathMessage := StatePathVariable + " environment variable is required"
  const ValidPathPhrase := "must be a valid S3 path"
  const InvalidPathMessage := StatePathVariable + " " + ValidPathPhrase + " starting with s3://"

  /** The settings, or the ValueError `load_config` raises: a missing or empty state path,
      a state path outside `s3://`, or a retry or timeout setting that is not an integer. */
  function LoadConfig(env: Environment): (r: Result<Config>)
    ensures r.Ok? <==>
      && StatePathVariable in env && StartsWith(env[StatePathVariable], "s3://")
      && ParseInt(LookupOr(env, "MAX_RETRIES", "3")).Ok?
      && ParseInt(LookupOr(env, "TIMEOUT_SECONDS", "30")).Ok?
    ensures r.Ok? ==>
      && r.value.s3StatePath == env[StatePathVariable]
      && r.value.awsRegion == Lookup(env, "AWS_REGION")
      && r.value.logLevel == LookupOr(env, "LOG_LEVEL", "INFO")
      && r.value.maxRetries == ParseInt(LookupOr(env, "MAX_RETRIES", "3")).value
      && r.value.timeoutSeconds == ParseInt(LookupOr(env, "TIMEOUT_SECONDS", "30")).value
    ensures r.Err? ==> r.error.ValueError?
  {
    match Lookup(env, StatePathVariable)
    case None => Err(ValueError(MissingPathMessage))
    case Some(path) =>
      if path == "" then Err(ValueError(MissingPathMessage))
      else if !StartsWith(path, "s3://") then Err(ValueError(InvalidPathMessage))
      else
        match ParseInt(LookupOr(env, "MAX_RETRIES", "3"))
        case Err(e) => Err(e)
        case Ok(maxRetries) =>
          match ParseInt(LookupOr(env, "TIMEOUT_SECONDS", "30"))
          case Err(e) => Err(e)
          case Ok(timeoutSeconds) =>
            Ok(Config(path, Lookup(env, "AWS_REGION"), LookupOr(env, "LOG_LEVEL", "INFO"), maxRetries, timeoutSeconds))
  }

  /** A missing or empty state path is refused with a message naming the variable. */
  lemma MissingPathRefused(env: Environment)
    requires StatePathVariable !in env || env[StatePathVariable] == ""
    ensures LoadConfig(env) == Err(ValueError(MissingPathMessage))
    ensures OccursAt(LoadConfig(env).error.message, StatePathVariable, 0)
  {
    assert MissingPathMessage[..|StatePathVariable|] == StatePathVariable;
  }

  /** A non-empty state path outside `s3://` is refused with a message saying so. */
  lemma NonS3PathRefused(env: Environment)
    requires StatePathVariable in env && env[StatePathVariable] != ""
    requires !StartsWith(env[StatePathVariable], "s3://")
    ensures LoadConfig(env) == Err(ValueError(InvalidPathMessage))
    ensures OccursAt(LoadConfig(env).error.message, ValidPathPhrase, |StatePathVariable| + 1)
  {
    var n := |StatePathVariable| + 1;
    assert InvalidPathMessage[n..n + |ValidPathPhrase|] == ValidPathPhrase;
  }

  /** With only a valid state path set, every other setting takes its default. */
  lemma DefaultsApply(path: string)
    requires StartsWith(path, "s3://")
    ensures LoadConfig(map[StatePathVariable := path]) == Ok(Config(path, None, "INFO", 3, 30))
  {
    var env := map[StatePathVariable := path];
    assert "MAX_RETRIES" !in env && "TIMEOUT_SECONDS" !in env && "AWS_REGION" !in env && "LOG_LEVEL" !in env;
    assert DecimalDigits("3") && DigitsValue("3") == 3 by {
      assert "3"[..0] == "";
    }
    assert DecimalDigits("30") && DigitsValue("30") == 30 by {
      assert "30"[..1] == "3" && "30"[..1][..0] == "";
    }
    ParseDigits("3");
    ParseDigits("30");
  }

  /** Supplied settings override the defaults, the retry and timeout settings read as the
      integers they spell. */
  lemma SuppliedValuesOverride(env: Environment, retries: int, timeout: int)
    requires StatePathVariable in env && StartsWith(env[StatePathVariable], "s3://")
    requires "MAX_RETRIES" in env && env["MAX_RETRIES"] == IntToString(retries)
    requires "TIMEOUT_SECONDS" in env && env["TIMEOUT_SECONDS"] == IntToString(timeout)
    ensures LoadConfig(env) == Ok(Config(env[StatePathVariable], Lookup(env, "AWS_REGION"),
                                         LookupOr(env, "LOG_LEVEL", "INFO"), retries, timeout))
  {
    ParseIntOfString(retries);
    ParseIntOfString(timeout);
  }

  /** A retry setting that is not an integer literal makes loading fail with `int()`'s
      error. */
  lemma BadRetriesRefused(env: Environment)
    requires StatePathVariable in env && StartsWith(env[StatePathVariable], "s3://")
    requires "MAX_RETRIES" in env && ParseInt(env["MAX_RETRIES"]).Err?
    ensures LoadConfig(env) == Err(InvalidLiteral(env["MAX_RETRIES"]))
  {
  }
}
