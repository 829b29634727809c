/** src/config/index.js: the configuration record read from the process
    environment, each entry `value || default`, the numeric ones through
    `parseInt(value, 10)`. */
module Config {
  import opened Wrappers
  import opened Text

  datatype RateLimit = RateLimit(windowMs: int, max: int)

  datatype Config = Config(env: string, port: int, mongodbUri: string, rateLimit: RateLimit, logLevel: string)

  /** The characters `parseInt` skips before the number: ECMAScript's
      white space and line terminators. */
  predicate IsJsWhitespace(c: char) {
    c == '\t' || c == '\n' || c == '\U{000B}' || c == '\U{000C}' || c == '\r' || c == ' '
    || c == '\U{00A0}' || c == '\U{1680}' || ('\U{2000}' <= c <= '\U{200A}')
    || c == '\U{2028}' || c == '\U{2029}' || c == '\U{202F}' || c == '\U{205F}' || c == '\U{3000}' || c == '\U{FEFF}'
  }

  function TrimStart(s: string): (r: string)
    ensures |r| <= |s|
    ensures |r| > 0 ==> !IsJsWhitespace(r[0])
  {
    if |s| > 0 && IsJsWhitespace(s[0]) then TrimStart(s[1..]) else s
  }

  /** The longest prefix of decimal digits. */
  function LeadingDigits(s: string): (d: string)
    ensures AllDigits(d)
    ensures |d| < |s| ==> !IsDigit(s[|d|])
  {
    if |s| > 0 && IsDigit(s[0]) then [s[0]] + LeadingDigits(s[1..]) else ""
  }

  /** The value of a string of decimal digits, most significant first. */
  function DigitsValue(d: string): nat
    requires AllDigits(d)
  {
    if |d| == 0 then 0 else 10 * DigitsValue(d[..|d| - 1]) + (d[|d| - 1] as int - '0' as int)
  }

  /** The value of the leading digits, None when there are none. */
  function ParseDigits(u: string): (r: Option<nat>)
    ensures r.None? <==> |u| == 0 || !IsDigit(u[0])
  {
    var digits := LeadingDigits(u);
    if digits == "" then None else Some(DigitsValue(digits))
  }

  /** An optional sign, then the digits. */
  function ParseSigned(t: string): Option<int> {
    if |t| > 0 && t[0] == '-' then
      match ParseDigits(t[1..])
      case None => None
      case Some(v) => Some(0 - v)
    else if |t| > 0 && t[0] == '+' then
      match ParseDigits(t[1..])
      case None => None
      case Some(v) => Some(v)
    else
      match ParseDigits(t)
      case None => None
      case Some(v) => Some(v)
  }

  /** `parseInt(s, 10)`, None for NaN (which `undefined` gives too). */
  function ParseInt(s: Option<string>): Option<int> {
    if s.None? then None else ParseSigned(TrimStart(s.value))
  }

  /** `parseInt(s, 10) || fallback`: NaN and zero (also `-0`) give the fallback. */
  function ParseIntOr(s: Option<string>, fallback: int): (n: int)
    ensures ParseInt(s).Some? && ParseInt(s).value != 0 ==> n == ParseInt(s).value
    ensures ParseInt(s).None? || ParseInt(s) == Some(0) ==> n == fallback
  {
    var p := ParseInt(s);
    if p.Some? && p.value != 0 then p.value else fallback
  }

  /** `value || fallback` over an environment variable. */
  function StringOr(env: map<string, string>, name: string, fallback: string): (v: string)
    ensures name in env && env[name] != "" ==> v == env[name]
    ensures name !in env || env[name] == "" ==> v == fallback
  {
    if name in env && env[name] != "" then env[name] else fallback
  }

  function Lookup(env: map<string, string>, name: string): Option<string> {
    if name in env then Some(env[name]) else None
  }

  /** The exported configuration for the environment `env`. */
  function LoadConfig(env: map<string, string>): Config {
    Config(
      StringOr(env, "NODE_ENV", "development"),
      ParseIntOr(Lookup(env, "PORT"), 3000),
      StringOr(env, "MONGODB_URI", "mongodb://localhost:27017/node-express-starter"),
      RateLimit(ParseIntOr(Lookup(env, "RATE_LIMIT_WINDOW_MS"), 15 * 60 * 1000),
                ParseIntOr(Lookup(env, "RATE_LIMIT_MAX"), 100)),
      StringOr(env, "LOG_LEVEL", "info"))
  }

  /** The digits of `n` read back as `n`. */
  lemma {:induction false} DecimalRoundTrip(n: nat)
    ensures DigitsValue(NatToDecimal(n)) == n
  {
    var d := NatToDecimal(n);
    if n >= 10 {
      DecimalRoundTrip(n / 10);
      assert d[..|d| - 1] == NatToDecimal(n / 10);
      assert d[|d| - 1] == DigitChar(n % 10);
    }
    assert d[|d| - 1] as int - '0' as int == n % 10;
  }

  /** A decimal prefix stops where the digits stop. */
  lemma {:induction false} LeadingDigitsOfConcat(d: string, rest: string)
    requires AllDigits(d)
    requires |rest| > 0 ==> !IsDigit(rest[0])
    ensures LeadingDigits(d + rest) == d
    decreases |d|
  {
    var s := d + rest;
    if |d| > 0 {
      assert s[0] == d[0] && IsDigit(d[0]);
      assert s[1..] == d[1..] + rest;
      assert AllDigits(d[1..]) by {
        forall i | 0 <= i < |d[1..]| ensures IsDigit(d[1..][i]) { assert d[1..][i] == d[i + 1]; }
      }
      LeadingDigitsOfConcat(d[1..], rest);
      assert LeadingDigits(s) == [d[0]] + d[1..];
    } else {
      assert s == rest;
    }
  }

  /** `parseInt` reads back any integer written in decimal, whatever
      non-digit text follows it ("3000", "-8", "8080abc"). */
  lemma ParseIntOfDecimal(n: int, rest: string)
    requires |rest| > 0 ==> !IsDigit(rest[0])
    ensures ParseInt(Some(IntToDecimal(n) + rest)) == Some(n)
  {
    if n < 0 {
      MinusDecimalParses(n, rest);
    } else {
      DecimalParses(n, rest);
    }
  }

  /** The text of a negative `n` reads back as `n`. */
  lemma MinusDecimalParses(n: int, rest: string)
    requires n < 0
    requires |rest| > 0 ==> !IsDigit(rest[0])
    ensures ParseInt(Some(IntToDecimal(n) + rest)) == Some(n)
  {
    var d := NatToDecimal(-n);
    var u := d + rest;
    assert IntToDecimal(n) + rest == "-" + u;
    DecimalRoundTrip(-n);
    DigitsParse(d, rest);
    NegativeDigits(u, -n);
  }

  /** The text of a non-negative `n` reads back as `n`. */
  lemma DecimalParses(n: int, rest: string)
    requires n >= 0
    requires |rest| > 0 ==> !IsDigit(rest[0])
    ensures ParseInt(Some(IntToDecimal(n) + rest)) == Some(n)
  {
    var d := NatToDecimal(n);
    assert IntToDecimal(n) == d;
    DecimalRoundTrip(n);
    DigitsParse(d, rest);
    PlainDigits(d + rest, n);
  }

  /** A minus sign before text whose leading digits read `v`: `-v`. */
  lemma NegativeDigits(u: string, v: nat)
    requires ParseDigits(u) == Some(v)
    ensures ParseInt(Some("-" + u)) == Some(0 - v)
  {
    assert ("-" + u)[1..] == u;
    ParseIntSkipsNothing("-" + u);
  }

  /** Text whose leading digits read `v`: `v`. */
  lemma PlainDigits(u: string, v: nat)
    requires ParseDigits(u) == Some(v)
    ensures ParseInt(Some(u)) == Some(v)
  {
    ParseIntSkipsNothing(u);
  }

  /** Text that does not start with white space is parsed as it is. */
  lemma ParseIntSkipsNothing(t: string)
    requires |t| > 0 && (t[0] == '-' || IsDigit(t[0]))
    ensures ParseInt(Some(t)) == ParseSigned(t)
  {
    assert !IsJsWhitespace(t[0]);
  }

  /** Digits followed by a non-digit parse to their value. */
  lemma DigitsParse(digits: string, rest: string)
    requires |digits| > 0 && AllDigits(digits)
    requires |rest| > 0 ==> !IsDigit(rest[0])
    ensures ParseDigits(digits + rest) == Some(DigitsValue(digits))
  {
    LeadingDigitsOfConcat(digits, rest);
  }

  /** With no variables set, every entry takes its default. */
  lemma Defaults()
    ensures LoadConfig(map[]) ==
      Config("development", 3000, "mongodb://localhost:27017/node-express-starter", RateLimit(900000, 100), "info")
  {
  }

  /** `PORT` gives the port when it parses to a non-zero integer,
      negatives included, and 3000 when unset, not numeric, or zero. */
  lemma PortRule(env: map<string, string>, n: int, rest: string)
    requires |rest| > 0 ==> !IsDigit(rest[0])
    ensures "PORT" in env && env["PORT"] == IntToDecimal(n) + rest ==>
      LoadConfig(env).port == (if n == 0 then 3000 else n)
    ensures "PORT" !in env ==> LoadConfig(env).port == 3000
    ensures "PORT" in env && LeadingDigits(env["PORT"]) == "" && TrimStart(env["PORT"]) == env["PORT"]
              && (|env["PORT"]| == 0 || (env["PORT"][0] != '-' && env["PORT"][0] != '+')) ==>
      LoadConfig(env).port == 3000
  {
    if "PORT" in env && env["PORT"] == IntToDecimal(n) + rest {
      ParseIntOfDecimal(n, rest);
    }
  }

  /** A non-empty `NODE_ENV` is used as it is; otherwise 'development'. */
  lemma EnvRule(env: map<string, string>)
    ensures LoadConfig(env).env == "development" <==> "NODE_ENV" !in env || env["NODE_ENV"] in {"", "development"}
  {
  }
}
