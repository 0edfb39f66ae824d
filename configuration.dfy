/**
 * The connector SDK's configuration lookups, over a plain map from key to
 * value (a key that is not in the map is not configured).
 */
module Configuration {
  import opened Failures
  import opened JavaLang

  type Properties = map<string, string>

  /** The message of the error a required key that is missing produces. */
  function MissingKeyMessage(key: string): string {
    "Missing configuration value for key " + key
  }

  /** getString(key, null).get(): the key must be configured. */
  function GetRequiredString(cfg: Properties, key: string): (r: Result<string>)
    ensures key in cfg <==> r.Ok?
    ensures r.Ok? ==> r.value == cfg[key]
    ensures r.Err? ==> r.error.InvalidConfigurationException? && Contains(r.error.message, key)
  {
    if key in cfg then Ok(cfg[key])
    else
      ContainsSuffix("Missing configuration value for key ", key);
      Err(InvalidConfigurationException(MissingKeyMessage(key)))
  }

  /** getString(key, default).get(). */
  function GetString(cfg: Properties, key: string, default: string): (r: string)
    ensures key in cfg ==> r == cfg[key]
    ensures key !in cfg ==> r == default
  {
    if key in cfg then cfg[key] else default
  }

  function LowerAscii(c: char): char {
    if 'A' <= c <= 'Z' then (c as int + 32) as char else c
  }

  /** Equality of two strings ignoring the case of ASCII letters (String.equalsIgnoreCase on ASCII). */
  predicate EqualsIgnoreCase(s: string, t: string) {
    |s| == |t| && forall i :: 0 <= i < |s| ==> LowerAscii(s[i]) == LowerAscii(t[i])
  }

  /** The SDK's boolean parser: "true" or "false" in any case, anything else is an error. */
  function ParseBoolean(value: string): (r: Result<bool>)
    ensures r.Ok? <==> EqualsIgnoreCase(value, "true") || EqualsIgnoreCase(value, "false")
    ensures r.Ok? ==> (r.value <==> EqualsIgnoreCase(value, "true"))
  {
    if EqualsIgnoreCase(value, "true") then Ok(true)
    else if EqualsIgnoreCase(value, "false") then Ok(false)
    else Err(InvalidConfigurationException("Invalid boolean value " + value))
  }

  /** getBoolean(key, default).get(). */
  function GetBoolean(cfg: Properties, key: string, default: bool): (r: Result<bool>)
    ensures key !in cfg ==> r == Ok(default)
    ensures key in cfg ==> (r.Ok? <==> EqualsIgnoreCase(cfg[key], "true") || EqualsIgnoreCase(cfg[key], "false"))
    ensures key in cfg && r.Ok? ==> (r.value <==> EqualsIgnoreCase(cfg[key], "true"))
  {
    if key in cfg then ParseBoolean(cfg[key]) else Ok(default)
  }

  predicate AllDigits(s: string) { forall i :: 0 <= i < |s| ==> IsDigit(s[i]) }

  /** The value of a string of decimal digits, most significant first. */
  function DigitsValue(s: string): nat
    requires AllDigits(s)
  {
    if s == [] then 0 else DigitsValue(s[..|s| - 1]) * 10 + (s[|s| - 1] as int - '0' as int)
  }

  /**
   * Integer.parseInt: an optional sign, at least one decimal digit, and a
   * value that fits in 32 bits; anything else is a number format error,
   * which the SDK reports as an invalid configuration.
   */
  function ParseInt(s: string): (r: Result<int>)
    ensures r.Ok? ==> INT_MIN <= r.value <= INT_MAX
  {
    var negative := |s| > 0 && s[0] == '-';
    var digits := if |s| > 0 && (s[0] == '-' || s[0] == '+') then s[1..] else s;
    if |digits| == 0 || !AllDigits(digits) then
      Err(InvalidConfigurationException("Invalid integer value " + s))
    else
      var v := if negative then -(DigitsValue(digits) as int) else DigitsValue(digits);
      if v < INT_MIN || v > INT_MAX then Err(InvalidConfigurationException("Invalid integer value " + s))
      else Ok(v)
  }

  /** getInteger(key, default).get(). */
  function GetInteger(cfg: Properties, key: string, default: int): (r: Result<int>)
    ensures key !in cfg ==> r == Ok(default)
    ensures key in cfg ==> r == ParseInt(cfg[key])
    ensures r.Ok? && key in cfg ==> INT_MIN <= r.value <= INT_MAX
  {
    if key in cfg then ParseInt(cfg[key]) else Ok(default)
  }

  /** Decimal digits of a natural number, without leading zeros. */
  function Digits(n: nat): (s: string)
    ensures |s| > 0 && AllDigits(s)
  {
    var d := [(n % 10 + '0' as int) as char];
    if n < 10 then d else Digits(n / 10) + d
  }

  /** Integer.toString: the decimal form of an integer, with '-' for a negative one. */
  function DecimalString(n: int): string {
    if n < 0 then "-" + Digits(-n) else Digits(n)
  }

  lemma {:induction false} DigitsValueOfDigits(n: nat)
    ensures DigitsValue(Digits(n)) == n
  {
    var s := Digits(n);
    if n >= 10 {
      DigitsValueOfDigits(n / 10);
      assert s[..|s| - 1] == Digits(n / 10);
    }
  }

  /** Integer.parseInt reads back what Integer.toString writes. */
  lemma ParseIntDecimalString(n: int)
    requires INT_MIN <= n <= INT_MAX
    ensures ParseInt(DecimalString(n)) == Ok(n)
  {
    if n < 0 {
      var d := Digits(-n);
      DigitsValueOfDigits(-n);
      assert ("-" + d)[0] == '-' && ("-" + d)[1..] == d;
    } else {
      var d := Digits(n);
      DigitsValueOfDigits(n);
      assert IsDigit(d[0]);
    }
  }

  /** getValue(key, default, parser).get(): an unconfigured key takes the default, a configured one is parsed. */
  function GetValue<T>(cfg: Properties, key: string, default: T, parser: string -> Result<T>): (r: Result<T>)
    ensures key !in cfg ==> r == Ok(default)
    ensures key in cfg ==> r == parser(cfg[key])
  {
    if key in cfg then parser(cfg[key]) else Ok(default)
  }
}
