/**
 * The time helpers of utils/helper.js. The wall clock is a parameter: `ms` stands for
 * `Date.now()` and `nowSeconds` for the result of `now()`.
 */
module Helper {
  import opened Wrappers

  /** `now()`: the millisecond clock floor-divided by 1000 (Unix seconds). */
  function Now(ms: int): (s: int)
    ensures s * 1000 <= ms < s * 1000 + 1000
  {
    ms / 1000
  }

  /** `hasExpired(timestamp)`. */
  predicate HasExpired(timestamp: int, nowSeconds: int) {
    timestamp < nowSeconds
  }

  /** A timestamp expires strictly after the current second: equal to now is still valid. */
  lemma ExpiryIsStrict(nowSeconds: int)
    ensures !HasExpired(nowSeconds, nowSeconds) && HasExpired(nowSeconds - 1, nowSeconds)
  {
  }

  /** JavaScript's `%`: the remainder takes the sign of the dividend. */
  function JsRem(a: int, b: int): (r: int)
    requires b > 0
    ensures a >= 0 ==> 0 <= r < b
    ensures a < 0 ==> -b < r <= 0
    ensures a >= 0 ==> r == a % b
  {
    if a >= 0 then a % b else -((-a) % b)
  }

  /** Negating the dividend negates the remainder, so a negative dividend is pinned by its magnitude. */
  lemma JsRemOdd(a: int, b: int)
    requires b > 0
    ensures JsRem(-a, b) == -JsRem(a, b)
  {
  }

  /** The hour, minute and second components `formatTime` computes with `Math.floor` and `%`. */
  function TimeParts(seconds: int): (int, int, int) {
    (seconds / 3600, JsRem(seconds, 3600) / 60, JsRem(seconds, 60))
  }

  function DigitChar(d: nat): char
    requires d < 10
  {
    "0123456789"[d]
  }

  function DigitValue(c: char): int {
    c as int - '0' as int
  }

  predicate IsDigit(c: char) {
    '0' <= c <= '9'
  }

  /** The decimal numeral of a natural number, without leading zeros. */
  function NatToString(n: nat): (r: string)
    ensures r != [] && forall i :: 0 <= i < |r| ==> IsDigit(r[i])
    decreases n
  {
    (if n < 10 then "" else NatToString(n / 10)) + [DigitChar(n % 10)]
  }

  /** `String(n)` for an integer. */
  function IntToString(n: int): string {
    if n < 0 then "-" + NatToString(-n) else NatToString(n)
  }

  /** Reads a string of decimal digits back as a number. */
  function ParseDigits(s: string): int {
    if s == [] then 0 else ParseDigits(s[..|s| - 1]) * 10 + DigitValue(s[|s| - 1])
  }

  lemma {:induction false} DecimalRoundTrip(n: nat)
    ensures ParseDigits(NatToString(n)) == n
    decreases n
  {
    var s := NatToString(n);
    assert s[..|s| - 1] == if n < 10 then "" else NatToString(n / 10);
    assert DigitValue(s[|s| - 1]) == n % 10;
    if n >= 10 {
      DecimalRoundTrip(n / 10);
    }
  }

  /** `formatTime(seconds)`: `"<h>h <m>m <s>s"`. */
  function FormatTime(seconds: int): string {
    var (h, m, s) := TimeParts(seconds);
    IntToString(h) + "h " + IntToString(m) + "m " + IntToString(s) + "s"
  }

  /** For a non-negative count of seconds the three components recombine to the input, minutes and seconds in [0, 59]. */
  lemma TimePartsRecombine(seconds: int)
    requires seconds >= 0
    ensures var (h, m, s) := TimeParts(seconds);
      h * 3600 + m * 60 + s == seconds && 0 <= m <= 59 && 0 <= s <= 59 && h >= 0
  {
    var h := seconds / 3600;
    var q := seconds % 3600;
    var m := q / 60;
    var r := q % 60;
    assert TimeParts(seconds) == (h, m, seconds % 60);
    assert seconds == 60 * (60 * h + m) + r;
    RemainderOf60(seconds, 60 * h + m, r);
  }

  lemma RemainderOf60(a: int, k: int, r: int)
    requires a == 60 * k + r && 0 <= r < 60
    ensures a % 60 == r
  {
  }

  /** Each component is printed as plain digits that read back as the component. */
  lemma FormatTimeComponents(seconds: int)
    requires seconds >= 0
    ensures var (h, m, s) := TimeParts(seconds);
      && FormatTime(seconds) == NatToString(h) + "h " + NatToString(m) + "m " + NatToString(s) + "s"
      && ParseDigits(NatToString(h)) == h && ParseDigits(NatToString(m)) == m
      && ParseDigits(NatToString(s)) == s
  {
    var (h, m, s) := TimeParts(seconds);
    TimePartsRecombine(seconds);
    DecimalRoundTrip(h);
    DecimalRoundTrip(m);
    DecimalRoundTrip(s);
  }

  /** `handleError(message, error)`: logs, then always throws an error with `message`. */
  function HandleError<T>(message: string): (r: Result<T>)
    ensures !r.Ok? && r.message == message
  {
    Err(message)
  }
}
