/** Shared vocabulary of the game: optional values, JavaScript truthiness of
    request fields, the up/down prediction, and the few string operations the
    source performs (decimal rendering of numbers, substring tests, joins). */
module Common {

  datatype Option<T> = None | Some(value: T)

  datatype Result<T, E> = Success(value: T) | Failure(error: E)

  /** A prediction as the typed client code knows it ('up' | 'down'). */
  datatype Direction = Up | Down

  /** A price observation as the client caches it (IBitcoinPrice): USD price and epoch milliseconds. */
  datatype PricePoint = PricePoint(price: real, timestamp: int)

  /** The wire spelling of a direction, as sent in request bodies and stored by the server. */
  function DirectionName(d: Direction): (s: string)
    ensures s == "up" || s == "down"
    ensures (s == "up") <==> d.Up?
  {
    match d
    case Up => "up"
    case Down => "down"
  }

  /** `!!field` for an optional string field of a parsed JSON body: absent, null and "" are falsy. */
  predicate PresentString(f: Option<string>)
  {
    f.Some? && f.value != ""
  }

  /** `!!field` for an optional numeric field: absent and 0 are falsy (NaN cannot come out of JSON). */
  predicate PresentNumber(f: Option<real>)
  {
    f.Some? && f.value != 0.0
  }

  function Min(a: int, b: int): (m: int)
    ensures m <= a && m <= b && (m == a || m == b)
  {
    if a <= b then a else b
  }

  function Max(a: int, b: int): (m: int)
    ensures m >= a && m >= b && (m == a || m == b)
  {
    if a >= b then a else b
  }

  function Pow2(k: nat): (p: nat)
    ensures p >= 1
  {
    if k == 0 then 1 else 2 * Pow2(k - 1)
  }

  lemma {:induction false} Pow2Monotone(j: nat, k: nat)
    requires j <= k
    ensures Pow2(j) <= Pow2(k)
  {
    if j < k {
      Pow2Monotone(j, k - 1);
    }
  }

  function DigitChar(d: nat): (c: char)
    requires d < 10
    ensures '0' <= c <= '9'
  {
    "0123456789"[d]
  }

  /** Decimal rendering of a natural number, as JavaScript's template literals print an integer value. */
  function NatToString(n: nat): (s: string)
    ensures |s| >= 1
    ensures forall i :: 0 <= i < |s| ==> '0' <= s[i] <= '9'
    ensures n >= 10 ==> s[0] != '0'
    decreases n
  {
    if n < 10 then [DigitChar(n)] else NatToString(n / 10) + [DigitChar(n % 10)]
  }

  /** Decimal rendering of an integer; negative values carry a leading '-' (and -0 prints as "0"). */
  function IntToString(i: int): (s: string)
    ensures |s| >= 1
    ensures (s[0] == '-') <==> i < 0
  {
    if i < 0 then "-" + NatToString(-i) else NatToString(i)
  }

  predicate StartsWith(s: string, prefix: string)
  {
    |prefix| <= |s| && s[..|prefix|] == prefix
  }

  /** `s.includes(sub)`. */
  predicate Contains(s: string, sub: string)
    decreases |s|
  {
    StartsWith(s, sub) || (|s| > 0 && Contains(s[1..], sub))
  }

  /** `parts.join(sep)`. */
  function Join(parts: seq<string>, sep: string): (s: string)
    ensures |parts| == 1 ==> s == parts[0]
    decreases |parts|
  {
    if |parts| == 0 then ""
    else if |parts| == 1 then parts[0]
    else parts[0] + sep + Join(parts[1..], sep)
  }
}
