/** The JavaScript string conversions that build the texts the ledger hashes:
    `number + string` (decimal rendering of an integer), `null`/`undefined`
    inside a concatenation, the values `JSON.stringify` is applied to, and `substring`. */
module JsText {

  /** What `undefined` becomes inside a string concatenation. */
  const Undefined: string := "undefined"

  /** What `null` becomes inside a string concatenation. */
  const Null: string := "null"

  function Digit(n: int): (c: char)
    requires 0 <= n < 10
    ensures '0' <= c <= '9'
  {
    (48 + n) as char
  }

  /** Decimal rendering of a natural number, most significant digit first. */
  function NatStr(n: nat): string {
    if n < 10 then [Digit(n)] else NatStr(n / 10) + [Digit(n % 10)]
  }

  /** `"" + n` for an integer `n`: a minus sign for negative values, then the digits. */
  function NumStr(n: int): string {
    if n < 0 then "-" + NatStr(-n) else NatStr(n)
  }

  /** The decimal rendering of a natural number is a non-empty run of digits. */
  lemma {:induction false} NatStrDigits(n: nat)
    ensures |NatStr(n)| >= 1
    ensures forall i :: 0 <= i < |NatStr(n)| ==> '0' <= NatStr(n)[i] <= '9'
  {
    if n >= 10 {
      NatStrDigits(n / 10);
    }
  }

  /** The rendering of an integer starts with a minus sign or a digit and ends with a digit. */
  lemma NumStrShape(n: int)
    ensures |NumStr(n)| >= 1
    ensures NumStr(n)[0] == '-' || '0' <= NumStr(n)[0] <= '9'
    ensures '0' <= NumStr(n)[|NumStr(n)| - 1] <= '9'
  {
    if n < 0 {
      NatStrDigits(-n);
    } else {
      NatStrDigits(n);
    }
  }

  /** Two texts that agree around a middle part agree on the middle part. */
  lemma MiddleCancels(a: string, x: string, y: string, z: string)
    requires a + x + z == a + y + z
    ensures x == y
  {
    assert |x| == |y|;
    assert x == (a + x + z)[|a|..|a| + |x|];
    assert y == (a + y + z)[|a|..|a| + |y|];
  }

  /** A JavaScript number as far as a comparison needs it: an integer or NaN.
      `undefined` in an arithmetic expression becomes NaN. */
  datatype JsNumber = Num(n: int) | NaN

  /** `a + b` on numbers: NaN as soon as either side is NaN. */
  function Plus(a: JsNumber, b: JsNumber): (r: JsNumber)
    ensures r.Num? <==> a.Num? && b.Num?
    ensures r.Num? ==> r.n == a.n + b.n
  {
    if a.Num? && b.Num? then Num(a.n + b.n) else NaN
  }

  /** `a < b` on numbers: every comparison with NaN is false. */
  predicate Less(a: JsNumber, b: JsNumber) {
    a.Num? && b.Num? && a.n < b.n
  }

  /** A JavaScript value as `JSON.stringify` sees it: the payload of a block and
      the transactions of a cube are hashed through their JSON text. */
  datatype Json =
    | JNull
    | JNumber(n: int)
    | JString(s: string)
    | JArray(items: seq<Json>)
    | JObject(members: seq<(string, Json)>)

  /** `h.substring(0, d)`: the first `d` characters, or all of `h` when it is shorter. */
  function Substring(h: string, d: nat): (p: string)
    ensures |p| <= d && p <= h
    ensures |h| >= d ==> |p| == d
  {
    if d <= |h| then h[..d] else h
  }

  /** `Array(d + 1).join('0')`: `d` zero characters. */
  function Zeros(d: nat): (z: string)
    ensures |z| == d
    ensures forall i :: 0 <= i < d ==> z[i] == '0'
  {
    if d == 0 then "" else Zeros(d - 1) + "0"
  }
}
