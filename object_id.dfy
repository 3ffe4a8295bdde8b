/**
 * Order numbers. Each order gets `ORD-` followed by a freshly generated
 * document id. A document id is 12 bytes printed as 24 lower-case hex digits;
 * the model generates them from a counter, so fresh means "not issued before".
 */
module ObjectIds {

  /** Number of hex digits in a printed document id. */
  const Width: nat := 24

  /** The prefix of every order number. */
  const OrderPrefix: string := "ORD-"

  function Pow16(k: nat): (r: nat)
    ensures r >= 1
  {
    if k == 0 then 1 else 16 * Pow16(k - 1)
  }

  /** The lower-case hex digit for `d`. */
  function HexDigit(d: nat): (c: char)
    requires d < 16
    ensures DigitValue(c) == d
  {
    if d < 10 then ('0' as int + d) as char else ('a' as int + d - 10) as char
  }

  /** The value of a lower-case hex digit (0 for any other character). */
  function DigitValue(c: char): nat
  {
    if '0' <= c <= '9' then c as int - '0' as int
    else if 'a' <= c <= 'f' then c as int - 'a' as int + 10
    else 0
  }

  /** `n` printed in exactly `width` hex digits, most significant first (higher digits dropped). */
  function Hex(n: nat, width: nat): (s: string)
    ensures |s| == width
  {
    if width == 0 then [] else Hex(n / 16, width - 1) + [HexDigit(n % 16)]
  }

  /** Reads a string of hex digits back as a number. */
  function HexValue(s: string): nat
  {
    if s == [] then 0 else 16 * HexValue(s[..|s| - 1]) + DigitValue(s[|s| - 1])
  }

  lemma ModOfProduct(n: nat, p: nat)
    requires p >= 1
    ensures n % (16 * p) == 16 * ((n / 16) % p) + n % 16
  {
    var q, r := n / 16, n % 16;
    var k, m := q / p, q % p;
    assert n == 16 * q + r;
    assert q == p * k + m;
    assert n == (16 * p) * k + (16 * m + r);
    assert 0 <= 16 * m + r < 16 * p;
    ModUnique(n, 16 * p, k, 16 * m + r);
  }

  lemma ModUnique(n: int, d: int, k: int, x: int)
    requires d > 0 && n == d * k + x && 0 <= x < d
    ensures n % d == x
  {
    var q, r := n / d, n % d;
    assert d * (q - k) == x - r;
    if q - k >= 1 {
      MulAtLeast(d, q - k);
    } else if k - q >= 1 {
      MulAtLeast(d, k - q);
    }
  }

  /** Multiplying by a positive whole number does not make a positive number smaller. */
  lemma MulAtLeast(d: int, j: int)
    requires d > 0 && j >= 1
    ensures d * j >= d
  {
  }

  /** Reading back a printed number gives it modulo 16^width. */
  lemma {:induction false} HexRoundTrip(n: nat, width: nat)
    ensures HexValue(Hex(n, width)) == n % Pow16(width)
  {
    if width > 0 {
      var s := Hex(n, width);
      assert s[..|s| - 1] == Hex(n / 16, width - 1);
      HexRoundTrip(n / 16, width - 1);
      ModOfProduct(n, Pow16(width - 1));
    }
  }

  /** The printed form of the `n`-th generated document id. */
  function ObjectIdText(n: nat): (s: string)
    ensures |s| == Width
  {
    Hex(n, Width)
  }

  /** The order number built from the `n`-th generated document id. */
  function OrderIdText(n: nat): (s: string)
    ensures |s| == |OrderPrefix| + Width
    ensures s[..|OrderPrefix|] == OrderPrefix
    ensures s[|OrderPrefix|..] == ObjectIdText(n)
  {
    OrderPrefix + ObjectIdText(n)
  }

  /** Numbers below 16^width print differently in `width` digits. */
  lemma HexDistinct(a: nat, b: nat, width: nat)
    requires a < Pow16(width) && b < Pow16(width) && a != b
    ensures Hex(a, width) != Hex(b, width)
  {
    HexRoundTrip(a, width);
    HexRoundTrip(b, width);
  }

  /** Distinct document ids give distinct order numbers, as long as the 24-digit space is not exhausted. */
  lemma OrderIdsDistinct(a: nat, b: nat)
    requires a < Pow16(Width) && b < Pow16(Width) && a != b
    ensures OrderIdText(a) != OrderIdText(b)
  {
    HexDistinct(a, b, Width);
    assert OrderIdText(a)[|OrderPrefix|..] != OrderIdText(b)[|OrderPrefix|..];
  }
}
