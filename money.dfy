/** Money. The quote schema declares every amount as
    `condecimal(max_digits=12, decimal_places=2)`, so the model counts amounts
    in integer cents; a JSON number arrives as a decimal and is accepted only
    when it is exact to the cent and has at most ten integer digits. */
module Money {
  import opened Common

  /** An amount in cents. The schema puts no sign constraint on it. */
  type Cents = int

  /** 12 digits in all, 2 of them after the point: a magnitude below 10^10 units. */
  const CENTS_LIMIT: int := 1_000_000_000_000

  predicate InRange(c: Cents) {
    -CENTS_LIMIT < c < CENTS_LIMIT
  }

  /** A decimal as written in the request body: `unscaled` × 10^-`places`. */
  datatype Decimal = Decimal(unscaled: int, places: nat)

  function Pow10(n: nat): (r: nat)
    ensures r >= 1
  {
    if n == 0 then 1 else 10 * Pow10(n - 1)
  }

  lemma MulAtLeast(p: int, m: int)
    requires p >= 1 && m >= 1
    ensures p * m >= p
  {
    assert p * m == p * (m - 1) + p;
    assert p * (m - 1) >= 0;
  }

  lemma DivExact(c: int, p: int)
    requires p >= 1
    ensures (c * p) % p == 0 && (c * p) / p == c
  {
    var n := c * p;
    var m := c - n / p;
    assert p * m == n % p;
    if m >= 1 {
      MulAtLeast(p, m);
    }
  }

  lemma CancelFactor(a: int, b: int, k: int)
    requires k >= 1 && a * k == b * k
    ensures a == b
  {
    DivExact(a, k);
    DivExact(b, k);
  }

  /** The condecimal(12, 2) check and the conversion to cents: a decimal is
      accepted exactly when it equals some in-range number of cents, and then
      it is converted without rounding. */
  function ToCents(x: Decimal): (r: Option<Cents>)
    ensures r.Some? ==> InRange(r.value) && r.value * Pow10(x.places) == x.unscaled * 100
    ensures r.None? ==> forall c :: InRange(c) ==> c * Pow10(x.places) != x.unscaled * 100
  {
    var n, p := x.unscaled * 100, Pow10(x.places);
    if n % p == 0 && InRange(n / p) then
      assert (n / p) * p == n;
      Some(n / p)
    else
      assert forall c :: c * p == n ==> n % p == 0 && n / p == c by {
        forall c | c * p == n ensures n % p == 0 && n / p == c { DivExact(c, p); }
      }
      None
  }

  /** The decimal with two places that a client sends for `c` cents. */
  function FromCents(c: Cents): (d: Decimal) {
    Decimal(c, 2)
  }

  lemma {:induction false} ToCentsFromCents(c: Cents)
    requires InRange(c)
    ensures ToCents(FromCents(c)) == Some(c)
  {
    DivExact(c, 100);
  }

  /** Trailing zeros do not matter: 12.50 and 12.5 denote the same amount. */
  lemma {:induction false} ToCentsIgnoresTrailingZero(x: Decimal)
    ensures ToCents(Decimal(x.unscaled * 10, x.places + 1)) == ToCents(x)
  {
    var y := Decimal(x.unscaled * 10, x.places + 1);
    var p := Pow10(x.places);
    assert Pow10(y.places) == 10 * p;
    forall c ensures c * Pow10(y.places) == y.unscaled * 100 <==> c * p == x.unscaled * 100 {
      assert c * Pow10(y.places) == (c * p) * 10;
      assert y.unscaled * 100 == (x.unscaled * 100) * 10;
      if (c * p) * 10 == (x.unscaled * 100) * 10 {
        CancelFactor(c * p, x.unscaled * 100, 10);
      }
    }
    if ToCents(x).Some? && ToCents(y).Some? {
      CancelFactor(ToCents(x).value, ToCents(y).value, p);
    }
  }
}
