/** The modification-time contest. The literal 1e9 turns the comparison into binary64 arithmetic, so
    both times are rounded before they are compared. */
module ModTime {
  import opened Arithmetic

  const NANO: nat := 1_000_000_000
  const TWO_53: nat := 0x20_0000_0000_0000
  const TWO_60: nat := 0x1000_0000_0000_0000
  const TWO_61: nat := 0x2000_0000_0000_0000
  const TWO_62: nat := 0x4000_0000_0000_0000

  /** The distance between neighbouring binary64 numbers at `n`: 1 up to 2^53, doubling with every
      further power of two. */
  function Ulp(n: nat): (u: nat)
    ensures u >= 1
  {
    if n < TWO_53 then 1 else 2 * Ulp(n / 2)
  }

  /** The multiple of `u` nearest to `n`, ties to the even one (IEEE 754-2019, section 4.3.1). */
  function NearestMultiple(n: nat, u: nat): nat
    requires u >= 1
  {
    var q, r := n / u, n % u;
    if 2 * r < u || (2 * r == u && q % 2 == 0) then q else q + 1
  }

  function RoundHalfEven(n: nat, u: nat): nat
    requires u >= 1
  {
    NearestMultiple(n, u) * u
  }

  function ToDouble(n: nat): nat {
    RoundHalfEven(n, Ulp(n))
  }

  /** The time of a stat as the source computes it: seconds times 1e9, rounded, plus the nanoseconds,
      rounded again. */
  function ModTime(ns: nat): nat {
    ToDouble(ToDouble((ns / NANO) * NANO) + ns % NANO)
  }

  predicate LocalWins(localNs: nat, remoteNs: nat) {
    ModTime(localNs) >= ModTime(remoteNs)
  }

  // ---------------------------------------------------------------------------------------------
  // Rounding
  // ---------------------------------------------------------------------------------------------

  lemma RoundBounds(n: nat, u: nat)
    requires u >= 1
    ensures 2 * n - u <= 2 * RoundHalfEven(n, u) <= 2 * n + u
  {
    var q, r := n / u, n % u;
    assert n == q * u + r;
    assert (q + 1) * u == q * u + u;
  }

  lemma RoundMultiple(m: nat, u: nat)
    requires u >= 1
    ensures RoundHalfEven(m * u, u) == m * u
  {
    QuotientOf(m * u, m, u);
  }

  lemma DigitOrder(q: nat, r: nat, q': nat, r': nat, u: nat)
    requires r < u && r' < u && q * u + r <= q' * u + r'
    ensures q < q' || (q == q' && r <= r')
  {
    if q > q' {
      Scale(q' + 1, q, u);
    }
  }

  lemma NearestMonotone(a: nat, b: nat, u: nat)
    requires u >= 1 && a <= b
    ensures NearestMultiple(a, u) <= NearestMultiple(b, u)
  {
    assert a == (a / u) * u + a % u && b == (b / u) * u + b % u;
    DigitOrder(a / u, a % u, b / u, b % u, u);
  }

  lemma RoundMonotone(a: nat, b: nat, u: nat)
    requires u >= 1 && a <= b
    ensures RoundHalfEven(a, u) <= RoundHalfEven(b, u)
  {
    NearestMonotone(a, b, u);
    Scale(NearestMultiple(a, u), NearestMultiple(b, u), u);
  }

  /** `n` lies in the binade whose numbers are multiples of `Ulp(n)` and have 53 significant bits. */
  lemma {:induction false} Binade(n: nat)
    ensures n < TWO_53 * Ulp(n)
    ensures Ulp(n) > 1 ==> TWO_53 * Ulp(n) <= 2 * n
  {
    if n >= TWO_53 { Binade(n / 2); }
  }

  lemma {:induction false} UlpMonotone(a: nat, b: nat)
    requires a <= b
    ensures Ulp(a) == Ulp(b) || 2 * Ulp(a) <= Ulp(b)
  {
    if b >= TWO_53 && a >= TWO_53 { UlpMonotone(a / 2, b / 2); }
  }

  /** Rounding to binary64 never reverses an order, whatever the magnitudes. */
  lemma ToDoubleMonotone(a: nat, b: nat)
    requires a <= b
    ensures ToDouble(a) <= ToDouble(b)
  {
    var u, v := Ulp(a), Ulp(b);
    UlpMonotone(a, b);
    if u == v {
      RoundMonotone(a, b, u);
    } else {
      Binade(a);
      Binade(b);
      var edge := TWO_53 * u;
      RoundMonotone(a, edge, u);
      RoundMultiple(TWO_53, u);
      var low := (TWO_53 / 2) * v;
      RoundMonotone(low, b, v);
      RoundMultiple(TWO_53 / 2, v);
    }
  }

  lemma {:induction false} UlpIs(n: nat, k: nat)
    requires TWO_53 * Pow2(k) <= n < 2 * TWO_53 * Pow2(k)
    ensures Ulp(n) == 2 * Pow2(k)
  {
    if k > 0 { UlpIs(n / 2, k - 1); }
  }

  function Pow2(k: nat): nat {
    if k == 0 then 1 else 2 * Pow2(k - 1)
  }

  lemma UlpOfEpoch(n: nat)
    ensures TWO_60 <= n < TWO_61 ==> Ulp(n) == 256
    ensures n < TWO_62 ==> Ulp(n) <= 512
  {
    assert Pow2(3) == 8;
    assert Pow2(7) == 16 * Pow2(3);
    assert Pow2(8) == 256;
    if TWO_60 <= n < TWO_61 { UlpIs(n, 7); }
    if n < TWO_62 {
      UlpIs(TWO_62 - 1, 8);
      UlpMonotone(n, TWO_62 - 1);
    }
  }

  lemma {:induction false} UlpDivides(n: nat)
    requires Ulp(n) <= 512
    ensures 512 % Ulp(n) == 0
  {
    UlpSmall(n, 512);
  }

  lemma {:induction false} UlpSmall(n: nat, bound: nat)
    requires Ulp(n) <= bound && bound in {1, 2, 4, 8, 16, 32, 64, 128, 256, 512}
    ensures Ulp(n) in {1, 2, 4, 8, 16, 32, 64, 128, 256, 512}
  {
    if n >= TWO_53 { UlpSmall(n / 2, bound / 2); }
  }

  // ---------------------------------------------------------------------------------------------
  // The contest
  // ---------------------------------------------------------------------------------------------

  /** Up to 2^62 ns (the year 2116) the product with 1e9 is exact, so only the sum is rounded. */
  lemma ProductIsExact(ns: nat)
    requires ns < TWO_62
    ensures ModTime(ns) == ToDouble(ns)
  {
    var whole := (ns / NANO) * NANO;
    assert whole <= ns;
    UlpOfEpoch(whole);
    UlpDivides(whole);
    var u := Ulp(whole);
    assert whole == (ns / NANO) * 1953125 * 512;
    var m := (ns / NANO) * 1953125 * (512 / u);
    assert 512 == (512 / u) * u;
    assert whole == m * u;
    RoundMultiple(m, u);
  }

  /** A local copy at least as new always wins the contest. */
  lemma NewerLocalWins(localNs: nat, remoteNs: nat)
    requires remoteNs <= localNs < TWO_62
    ensures LocalWins(localNs, remoteNs)
  {
    ProductIsExact(localNs);
    ProductIsExact(remoteNs);
    ToDoubleMonotone(remoteNs, localNs);
  }

  /** A remote copy newer by more than the spacing of binary64 numbers at its time always wins. */
  lemma NewerRemoteWins(localNs: nat, remoteNs: nat)
    requires localNs + Ulp(remoteNs) < remoteNs < TWO_62
    ensures !LocalWins(localNs, remoteNs)
  {
    ProductIsExact(localNs);
    ProductIsExact(remoteNs);
    UlpMonotone(localNs, remoteNs);
    RoundBounds(localNs, Ulp(localNs));
    RoundBounds(remoteNs, Ulp(remoteNs));
  }

  /** A stale local copy wins exactly when both times round to the same number. */
  lemma StaleLocalWins(localNs: nat, remoteNs: nat)
    requires localNs < remoteNs < TWO_62
    ensures LocalWins(localNs, remoteNs) <==> ToDouble(localNs) == ToDouble(remoteNs)
  {
    ProductIsExact(localNs);
    ProductIsExact(remoteNs);
    ToDoubleMonotone(localNs, remoteNs);
  }

  /** `n` lies within 128 of the `k`-th multiple of 256; the ends go to the even multiple. */
  predicate Near(n: nat, k: nat) {
    256 * k - 128 <= n <= 256 * k + 128 && (k % 2 == 0 || 256 * k - 128 < n < 256 * k + 128)
  }

  lemma NearIsNearest(n: nat, k: nat)
    ensures Near(n, k) <==> NearestMultiple(n, 256) == k
  {
  }

  /** Between 2^60 ns and 2^61 ns a stale local copy wins exactly when both times lie around the same
      multiple of 256 ns. */
  lemma StaleWinsWhen(localNs: nat, remoteNs: nat)
    requires TWO_60 <= localNs < remoteNs < TWO_61
    ensures LocalWins(localNs, remoteNs) <==> exists k: nat :: Near(localNs, k) && Near(remoteNs, k)
  {
    StaleLocalWins(localNs, remoteNs);
    UlpOfEpoch(localNs);
    UlpOfEpoch(remoteNs);
    forall k: nat ensures Near(localNs, k) && Near(remoteNs, k) <==>
        NearestMultiple(localNs, 256) == k == NearestMultiple(remoteNs, 256)
    {
      NearIsNearest(localNs, k);
      NearIsNearest(remoteNs, k);
    }
    if LocalWins(localNs, remoteNs) { assert Near(localNs, NearestMultiple(localNs, 256)); }
  }

  /** Between 2^60 ns and 2^61 ns (the years 2006 to 2043) that spacing is 256 ns. */
  lemma ContestOfEpoch(localNs: nat, remoteNs: nat)
    requires localNs < TWO_61 && TWO_60 <= remoteNs < TWO_61
    ensures remoteNs <= localNs ==> LocalWins(localNs, remoteNs)
    ensures localNs + 256 < remoteNs ==> !LocalWins(localNs, remoteNs)
  {
    UlpOfEpoch(remoteNs);
    if remoteNs <= localNs { NewerLocalWins(localNs, remoteNs); }
    if localNs + 256 < remoteNs { NewerRemoteWins(localNs, remoteNs); }
  }

  /** 256 ns is the exact margin: here a remote copy newer by 256 ns loses to a stale local one. */
  lemma MarginIsTight()
    ensures LocalWins(TWO_60 + 384, TWO_60 + 640)
  {
    UlpOfEpoch(TWO_60 + 384);
    UlpOfEpoch(TWO_60 + 640);
    ProductIsExact(TWO_60 + 384);
    ProductIsExact(TWO_60 + 640);
    QuotientOf(TWO_60 + 384, TWO_60 / 256 + 1, 256);
    QuotientOf(TWO_60 + 640, TWO_60 / 256 + 2, 256);
  }
}
