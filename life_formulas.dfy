/** The three life formulas of the web engine (app.py): temporary death
    cover, whole life and the life annuity. Each is a specification function
    (a sum defined by recursion on the number of policy years) and a method
    with the source's loops, proved to compute it.

    Every formula takes the mortality curve as a parameter `q`, so that its
    properties are proved once for any curve of probabilities; the web engine
    always passes its extended table, GetTauxMortaliteEtendu, which
    EtenduIsMortalityCurve shows to be such a curve. */
module LifeFormulas {
  import opened Numeric
  import opened Mortality

  /** Every age is mapped to a probability strictly between 0 and 1. */
  ghost predicate IsMortalityCurve(q: int -> real)
  {
    forall a :: 0.0 < q(a) < 1.0
  }

  /** The web engine's extended table is such a curve. */
  lemma EtenduIsMortalityCurve()
    ensures IsMortalityCurve(GetTauxMortaliteEtendu)
  {
    forall a ensures 0.0 < GetTauxMortaliteEtendu(a) < 1.0 {
    }
  }

  // ---------------------------------------------------------------------
  // Temporary death cover
  // ---------------------------------------------------------------------

  /** Number of iterations of `range(1, int(duree) + 1)`. */
  function TermYears(duree: real): nat
  {
    if Trunc(duree) > 0 then Trunc(duree) else 0
  }

  /** Σ_{k=1..n} capital × q(age + k - 1) × (1 + i)^-k, with no conditioning
      on survival. */
  function TermDeathSum(q: int -> real, capital: real, age: int, i: real, n: nat): real
    requires 1.0 + i != 0.0 || n == 0
  {
    if n == 0 then 0.0
    else TermDeathSum(q, capital, age, i, n - 1) + Mul(Mul(capital, q(age + n - 1)), Discount(i, n))
  }

  /** The temporary death premium: the sum above, times the risk factor and
      the 20% loading, with i = taux / 100. */
  function TermDeathPremium(q: int -> real, capital: real, age: int, duree: real, taux: real, facteurRisque: real): real
    requires taux != -100.0 || TermYears(duree) == 0
  {
    Mul(Mul(TermDeathSum(q, capital, age, taux / 100.0, TermYears(duree)), facteurRisque), 1.2)
  }

  /** calculate_prime_deces_temporaire */
  method CalculatePrimeDecesTemporaire(q: int -> real, capital: real, age: int, duree: real, taux: real, facteurRisque: real)
    returns (prime: real)
    requires taux != -100.0 || TermYears(duree) == 0
    ensures prime == TermDeathPremium(q, capital, age, duree, taux, facteurRisque)
  {
    var acc := 0.0;
    var tauxInteret := taux / 100.0;
    for annee := 1 to TermYears(duree) + 1
      invariant acc == TermDeathSum(q, capital, age, tauxInteret, annee - 1)
    {
      var ageActuel := age + annee - 1;
      var tauxMortalite := q(ageActuel);
      var facteurActualisation := Discount(tauxInteret, annee);
      Mul3(capital, tauxMortalite, facteurActualisation);
      acc := acc + capital * tauxMortalite * facteurActualisation;
    }
    Mul3(acc, facteurRisque, 1.2);
    prime := acc * facteurRisque * 1.2;
  }

  /** With a non-negative capital and a rate above -100%, every yearly term is
      non-negative, and so is the sum. */
  lemma {:induction false} TermDeathSumNonNegative(q: int -> real, capital: real, age: int, i: real, n: nat)
    requires IsMortalityCurve(q) && capital >= 0.0 && i > -1.0
    ensures TermDeathSum(q, capital, age, i, n) >= 0.0
  {
    if n > 0 {
      TermDeathSumNonNegative(q, capital, age, i, n - 1);
      Mul3NonNegative(capital, q(age + n - 1), Discount(i, n));
    }
  }

  /** The premium is non-negative for a non-negative capital and risk factor. */
  lemma TermDeathPremiumNonNegative(q: int -> real, capital: real, age: int, duree: real, taux: real, facteurRisque: real)
    requires IsMortalityCurve(q) && capital >= 0.0 && facteurRisque >= 0.0 && taux > -100.0
    ensures TermDeathPremium(q, capital, age, duree, taux, facteurRisque) >= 0.0
  {
    TermDeathSumNonNegative(q, capital, age, taux / 100.0, TermYears(duree));
    Mul3NonNegative(TermDeathSum(q, capital, age, taux / 100.0, TermYears(duree)), facteurRisque, 1.2);
  }

  /** The sum is linear in the capital. */
  lemma {:induction false} TermDeathSumLinear(q: int -> real, capital: real, age: int, i: real, n: nat)
    requires 1.0 + i != 0.0 || n == 0
    ensures TermDeathSum(q, capital, age, i, n) == Mul(capital, TermDeathSum(q, 1.0, age, i, n))
  {
    if n > 0 {
      TermDeathSumLinear(q, capital, age, i, n - 1);
      ScaleStep(capital, TermDeathSum(q, 1.0, age, i, n - 1), q(age + n - 1), Discount(i, n));
    }
  }

  /** The premium is linear in the capital. */
  lemma TermDeathPremiumLinear(q: int -> real, capital: real, age: int, duree: real, taux: real, facteurRisque: real)
    requires taux != -100.0 || TermYears(duree) == 0
    ensures TermDeathPremium(q, capital, age, duree, taux, facteurRisque)
         == Mul(capital, TermDeathPremium(q, 1.0, age, duree, taux, facteurRisque))
  {
    var n := TermYears(duree);
    TermDeathSumLinear(q, capital, age, taux / 100.0, n);
    MulAssoc4(capital, TermDeathSum(q, 1.0, age, taux / 100.0, n), facteurRisque, 1.2);
  }

  // ---------------------------------------------------------------------
  // Survival and whole life
  // ---------------------------------------------------------------------

  /** Probability of surviving the n years from `age`: the product of
      (1 - q(a)) for a = age .. age + n - 1, multiplied in that order. */
  function Survival(q: int -> real, age: int, n: nat): real
  {
    if n == 0 then 1.0 else Mul(Survival(q, age, n - 1), 1.0 - q(age + n - 1))
  }

  /** One more year of survival multiplies in the next (1 - q); `p` is the
      running product a loop holds for the first k years. */
  lemma SurvivalNext(q: int -> real, age: int, k: nat, p: real)
    requires p == Survival(q, age, k)
    ensures p * (1.0 - q(age + k)) == Survival(q, age, k + 1)
  {
  }

  /** Survival is a probability, and it falls strictly every year. */
  lemma {:induction false} SurvivalBounds(q: int -> real, age: int, n: nat)
    requires IsMortalityCurve(q)
    ensures 0.0 < Survival(q, age, n) <= 1.0
    ensures Survival(q, age, n + 1) < Survival(q, age, n)
  {
    if n > 0 {
      SurvivalBounds(q, age, n - 1);
      Shrink(Survival(q, age, n - 1), q(age + n - 1));
    }
    Shrink(Survival(q, age, n), q(age + n));
    assert Survival(q, age, n + 1) == Mul(Survival(q, age, n), 1.0 - q(age + n));
  }

  /** Survival is non-increasing over any span of years. */
  lemma {:induction false} SurvivalNonIncreasing(q: int -> real, age: int, m: nat, n: nat)
    requires IsMortalityCurve(q) && m <= n
    ensures Survival(q, age, n) <= Survival(q, age, m)
    decreases n - m
  {
    if m < n {
      SurvivalNonIncreasing(q, age, m, n - 1);
      SurvivalBounds(q, age, n - 1);
    }
  }

  /** The inner loop of the whole-life and annuity formulas, which multiplies
      (1 - q(a)) into a running product for a = age .. ageActuel - 1. */
  method SurvivalProduct(q: int -> real, age: int, ageActuel: int) returns (p: real)
    requires age <= ageActuel
    ensures p == Survival(q, age, ageActuel - age)
  {
    p := 1.0;
    for a := age to ageActuel
      invariant p == Survival(q, age, a - age)
    {
      SurvivalNext(q, age, a - age, p);
      p := p * (1.0 - q(a));
    }
  }

  /** Probability of dying precisely in policy year k (k >= 1): surviving the
      k - 1 years before, then dying at age + k - 1. */
  function Deferred(q: int -> real, age: int, k: nat): real
    requires k >= 1
  {
    Mul(Survival(q, age, k - 1), q(age + k - 1))
  }

  /** Σ_{k=1..n} Deferred(q, age, k). */
  function DeferredMass(q: int -> real, age: int, n: nat): real
  {
    if n == 0 then 0.0 else DeferredMass(q, age, n - 1) + Deferred(q, age, n)
  }

  /** The deferred death probabilities telescope: over n years they add up to
      the probability of not surviving the n years, hence to less than 1. */
  lemma {:induction false} DeferredMassTelescopes(q: int -> real, age: int, n: nat)
    requires IsMortalityCurve(q)
    ensures DeferredMass(q, age, n) == 1.0 - Survival(q, age, n)
    ensures 0.0 <= DeferredMass(q, age, n) < 1.0
  {
    if n > 0 {
      DeferredMassTelescopes(q, age, n - 1);
      Distribute(Survival(q, age, n - 1), q(age + n - 1));
    }
    SurvivalBounds(q, age, n);
  }

  /** Number of iterations of `range(1, int(120 - age) + 1)`. */
  function WholeLifeYears(age: int): nat
  {
    if 120 - age > 0 then 120 - age else 0
  }

  /** Σ_{k=1..n} capital × Deferred(q, age, k) × (1 + i)^-k. */
  function WholeLifeSum(q: int -> real, capital: real, age: int, i: real, n: nat): real
    requires 1.0 + i != 0.0 || n == 0
  {
    if n == 0 then 0.0
    else WholeLifeSum(q, capital, age, i, n - 1) + Mul(Mul(capital, Deferred(q, age, n)), Discount(i, n))
  }

  /** The whole-life premium: the sum up to age 120, times the risk factor and
      the 15% loading. */
  function WholeLifePremium(q: int -> real, capital: real, age: int, taux: real, facteurRisque: real): real
    requires taux != -100.0 || WholeLifeYears(age) == 0
  {
    Mul(Mul(WholeLifeSum(q, capital, age, taux / 100.0, WholeLifeYears(age)), facteurRisque), 1.15)
  }

  /** Lines 205-208 of the whole-life loop: the survival product over the
      years before ageActuel, times the death rate at ageActuel. */
  method DeathProbability(q: int -> real, age: int, ageActuel: int) returns (p: real)
    requires age <= ageActuel
    ensures p == Deferred(q, age, ageActuel - age + 1)
  {
    p := SurvivalProduct(q, age, ageActuel);
    MulDef(p, q(ageActuel));
    p := p * q(ageActuel);
  }

  /** calculate_prime_vie_entiere */
  method CalculatePrimeVieEntiere(q: int -> real, capital: real, age: int, taux: real, facteurRisque: real)
    returns (prime: real)
    requires taux != -100.0 || WholeLifeYears(age) == 0
    ensures prime == WholeLifePremium(q, capital, age, taux, facteurRisque)
  {
    var acc := 0.0;
    var tauxInteret := taux / 100.0;
    for annee := 1 to WholeLifeYears(age) + 1
      invariant acc == WholeLifeSum(q, capital, age, tauxInteret, annee - 1)
    {
      var ageActuel := age + annee - 1;
      var probabiliteDecesPrecis := DeathProbability(q, age, ageActuel);
      var facteurActualisation := Discount(tauxInteret, annee);
      Mul3(capital, probabiliteDecesPrecis, facteurActualisation);
      acc := acc + capital * probabiliteDecesPrecis * facteurActualisation;
    }
    Mul3(acc, facteurRisque, 1.15);
    prime := acc * facteurRisque * 1.15;
  }

  /** For a rate of at least 0%, the discounted whole-life sum lies between 0
      and the capital times the total deferred death probability. */
  lemma {:induction false} WholeLifeSumBound(q: int -> real, capital: real, age: int, i: real, n: nat)
    requires IsMortalityCurve(q) && capital >= 0.0 && i >= 0.0
    ensures 0.0 <= WholeLifeSum(q, capital, age, i, n) <= Mul(capital, DeferredMass(q, age, n))
  {
    if n > 0 {
      WholeLifeSumBound(q, capital, age, i, n - 1);
      SurvivalBounds(q, age, n - 1);
      DiscountedTermBound(capital, Survival(q, age, n - 1), q(age + n - 1), Discount(i, n), DeferredMass(q, age, n - 1));
    }
  }

  /** With a rate of at least 0%, the whole-life premium never exceeds the
      capital times the risk factor times the 15% loading. */
  lemma WholeLifePremiumBound(q: int -> real, capital: real, age: int, taux: real, facteurRisque: real)
    requires IsMortalityCurve(q) && capital >= 0.0 && taux >= 0.0 && facteurRisque >= 0.0
    ensures 0.0 <= WholeLifePremium(q, capital, age, taux, facteurRisque) <= 1.15 * facteurRisque * capital
  {
    var n := WholeLifeYears(age);
    WholeLifeSumBound(q, capital, age, taux / 100.0, n);
    DeferredMassTelescopes(q, age, n);
    LoadedBound(WholeLifeSum(q, capital, age, taux / 100.0, n), capital,
                DeferredMass(q, age, n), facteurRisque, 1.15);
  }

  /** Conditioning on survival matters: over one year the whole-life and
      term-death sums agree, and from the second year on the whole-life sum is
      strictly below the unconditioned sum for a positive capital. */
  lemma {:induction false} WholeLifeBelowMarginal(q: int -> real, capital: real, age: int, i: real, n: nat)
    requires IsMortalityCurve(q) && capital > 0.0 && i > -1.0 && n >= 1
    ensures n == 1 ==> WholeLifeSum(q, capital, age, i, n) == TermDeathSum(q, capital, age, i, n)
    ensures n >= 2 ==> WholeLifeSum(q, capital, age, i, n) < TermDeathSum(q, capital, age, i, n)
  {
    if n == 1 {
      assert Survival(q, age, 0) == 1.0;
      MulOne(q(age));
    } else {
      WholeLifeBelowMarginal(q, capital, age, i, n - 1);
      SurvivalBounds(q, age, n - 1);
      if n == 2 {
        SurvivalBounds(q, age, 0);
        assert Survival(q, age, 0) == 1.0;
      }
      TermBound(capital, Survival(q, age, n - 1), q(age + n - 1), Discount(i, n));
    }
  }

  // ---------------------------------------------------------------------
  // Life annuity
  // ---------------------------------------------------------------------

  /** Σ_{k=1..n} rente × Survival(q, age, k - 1) × (1 + i)^-k. */
  function AnnuitySum(q: int -> real, rente: real, age: int, i: real, n: nat): real
    requires 1.0 + i != 0.0 || n == 0
  {
    if n == 0 then 0.0
    else AnnuitySum(q, rente, age, i, n - 1) + Mul(Mul(rente, Survival(q, age, n - 1)), Discount(i, n))
  }

  /** The annuity premium: 8% of the capital paid each year survived up to
      age 120, discounted, times the risk factor and the 15% loading. */
  function AnnuityPremium(q: int -> real, capital: real, age: int, taux: real, facteurRisque: real): real
    requires taux != -100.0 || WholeLifeYears(age) == 0
  {
    Mul(Mul(AnnuitySum(q, Mul(capital, 0.08), age, taux / 100.0, WholeLifeYears(age)), facteurRisque), 1.15)
  }

  /** calculate_prime_rente_viagere */
  method CalculatePrimeRenteViagere(q: int -> real, capital: real, age: int, taux: real, facteurRisque: real)
    returns (prime: real)
    requires taux != -100.0 || WholeLifeYears(age) == 0
    ensures prime == AnnuityPremium(q, capital, age, taux, facteurRisque)
  {
    var tauxInteret := taux / 100.0;
    var valeurActuelleRente := 0.0;
    var renteAnnuelle := capital * 0.08;
    assert renteAnnuelle == Mul(capital, 0.08);
    for annee := 1 to WholeLifeYears(age) + 1
      invariant valeurActuelleRente == AnnuitySum(q, renteAnnuelle, age, tauxInteret, annee - 1)
    {
      var ageActuel := age + annee - 1;
      var probabiliteSurvie := SurvivalProduct(q, age, ageActuel);
      var facteurActualisation := Discount(tauxInteret, annee);
      Mul3(renteAnnuelle, probabiliteSurvie, facteurActualisation);
      valeurActuelleRente := valeurActuelleRente + renteAnnuelle * probabiliteSurvie * facteurActualisation;
    }
    Mul3(valeurActuelleRente, facteurRisque, 1.15);
    prime := valeurActuelleRente * facteurRisque * 1.15;
  }

  /** The first year's payment is weighted by the empty survival product,
      exactly 1, so it contributes the payment discounted by one year. */
  lemma AnnuityFirstYear(q: int -> real, rente: real, age: int, i: real)
    requires 1.0 + i != 0.0
    ensures AnnuitySum(q, rente, age, i, 1) == rente / (1.0 + i)
  {
    assert Survival(q, age, 0) == 1.0;
    assert Pow(1.0 + i, 1) == (1.0 + i) * Pow(1.0 + i, 0);
    DiscountOne(rente, 1.0 + i);
  }

  /** With a non-negative payment and a rate of at least 0%, the discounted
      survival-weighted sum lies between 0 and n payments. */
  lemma {:induction false} AnnuitySumBound(q: int -> real, rente: real, age: int, i: real, n: nat)
    requires IsMortalityCurve(q) && rente >= 0.0 && i >= 0.0
    ensures 0.0 <= AnnuitySum(q, rente, age, i, n) <= Mul(rente, n as real)
  {
    if n > 0 {
      AnnuitySumBound(q, rente, age, i, n - 1);
      SurvivalBounds(q, age, n - 1);
      PaymentBound(rente, Survival(q, age, n - 1), Discount(i, n), (n - 1) as real);
    }
  }

  // ---------------------------------------------------------------------
  // Arithmetic steps, each over plain reals
  // ---------------------------------------------------------------------

  lemma Distribute(s: real, q: real)
    ensures 1.0 - Mul(s, 1.0 - q) == (1.0 - s) + Mul(s, q)
  {
  }

  lemma ScaleStep(c: real, t: real, q: real, v: real)
    ensures Mul(c, t) + Mul(Mul(c, q), v) == Mul(c, t + Mul(Mul(1.0, q), v))
  {
  }

  lemma DiscountedTermBound(c: real, s: real, q: real, v: real, mass: real)
    requires c >= 0.0 && 0.0 < s <= 1.0 && 0.0 < q < 1.0 && 0.0 <= v <= 1.0
    ensures 0.0 <= Mul(Mul(c, Mul(s, q)), v) <= Mul(c, Mul(s, q))
    ensures Mul(c, mass) + Mul(c, Mul(s, q)) == Mul(c, mass + Mul(s, q))
  {
    var d := s * q;
    assert d > 0.0;
    assert c * d >= 0.0;
    assert (c * d) * v <= (c * d) * 1.0;
  }

  lemma LoadedBound(w: real, c: real, mass: real, f: real, l: real)
    requires 0.0 <= w <= Mul(c, mass) && c >= 0.0 && 0.0 <= mass <= 1.0 && f >= 0.0 && l >= 0.0
    ensures 0.0 <= Mul(Mul(w, f), l) <= l * f * c
  {
    assert c * mass <= c * 1.0;
    assert w * f <= c * f;
    assert w * f >= 0.0;
    assert (w * f) * l <= (c * f) * l;
  }

  lemma TermBound(c: real, s: real, q: real, v: real)
    requires c > 0.0 && 0.0 < s <= 1.0 && 0.0 < q < 1.0 && v > 0.0
    ensures Mul(Mul(c, Mul(s, q)), v) <= Mul(Mul(c, q), v)
    ensures s < 1.0 ==> Mul(Mul(c, Mul(s, q)), v) < Mul(Mul(c, q), v)
  {
    var d := s * q;
    assert d <= q;
    var x, y := c * d, c * q;
    assert x <= y;
    assert x * v <= y * v;
    if s < 1.0 {
      assert d < q;
      assert x < y;
      assert x * v < y * v;
    }
  }

  lemma DiscountOne(r: real, b: real)
    requires b != 0.0
    ensures Mul(Mul(r, 1.0), 1.0 / (b * 1.0)) == r / b
  {
  }

  lemma PaymentBound(r: real, s: real, v: real, k: real)
    requires r >= 0.0 && 0.0 < s <= 1.0 && 0.0 < v <= 1.0
    ensures 0.0 <= Mul(Mul(r, s), v) <= r
    ensures Mul(r, k) + r == Mul(r, k + 1.0)
  {
    assert r * s <= r;
    assert r * s >= 0.0;
    assert (r * s) * v <= (r * s) * 1.0;
  }
}
