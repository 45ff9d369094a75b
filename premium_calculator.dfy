/** The class-based engine of models/premium_calculator.py: a calculator built
    once from a policy's parameters, whose methods read those parameters and
    the calculator's constant tables to price life, non-life and mandatory
    cover and to break the premium down into its parts. */
module Calculator {
  import opened Numeric
  import opened LifeFormulas

  /** The one exception a premium computation raises: the life (term) cover
      divides by an annuity factor that is 0 when the term is not positive. */
  datatype CalcError = ZeroDivision

  /** The dictionaries get_premium_breakdown returns, one shape per branch. */
  datatype Breakdown =
    | LifeBreakdown(basePremium: real, smokingSurcharge: real, healthSurcharge: real, totalPremium: real)
    | NonLifeBreakdown(basePremium: real, riskSurcharge: real, totalPremium: real)
    | MandatoryBreakdown(basePremium: real, totalPremium: real)

  /** `mortality_table['male'][i]`, in deaths per thousand. */
  function MaleMortality(i: int): real
    requires 0 <= i < 60
  {
    match i
    case 0 => 0.001
    case 1 => 0.001
    case 2 => 0.001
    case 3 => 0.001
    case 4 => 0.001
    case 5 => 0.001
    case 6 => 0.002
    case 7 => 0.002
    case 8 => 0.003
    case 9 => 0.003
    case 10 => 0.004
    case 11 => 0.004
    case 12 => 0.005
    case 13 => 0.006
    case 14 => 0.007
    case 15 => 0.008
    case 16 => 0.009
    case 17 => 0.011
    case 18 => 0.013
    case 19 => 0.015
    case 20 => 0.018
    case 21 => 0.021
    case 22 => 0.025
    case 23 => 0.029
    case 24 => 0.034
    case 25 => 0.04
    case 26 => 0.047
    case 27 => 0.055
    case 28 => 0.064
    case 29 => 0.075
    case 30 => 0.087
    case 31 => 0.101
    case 32 => 0.117
    case 33 => 0.135
    case 34 => 0.155
    case 35 => 0.178
    case 36 => 0.203
    case 37 => 0.231
    case 38 => 0.262
    case 39 => 0.296
    case 40 => 0.333
    case 41 => 0.374
    case 42 => 0.418
    case 43 => 0.466
    case 44 => 0.518
    case 45 => 0.574
    case 46 => 0.634
    case 47 => 0.698
    case 48 => 0.766
    case 49 => 0.838
    case 50 => 0.914
    case 51 => 0.994
    case 52 => 1.078
    case 53 => 1.166
    case 54 => 1.258
    case 55 => 1.354
    case 56 => 1.454
    case 57 => 1.558
    case 58 => 1.666
    case 59 => 1.778
    case _ => 0.0
  }

  /** `mortality_table['female'][i]`, in deaths per thousand. */
  function FemaleMortality(i: int): real
    requires 0 <= i < 60
  {
    match i
    case 0 => 0.001
    case 1 => 0.001
    case 2 => 0.001
    case 3 => 0.001
    case 4 => 0.001
    case 5 => 0.001
    case 6 => 0.001
    case 7 => 0.001
    case 8 => 0.002
    case 9 => 0.002
    case 10 => 0.002
    case 11 => 0.002
    case 12 => 0.003
    case 13 => 0.003
    case 14 => 0.004
    case 15 => 0.004
    case 16 => 0.005
    case 17 => 0.005
    case 18 => 0.006
    case 19 => 0.007
    case 20 => 0.008
    case 21 => 0.009
    case 22 => 0.01
    case 23 => 0.012
    case 24 => 0.014
    case 25 => 0.016
    case 26 => 0.019
    case 27 => 0.022
    case 28 => 0.026
    case 29 => 0.03
    case 30 => 0.035
    case 31 => 0.041
    case 32 => 0.048
    case 33 => 0.056
    case 34 => 0.065
    case 35 => 0.075
    case 36 => 0.087
    case 37 => 0.1
    case 38 => 0.115
    case 39 => 0.131
    case 40 => 0.149
    case 41 => 0.169
    case 42 => 0.191
    case 43 => 0.215
    case 44 => 0.241
    case 45 => 0.27
    case 46 => 0.301
    case 47 => 0.335
    case 48 => 0.371
    case 49 => 0.41
    case 50 => 0.452
    case 51 => 0.497
    case 52 => 0.545
    case 53 => 0.596
    case 54 => 0.65
    case 55 => 0.707
    case 56 => 0.767
    case 57 => 0.83
    case 58 => 0.896
    case 59 => 0.965
    case _ => 0.0
  }

  /** Every entry of the male list lies between 0.001 and 1.778 per
      thousand, and the list is non-decreasing. */
  lemma MaleMortalityBounds()
    ensures forall i :: 0 <= i < 60 ==> 0.001 <= MaleMortality(i) <= 1.778
    ensures forall i :: 0 <= i < 59 ==> MaleMortality(i) <= MaleMortality(i + 1)
  {
  }

  /** Every entry of the female list lies between 0.001 and 0.965 per
      thousand, and the list is non-decreasing. */
  lemma FemaleMortalityBounds()
    ensures forall i :: 0 <= i < 60 ==> 0.001 <= FemaleMortality(i) <= 0.965
    ensures forall i :: 0 <= i < 59 ==> FemaleMortality(i) <= FemaleMortality(i + 1)
  {
  }

  /** Both lists are non-decreasing over any pair of indices. */
  lemma {:induction false} MortalityTablesMonotone(i: int, j: int)
    requires 0 <= i <= j < 60
    ensures MaleMortality(i) <= MaleMortality(j)
    ensures FemaleMortality(i) <= FemaleMortality(j)
    decreases j - i
  {
    if i < j {
      MortalityTablesMonotone(i, j - 1);
      MaleMortalityBounds();
      FemaleMortalityBounds();
    }
  }

  // ---------------------------------------------------------------------
  // The life breakdown's surcharges
  // ---------------------------------------------------------------------

  /** `1.8` for a smoker, `1.0` otherwise: the smoking part of the loading. */
  function SmokingLoading(smoking: bool): real
  {
    Load(1.0, smoking, 1.8)
  }

  /** smoking_surcharge: `base × (1.8 - 1)` for a smoker, else 0. */
  function SmokingSurcharge(base: real, smoking: bool): real
  {
    if smoking then Mul(base, 1.8 - 1.0) else 0.0
  }

  /** health_surcharge as written: `base × (health factor - 1)`. */
  function HealthSurchargeAsWritten(base: real, healthFactor: real): real
  {
    Mul(base, healthFactor - 1.0)
  }

  /** The health surcharge that completes the decomposition: the health
      loading taken on the smoker-loaded base. */
  function HealthSurcharge(base: real, smoking: bool, healthFactor: real): real
  {
    Mul(Mul(base, SmokingLoading(smoking)), healthFactor - 1.0)
  }

  /** With the corrected health surcharge, base plus the two surcharges is
      exactly the base loaded by smoking and health. */
  lemma LifeSurchargesReconcile(base: real, smoking: bool, healthFactor: real)
    ensures base + SmokingSurcharge(base, smoking) + HealthSurcharge(base, smoking, healthFactor)
         == Mul(base, Mul(SmokingLoading(smoking), healthFactor))
  {
    var s := SmokingLoading(smoking);
    assert base + SmokingSurcharge(base, smoking) == base * s;
    assert base * s + (base * s) * (healthFactor - 1.0) == base * (s * healthFactor);
  }

  /** The surcharges as written add up to the loaded total only when the
      policy holder does not smoke, has a health factor of exactly 1, or the
      base is 0. */
  lemma LifeSurchargesAsWrittenReconcile(base: real, smoking: bool, healthFactor: real)
    ensures (base + SmokingSurcharge(base, smoking) + HealthSurchargeAsWritten(base, healthFactor)
             == Mul(base, Mul(SmokingLoading(smoking), healthFactor)))
        <==> (!smoking || healthFactor == 1.0 || base == 0.0)
  {
    var total := Mul(base, Mul(SmokingLoading(smoking), healthFactor));
    var parts := base + SmokingSurcharge(base, smoking) + HealthSurchargeAsWritten(base, healthFactor);
    var d := base * (healthFactor - 1.0);
    if smoking {
      assert total - parts == 0.8 * d;
      if base != 0.0 && healthFactor != 1.0 {
        NonZeroProduct(base, healthFactor - 1.0);
        assert total != parts;
      } else {
        assert d == 0.0;
      }
    } else {
      assert total == parts;
    }
  }

  /** As written, the parts fall short of the loaded total by exactly the
      smoking surcharge on the health surcharge. */
  lemma LifeSurchargesAsWrittenShortfall(base: real, smoking: bool, healthFactor: real)
    ensures base + SmokingSurcharge(base, smoking) + HealthSurchargeAsWritten(base, healthFactor)
            + SmokingSurcharge(HealthSurchargeAsWritten(base, healthFactor), smoking)
         == Mul(base, Mul(SmokingLoading(smoking), healthFactor))
  {
    var d := base * (healthFactor - 1.0);
    if smoking {
      assert base * (1.8 * healthFactor) == base + base * 0.8 + d + d * 0.8;
    } else {
      assert base * (1.0 * healthFactor) == base + d;
    }
  }

  /** A smoker with diabetes alone (health factor 1.5) on a base of 100:
      the parts as written add up to 230 while the total is 270. */
  lemma LifeSurchargesAsWrittenExample()
    ensures 100.0 + SmokingSurcharge(100.0, true) + HealthSurchargeAsWritten(100.0, 1.5) == 230.0
    ensures Mul(100.0, Mul(SmokingLoading(true), 1.5)) == 270.0
    ensures 100.0 + SmokingSurcharge(100.0, true) + HealthSurcharge(100.0, true, 1.5) == 270.0
  {
    LifeSurchargesReconcile(100.0, true, 1.5);
  }

  // ---------------------------------------------------------------------
  // The annuity factor and the term cover, for any curve
  // ---------------------------------------------------------------------

  /** The annuity factor over n years: the survival probability to year t
      (LifeFormulas.Survival from offset 0) times the discount factor
      `1 / (1 + i) ** t`, summed over t < n. */
  function AnnuityFactor(q: int -> real, i: real, n: nat): real
    requires i >= 0.0
  {
    if n == 0 then 0.0 else AnnuityFactor(q, i, n - 1) + Mul(Survival(q, 0, n - 1), Discount(i, n - 1))
  }

  /** The t = 0 term is exactly 1 and every later one lies in (0, 1], so
      the factor over n >= 1 years is between 1 and n; over no years it is
      0. */
  lemma {:induction false} AnnuityFactorBounds(q: int -> real, i: real, n: nat)
    requires IsMortalityCurve(q) && i >= 0.0
    ensures n == 0 ==> AnnuityFactor(q, i, n) == 0.0
    ensures n >= 1 ==> 1.0 <= AnnuityFactor(q, i, n) <= n as real
  {
    if n > 0 {
      AnnuityFactorBounds(q, i, n - 1);
      SurvivalBounds(q, 0, n - 1);
      var s, v := Survival(q, 0, n - 1), Discount(i, n - 1);
      assert 0.0 < s * v <= 1.0 by {
        assert s * v <= 1.0 * v;
      }
      if n == 1 {
        assert Mul(s, v) == 1.0;
      }
    }
  }

  /** The expected present value of the death benefit over n years:
      `q(t) × amount / (1 + i) ** (t + 1)`, summed over t < n. */
  function TermInsuranceValue(q: int -> real, amount: real, i: real, n: nat): real
    requires i >= 0.0
  {
    if n == 0 then 0.0
    else TermInsuranceValue(q, amount, i, n - 1) + Mul(Mul(q(n - 1), amount), Discount(i, n))
  }

  /** The benefit value is never negative for a non-negative amount. */
  lemma {:induction false} TermInsuranceValueNonNegative(q: int -> real, amount: real, i: real, n: nat)
    requires IsMortalityCurve(q) && amount >= 0.0 && i >= 0.0
    ensures TermInsuranceValue(q, amount, i, n) >= 0.0
  {
    if n > 0 {
      TermInsuranceValueNonNegative(q, amount, i, n - 1);
      MulNonNegative(q(n - 1), amount);
      MulNonNegative(Mul(q(n - 1), amount), Discount(i, n));
    }
  }

  /** One year of annuity is worth exactly 1: survival and discount are
      both 1 at t = 0. */
  lemma AnnuityFactorOneYear(q: int -> real, i: real)
    requires i >= 0.0
    ensures AnnuityFactor(q, i, 1) == 1.0
  {
    assert Survival(q, 0, 0) == 1.0 && Discount(i, 0) == 1.0;
  }

  /** One more year of annuity adds the survival probability `s` to year t,
      discounted t years. */
  lemma AnnuityFactorNext(q: int -> real, i: real, t: nat, f: real, s: real, v: real)
    requires i >= 0.0 && f == AnnuityFactor(q, i, t) && s == Survival(q, 0, t) && v == Discount(i, t)
    ensures f + s * v == AnnuityFactor(q, i, t + 1)
  {
  }

  /** The loop of calculate_annuity_factor (and of calculate_annuity_premium)
      over the curve q: the survival probability is carried from year to
      year and each year adds survival times `1 / (1 + i) ** t`. */
  method AnnuityFactorLoop(q: int -> real, i: real, n: nat) returns (annuityFactor: real)
    requires i >= 0.0
    ensures annuityFactor == AnnuityFactor(q, i, n)
  {
    annuityFactor := 0.0;
    var survivalProbability := 1.0;
    for t := 0 to n
      invariant annuityFactor == AnnuityFactor(q, i, t)
      invariant survivalProbability == Survival(q, 0, if t == 0 then 0 else t - 1)
    {
      if t > 0 {
        SurvivalNext(q, 0, t - 1, survivalProbability);
        var mortalityRatePrev := q(t - 1);
        survivalProbability := survivalProbability * (1.0 - mortalityRatePrev);
      }
      var discountFactor := Discount(i, t);
      AnnuityFactorNext(q, i, t, annuityFactor, survivalProbability, discountFactor);
      annuityFactor := annuityFactor + survivalProbability * discountFactor;
    }
  }

  /** The loop of calculate_life_insurance over the curve q: each year adds
      `q(t) × amount / (1 + i) ** (t + 1)`. */
  method TermInsuranceLoop(q: int -> real, amount: real, i: real, n: nat) returns (premium: real)
    requires i >= 0.0
    ensures premium == TermInsuranceValue(q, amount, i, n)
  {
    premium := 0.0;
    for t := 0 to n
      invariant premium == TermInsuranceValue(q, amount, i, t)
    {
      var mortalityRateT := q(t);
      var discountFactor := Discount(i, t + 1);
      Mul3(mortalityRateT, amount, discountFactor);
      premium := premium + mortalityRateT * amount * discountFactor;
    }
  }

  // ---------------------------------------------------------------------
  // The calculator
  // ---------------------------------------------------------------------

  /** PremiumCalculator: the policy's parameters, fixed at construction, and
      the constant rate tables. `risk_factors` is the dictionary's items in
      iteration order with each value's truth value; an absent dictionary is
      the empty sequence. */
  class PremiumCalculator {
    const age: int
    const gender: string
    const coverageType: string
    const insuranceBranch: string
    const coverageAmount: real
    const term: int
    const smokingStatus: bool
    const healthConditions: seq<string>
    const riskFactors: seq<(string, bool)>

    /** The technical interest rate, 3%. */
    const interestRate: real := 0.03

    /** Loadings by health condition. */
    const healthRiskFactors: map<string, real> :=
      map["hypertension" := 1.2, "diabetes" := 1.5, "heart_disease" := 2.0,
          "cancer" := 2.5, "asthma" := 1.1, "none" := 1.0]

    /** Loadings by non-life risk. */
    const nonLifeRiskFactors: map<string, real> :=
      map["accident" := 1.3, "theft" := 1.5, "natural_disaster" := 2.0,
          "liability" := 1.8, "professional" := 2.2]

    /** Rates by mandatory cover type. */
    const mandatoryInsuranceRates: map<string, real> :=
      map["auto_liability" := 0.025, "health" := 0.015, "professional" := 0.02, "home" := 0.01]

    constructor(age: int, gender: string, coverageType: string, insuranceBranch: string,
                coverageAmount: real, term: int, smokingStatus: bool,
                healthConditions: seq<string>, riskFactors: seq<(string, bool)>)
      ensures this.age == age && this.gender == gender && this.coverageType == coverageType
      ensures this.insuranceBranch == insuranceBranch && this.coverageAmount == coverageAmount
      ensures this.term == term && this.smokingStatus == smokingStatus
      ensures this.healthConditions == healthConditions && this.riskFactors == riskFactors
    {
      this.age := age;
      this.gender := gender;
      this.coverageType := coverageType;
      this.insuranceBranch := insuranceBranch;
      this.coverageAmount := coverageAmount;
      this.term := term;
      this.smokingStatus := smokingStatus;
      this.healthConditions := healthConditions;
      this.riskFactors := riskFactors;
    }

    // ---- mortality ------------------------------------------------------

    /** get_mortality_rate: the entry at `age + offset - 18` clamped to
        [0, 59], from the male list when the gender is exactly "male" and
        from the female list otherwise, per thousand. */
    function GetMortalityRate(ageOffset: int): (q: real)
      ensures 0.000001 <= q <= 0.001778
    {
      MaleMortalityBounds();
      FemaleMortalityBounds();
      (if gender == "male" then MaleMortality(Clamp(0, 59, age + ageOffset - 18))
       else FemaleMortality(Clamp(0, 59, age + ageOffset - 18))) / 1000.0
    }

    /** The rate never falls as the offset grows. */
    lemma MortalityRateMonotone(o1: int, o2: int)
      requires o1 <= o2
      ensures GetMortalityRate(o1) <= GetMortalityRate(o2)
    {
      MortalityTablesMonotone(Clamp(0, 59, age + o1 - 18), Clamp(0, 59, age + o2 - 18));
    }

    /** From age 77 on the last entry is used: 1.778 per thousand for men,
        0.965 for everyone else. */
    lemma MortalityRateCapped(ageOffset: int)
      requires age + ageOffset >= 77
      ensures gender == "male" ==> GetMortalityRate(ageOffset) == 0.001778
      ensures gender != "male" ==> GetMortalityRate(ageOffset) == 0.000965
    {
    }

    // ---- the annuity factor ---------------------------------------------

    /** The number of years `range(self.term)` runs over. */
    function Years(): nat
    {
      if term > 0 then term else 0
    }

    /** get_mortality_rate is a mortality curve over offsets. */
    lemma RatesAreMortalityCurve()
      ensures IsMortalityCurve(GetMortalityRate)
    {
      forall o ensures 0.0 < GetMortalityRate(o) < 1.0 {
      }
    }

    /** calculate_annuity_factor */
    method CalculateAnnuityFactor() returns (annuityFactor: real)
      ensures annuityFactor == AnnuityFactor(GetMortalityRate, interestRate, Years())
    {
      annuityFactor := AnnuityFactorLoop(GetMortalityRate, interestRate, Years());
    }

    // ---- life cover -----------------------------------------------------

    /** calculate_life_insurance: the benefit value spread over the annuity
        factor, which is a division by zero when the term is not positive. */
    function LifeInsuranceOutcome(): Result<real, CalcError>
    {
      if Years() == 0 then Err(ZeroDivision)
      else
        RatesAreMortalityCurve();
        AnnuityFactorBounds(GetMortalityRate, interestRate, Years());
        Ok(TermInsuranceValue(GetMortalityRate, coverageAmount, interestRate, Years())
           / AnnuityFactor(GetMortalityRate, interestRate, Years()))
    }

    /** calculate_life_insurance */
    method CalculateLifeInsurance() returns (res: Result<real, CalcError>)
      ensures res == LifeInsuranceOutcome()
    {
      var premium := TermInsuranceLoop(GetMortalityRate, coverageAmount, interestRate, Years());
      var annuityFactor := CalculateAnnuityFactor();
      RatesAreMortalityCurve();
      AnnuityFactorBounds(GetMortalityRate, interestRate, Years());
      if annuityFactor == 0.0 {
        return Err(ZeroDivision);
      }
      return Ok(premium / annuityFactor);
    }

    /** The life cover fails exactly when the term is not positive. */
    lemma LifeInsuranceErrors()
      ensures LifeInsuranceOutcome().Err? <==> term <= 0
    {
    }

    /** Over a single year the annuity factor is 1, so the premium is the
        discounted expected benefit `q(0) × amount / 1.03`. */
    lemma LifeInsuranceOneYear()
      requires term == 1
      ensures LifeInsuranceOutcome() == Ok(Mul(Mul(GetMortalityRate(0), coverageAmount), Discount(interestRate, 1)))
    {
      AnnuityFactorOneYear(GetMortalityRate, interestRate);
      var v := Mul(Mul(GetMortalityRate(0), coverageAmount), Discount(interestRate, 1));
      assert TermInsuranceValue(GetMortalityRate, coverageAmount, interestRate, 1) == v;
      assert v / 1.0 == v;
    }

    /** The life-cover premium is never negative for a non-negative amount. */
    lemma LifeInsuranceNonNegative()
      requires coverageAmount >= 0.0 && term > 0
      ensures LifeInsuranceOutcome().Ok? && LifeInsuranceOutcome().value >= 0.0
    {
      RatesAreMortalityCurve();
      TermInsuranceValueNonNegative(GetMortalityRate, coverageAmount, interestRate, Years());
      AnnuityFactorBounds(GetMortalityRate, interestRate, Years());
    }

    // ---- health and annuity cover ---------------------------------------

    /** calculate_health_insurance: 0.5% of the cover, moved by 3% of that
        for each year of age above (or below) 30. */
    function CalculateHealthInsurance(): (premium: real)
      ensures premium == coverageAmount * 0.005 + (age - 30) as real * (coverageAmount * 0.00015)
      ensures age == 30 ==> premium == coverageAmount * 0.005
      ensures coverageAmount >= 0.0 && age >= 30 ==> premium >= coverageAmount * 0.005
    {
      var baseRate := 0.005;
      var ageFactor := 1.0 + (age - 30) as real * 0.03;
      coverageAmount * baseRate * ageFactor
    }

    /** calculate_annuity_premium: the annuity factor's loop, scaled by the
        amount. */
    method CalculateAnnuityPremium() returns (premium: real)
      ensures premium == Mul(coverageAmount, AnnuityFactor(GetMortalityRate, interestRate, Years()))
    {
      var annuityValue := AnnuityFactorLoop(GetMortalityRate, interestRate, Years());
      premium := coverageAmount * annuityValue;
    }

    /** The single annuity premium lies between the amount and the amount
        times the number of years. */
    lemma AnnuityPremiumBounds()
      requires coverageAmount >= 0.0 && term >= 1
      ensures coverageAmount <= Mul(coverageAmount, AnnuityFactor(GetMortalityRate, interestRate, Years())) <= coverageAmount * term as real
    {
      RatesAreMortalityCurve();
      AnnuityFactorBounds(GetMortalityRate, interestRate, Years());
      ScaleBetween(coverageAmount, AnnuityFactor(GetMortalityRate, interestRate, Years()), term as real);
    }

    // ---- life risk factors ----------------------------------------------

    /** `health_risk_factors.get(condition, 1.0)` */
    function HealthLoading(condition: string): (f: real)
      ensures 1.0 <= f <= 2.5
    {
      if condition in healthRiskFactors then healthRiskFactors[condition] else 1.0
    }

    /** `start` multiplied by the loading of each condition in turn. */
    function LoadConditions(start: real, conditions: seq<string>): real
    {
      if conditions == [] then start
      else Mul(LoadConditions(start, conditions[..|conditions| - 1]), HealthLoading(conditions[|conditions| - 1]))
    }

    /** get_health_factor's value: the product of the condition loadings. */
    function HealthFactor(): real
    {
      LoadConditions(1.0, healthConditions)
    }

    /** get_risk_factor's value: 1.8 for a smoker, then each condition. */
    function RiskFactor(): real
    {
      LoadConditions(SmokingLoading(smokingStatus), healthConditions)
    }

    /** get_health_factor */
    method GetHealthFactor() returns (healthFactor: real)
      ensures healthFactor == HealthFactor()
    {
      healthFactor := 1.0;
      for i := 0 to |healthConditions|
        invariant healthFactor == LoadConditions(1.0, healthConditions[..i])
      {
        assert healthConditions[..i + 1][..i] == healthConditions[..i];
        healthFactor := healthFactor * HealthLoading(healthConditions[i]);
      }
      assert healthConditions[..|healthConditions|] == healthConditions;
    }

    /** get_risk_factor */
    method GetRiskFactor() returns (riskFactor: real)
      ensures riskFactor == RiskFactor()
    {
      riskFactor := 1.0;
      if smokingStatus {
        riskFactor := riskFactor * 1.8;
      }
      for i := 0 to |healthConditions|
        invariant riskFactor == LoadConditions(SmokingLoading(smokingStatus), healthConditions[..i])
      {
        assert healthConditions[..i + 1][..i] == healthConditions[..i];
        riskFactor := riskFactor * HealthLoading(healthConditions[i]);
      }
      assert healthConditions[..|healthConditions|] == healthConditions;
    }

    /** Loading conditions onto a start value scales their product by it. */
    lemma {:induction false} LoadConditionsScales(start: real, conditions: seq<string>)
      ensures LoadConditions(start, conditions) == Mul(start, LoadConditions(1.0, conditions))
      decreases |conditions|
    {
      if conditions != [] {
        var prefix := conditions[..|conditions| - 1];
        LoadConditionsScales(start, prefix);
        MulAssoc(start, LoadConditions(1.0, prefix), HealthLoading(conditions[|conditions| - 1]));
      }
    }

    /** Loading conditions never brings a non-negative value down. */
    lemma {:induction false} LoadConditionsAtLeast(start: real, conditions: seq<string>)
      requires start >= 0.0
      ensures LoadConditions(start, conditions) >= start
      decreases |conditions|
    {
      if conditions != [] {
        var prefix := conditions[..|conditions| - 1];
        LoadConditionsAtLeast(start, prefix);
        var p, f := LoadConditions(start, prefix), HealthLoading(conditions[|conditions| - 1]);
        assert p * f >= p * 1.0;
      }
    }

    /** A condition the table does not know counts as 1.0. */
    lemma UnknownConditionIgnored(start: real, conditions: seq<string>, condition: string)
      requires condition !in healthRiskFactors
      ensures LoadConditions(start, conditions + [condition]) == LoadConditions(start, conditions)
    {
      assert (conditions + [condition])[..|conditions|] == conditions;
    }

    /** The risk factor is the smoking part times the health factor, and
        both are at least 1. */
    lemma RiskFactorSplits()
      ensures RiskFactor() == Mul(SmokingLoading(smokingStatus), HealthFactor())
      ensures HealthFactor() >= 1.0 && RiskFactor() >= SmokingLoading(smokingStatus) >= 1.0
    {
      LoadConditionsScales(SmokingLoading(smokingStatus), healthConditions);
      LoadConditionsAtLeast(1.0, healthConditions);
      LoadConditionsAtLeast(SmokingLoading(smokingStatus), healthConditions);
    }

    /** A smoker with diabetes alone is loaded by 1.8 × 1.5 = 2.7. */
    lemma SmokingDiabeticRiskFactor()
      requires smokingStatus && healthConditions == ["diabetes"]
      ensures HealthFactor() == 1.5 && RiskFactor() == 2.7
    {
      assert healthConditions[..0] == [];
      assert "diabetes" in healthRiskFactors && healthRiskFactors["diabetes"] == 1.5;
      assert HealthLoading("diabetes") == 1.5;
      assert SmokingLoading(smokingStatus) == 1.8;
      assert LoadConditions(1.0, healthConditions) == Mul(1.0, 1.5);
      assert LoadConditions(1.8, healthConditions) == Mul(1.8, 1.5);
    }

    // ---- life branch ----------------------------------------------------

    /** The base premium of calculate_life_insurance_premium: "life" selects
        the term cover, "health" the health cover and any other type the
        annuity. */
    function LifeBasePremium(): Result<real, CalcError>
    {
      if coverageType == "life" then LifeInsuranceOutcome()
      else if coverageType == "health" then Ok(CalculateHealthInsurance())
      else Ok(Mul(coverageAmount, AnnuityFactor(GetMortalityRate, interestRate, Years())))
    }

    /** calculate_life_insurance_premium: the base premium times the risk
        factor. */
    function LifePremium(): Result<real, CalcError>
    {
      match LifeBasePremium()
      case Err(e) => Err(e)
      case Ok(base) => Ok(Mul(base, RiskFactor()))
    }

    /** calculate_life_insurance_premium */
    method CalculateLifeInsurancePremium() returns (res: Result<real, CalcError>)
      ensures res == LifePremium()
    {
      var basePremium: real;
      if coverageType == "life" {
        var r := CalculateLifeInsurance();
        if r.Err? {
          return Err(r.error);
        }
        basePremium := r.value;
      } else if coverageType == "health" {
        basePremium := CalculateHealthInsurance();
      } else {
        basePremium := CalculateAnnuityPremium();
      }
      assert LifeBasePremium() == Ok(basePremium);
      var riskFactor := GetRiskFactor();
      MulDef(basePremium, riskFactor);
      var finalPremium := basePremium * riskFactor;
      return Ok(finalPremium);
    }

    /** The life premium fails only for the term cover over no year, and
        otherwise never falls below a non-negative base premium. */
    lemma LifePremiumLoaded()
      ensures LifePremium().Err? <==> coverageType == "life" && term <= 0
      ensures LifePremium().Ok? ==>
        (LifeBasePremium().Ok?
         && LifePremium().value == Mul(LifeBasePremium().value, Mul(SmokingLoading(smokingStatus), HealthFactor())))
      ensures LifePremium().Ok? && LifeBasePremium().value >= 0.0 ==> LifePremium().value >= LifeBasePremium().value
    {
      RiskFactorSplits();
      if LifeBasePremium().Ok? {
        var b := LifeBasePremium().value;
        assert b >= 0.0 ==> b * RiskFactor() >= b * 1.0;
      }
    }

    // ---- non-life branch ------------------------------------------------

    /** `non_life_risk_factors.get(risk, 1.0)` */
    function NonLifeRiskLoading(risk: string): (f: real)
      ensures 1.0 <= f <= 2.2
    {
      if risk in nonLifeRiskFactors then nonLifeRiskFactors[risk] else 1.0
    }

    /** The loop over `risk_factors.items()`: each truthy item multiplies in
        its risk's loading. */
    function FlaggedRiskLoadings(items: seq<(string, bool)>): real
    {
      if items == [] then 1.0
      else Load(FlaggedRiskLoadings(items[..|items| - 1]), items[|items| - 1].1, NonLifeRiskLoading(items[|items| - 1].0))
    }

    /** `self.coverage_type in ['auto', 'accident']` */
    predicate AgeLoaded()
    {
      coverageType == "auto" || coverageType == "accident"
    }

    /** `base_rates.get(self.coverage_type, 0.003)` */
    function NonLifeBaseRate(): real
    {
      var baseRates := map["auto" := 0.04, "home" := 0.002, "accident" := 0.0015,
                           "liability" := 0.003, "travel" := 0.005];
      if coverageType in baseRates then baseRates[coverageType] else 0.003
    }

    /** calculate_non_life_insurance_premium: amount × base rate × the
        flagged loadings, times an age factor (1.5 under 25, 1.3 over 65, 1
        otherwise) for auto and accident cover. */
    function NonLifePremium(): real
    {
      var riskFactor := FlaggedRiskLoadings(riskFactors);
      var ageFactor := if age < 25 then 1.5 else if age > 65 then 1.3 else 1.0;
      Mul(Mul(coverageAmount, NonLifeBaseRate()), if AgeLoaded() then Mul(riskFactor, ageFactor) else riskFactor)
    }

    /** get_non_life_risk_factor's value: the flagged loadings, then 1.5
        under 25 or 1.3 over 65 for auto and accident cover. */
    function NonLifeRiskFactor(): real
    {
      var riskFactor := FlaggedRiskLoadings(riskFactors);
      if !AgeLoaded() then riskFactor
      else if age < 25 then Mul(riskFactor, 1.5)
      else if age > 65 then Mul(riskFactor, 1.3)
      else riskFactor
    }

    /** The loop over `risk_factors.items()`, shared by the two non-life
        methods. */
    method FlaggedRiskLoop() returns (riskFactor: real)
      ensures riskFactor == FlaggedRiskLoadings(riskFactors)
    {
      riskFactor := 1.0;
      for i := 0 to |riskFactors|
        invariant riskFactor == FlaggedRiskLoadings(riskFactors[..i])
      {
        assert riskFactors[..i + 1][..i] == riskFactors[..i];
        var (risk, value) := riskFactors[i];
        if value {
          riskFactor := riskFactor * NonLifeRiskLoading(risk);
        }
      }
      assert riskFactors[..|riskFactors|] == riskFactors;
    }

    /** calculate_non_life_insurance_premium */
    method CalculateNonLifeInsurancePremium() returns (premium: real)
      ensures premium == NonLifePremium()
    {
      var baseRate := NonLifeBaseRate();
      var basePremium := coverageAmount * baseRate;
      var riskFactor := FlaggedRiskLoop();
      if AgeLoaded() {
        var ageFactor := 1.0;
        if age < 25 {
          ageFactor := 1.5;
        } else if age > 65 {
          ageFactor := 1.3;
        }
        riskFactor := riskFactor * ageFactor;
      }
      premium := basePremium * riskFactor;
    }

    /** get_non_life_risk_factor */
    method GetNonLifeRiskFactor() returns (riskFactor: real)
      ensures riskFactor == NonLifeRiskFactor()
    {
      riskFactor := FlaggedRiskLoop();
      if AgeLoaded() {
        if age < 25 {
          riskFactor := riskFactor * 1.5;
        } else if age > 65 {
          riskFactor := riskFactor * 1.3;
        }
      }
    }

    /** The flagged loadings are each at least 1, so their product is. */
    lemma {:induction false} FlaggedRiskLoadingsAtLeastOne(items: seq<(string, bool)>)
      ensures FlaggedRiskLoadings(items) >= 1.0
      decreases |items|
    {
      if items != [] {
        FlaggedRiskLoadingsAtLeastOne(items[..|items| - 1]);
        var p, f := FlaggedRiskLoadings(items[..|items| - 1]), NonLifeRiskLoading(items[|items| - 1].0);
        assert p * f >= p * 1.0;
      }
    }

    /** The premium is amount × base rate × get_non_life_risk_factor(), and
        that factor is at least 1. */
    lemma NonLifePremiumUsesRiskFactor()
      ensures NonLifePremium() == Mul(Mul(coverageAmount, NonLifeBaseRate()), NonLifeRiskFactor())
      ensures NonLifeRiskFactor() >= 1.0
    {
      var f := FlaggedRiskLoadings(riskFactors);
      FlaggedRiskLoadingsAtLeastOne(riskFactors);
      assert f * 1.5 >= f && f * 1.3 >= f;
    }

    /** A driver under 25 with no flagged risk pays 4% of the value, loaded
        by half. */
    lemma YoungDriverNonLife()
      requires coverageType == "auto" && age < 25 && riskFactors == []
      ensures NonLifePremium() == Mul(Mul(coverageAmount, 0.04), 1.5)
    {
    }

    // ---- mandatory branch -----------------------------------------------

    /** calculate_mandatory_insurance_premium: the four named types use their
        table rate, any other type 1.5% (the lookup's own default of 2% is
        never used). */
    function CalculateMandatoryInsurancePremium(): (premium: real)
      ensures coverageType in mandatoryInsuranceRates ==> premium == coverageAmount * mandatoryInsuranceRates[coverageType]
      ensures coverageType !in mandatoryInsuranceRates ==> premium == coverageAmount * 0.015
    {
      var baseRate := if coverageType in mandatoryInsuranceRates then mandatoryInsuranceRates[coverageType] else 0.02;
      if coverageType == "auto_liability" then coverageAmount * baseRate
      else if coverageType == "health" then coverageAmount * baseRate
      else if coverageType == "professional" then coverageAmount * baseRate
      else if coverageType == "home" then coverageAmount * baseRate
      else coverageAmount * 0.015
    }

    /** The rates of the four named types, and the lookup default that the
        fallback branch overrides. */
    lemma MandatoryRates()
      ensures coverageType == "auto_liability" ==> CalculateMandatoryInsurancePremium() == coverageAmount * 0.025
      ensures coverageType == "health" ==> CalculateMandatoryInsurancePremium() == coverageAmount * 0.015
      ensures coverageType == "professional" ==> CalculateMandatoryInsurancePremium() == coverageAmount * 0.02
      ensures coverageType == "home" ==> CalculateMandatoryInsurancePremium() == coverageAmount * 0.01
      ensures coverageType !in mandatoryInsuranceRates && coverageAmount != 0.0
        ==> CalculateMandatoryInsurancePremium() != coverageAmount * 0.02
    {
    }

    // ---- routing --------------------------------------------------------

    /** calculate_premium: "vie" is life, "non_vie" non-life, and any other
        branch mandatory. */
    function Premium(): Result<real, CalcError>
    {
      if insuranceBranch == "vie" then LifePremium()
      else if insuranceBranch == "non_vie" then Ok(NonLifePremium())
      else Ok(CalculateMandatoryInsurancePremium())
    }

    /** calculate_premium */
    method CalculatePremium() returns (res: Result<real, CalcError>)
      ensures res == Premium()
    {
      if insuranceBranch == "vie" {
        res := CalculateLifeInsurancePremium();
      } else if insuranceBranch == "non_vie" {
        var p := CalculateNonLifeInsurancePremium();
        res := Ok(p);
      } else {
        res := Ok(CalculateMandatoryInsurancePremium());
      }
    }

    /** Only the life branch's term cover over no year fails. */
    lemma PremiumErrors()
      ensures Premium().Err? <==> insuranceBranch == "vie" && coverageType == "life" && term <= 0
    {
      LifePremiumLoaded();
    }

    // ---- breakdown ------------------------------------------------------

    /** get_premium_breakdown as written: for life the health surcharge is
        taken on the unloaded base. */
    function BreakdownOutcome(): Result<Breakdown, CalcError>
    {
      match Premium()
      case Err(e) => Err(e)
      case Ok(total) =>
        if insuranceBranch == "vie" then
          RiskFactorSplits();
          var base := total / RiskFactor();
          Ok(LifeBreakdown(Round2(base), Round2(SmokingSurcharge(base, smokingStatus)),
                           Round2(HealthSurchargeAsWritten(base, HealthFactor())), Round2(total)))
        else if insuranceBranch == "non_vie" then
          NonLifePremiumUsesRiskFactor();
          var base := total / NonLifeRiskFactor();
          Ok(NonLifeBreakdown(Round2(base), Round2(total - base), Round2(total)))
        else
          Ok(MandatoryBreakdown(Round2(total), Round2(total)))
    }

    /** The breakdown with the life health surcharge taken on the
        smoker-loaded base, so that the life parts add up to the total; the
        other branches are as written. */
    function CorrectedBreakdownOutcome(): Result<Breakdown, CalcError>
    {
      if insuranceBranch == "vie" && Premium().Ok? then
        RiskFactorSplits();
        var total := Premium().value;
        var base := total / RiskFactor();
        Ok(LifeBreakdown(Round2(base), Round2(SmokingSurcharge(base, smokingStatus)),
                         Round2(HealthSurcharge(base, smokingStatus, HealthFactor())), Round2(total)))
      else
        BreakdownOutcome()
    }

    /** get_premium_breakdown */
    method GetPremiumBreakdown() returns (res: Result<Breakdown, CalcError>)
      ensures res == BreakdownOutcome()
    {
      var premium := CalculatePremium();
      if premium.Err? {
        return Err(premium.error);
      }
      if insuranceBranch == "vie" {
        var riskFactor := GetRiskFactor();
        RiskFactorSplits();
        var basePremium := premium.value / riskFactor;
        var smokingSurcharge := if smokingStatus then basePremium * (1.8 - 1.0) else 0.0;
        var healthFactor := GetHealthFactor();
        var healthSurcharge := HealthSurchargeAsWritten(basePremium, healthFactor);
        var total := CalculatePremium();
        return Ok(LifeBreakdown(Round2(basePremium), Round2(smokingSurcharge), Round2(healthSurcharge), Round2(total.value)));
      } else if insuranceBranch == "non_vie" {
        var riskFactor := GetNonLifeRiskFactor();
        NonLifePremiumUsesRiskFactor();
        var basePremium := premium.value / riskFactor;
        var total := CalculatePremium();
        return Ok(NonLifeBreakdown(Round2(basePremium), Round2(total.value - basePremium), Round2(total.value)));
      } else {
        var total := CalculatePremium();
        return Ok(MandatoryBreakdown(Round2(premium.value), Round2(total.value)));
      }
    }

    /** The breakdown as written. The base is the premium before loading:
        the life base premium, or amount × base rate for non-life. The
        non-life and mandatory parts add up to the total within rounding;
        the life parts fall short of the total by the smoking surcharge on
        the health surcharge, so they add up only for a non-smoker, a health
        factor of 1 or a zero base. */
    lemma BreakdownReconciles()
      ensures BreakdownOutcome().Err? <==> Premium().Err?
      ensures BreakdownOutcome().Ok? && insuranceBranch == "vie" ==>
        var b := BreakdownOutcome().value;
        b.LifeBreakdown? && LifeBasePremium().Ok?
        && var b0 := LifeBasePremium().value;
        b.basePremium == Round2(b0)
        && b.smokingSurcharge == Round2(SmokingSurcharge(b0, smokingStatus))
        && b.healthSurcharge == Round2(HealthSurchargeAsWritten(b0, HealthFactor()))
        && b.totalPremium == Round2(Mul(b0, Mul(SmokingLoading(smokingStatus), HealthFactor())))
        && -0.02 <= b.basePremium + b.smokingSurcharge + b.healthSurcharge
                    + SmokingSurcharge(HealthSurchargeAsWritten(b0, HealthFactor()), smokingStatus)
                    - b.totalPremium <= 0.02
        && ((!smokingStatus || HealthFactor() == 1.0 || b0 == 0.0) ==>
              -0.02 <= b.basePremium + b.smokingSurcharge + b.healthSurcharge - b.totalPremium <= 0.02)
      ensures BreakdownOutcome().Ok? && insuranceBranch == "non_vie" ==>
        var b := BreakdownOutcome().value;
        b.NonLifeBreakdown? && b.basePremium == Round2(Mul(coverageAmount, NonLifeBaseRate()))
        && -0.01 <= b.basePremium + b.riskSurcharge - b.totalPremium <= 0.01
      ensures BreakdownOutcome().Ok? && insuranceBranch != "vie" && insuranceBranch != "non_vie" ==>
        var b := BreakdownOutcome().value;
        b.MandatoryBreakdown? && b.basePremium == b.totalPremium
    {
      if Premium().Ok? {
        var total := Premium().value;
        if insuranceBranch == "vie" {
          RiskFactorSplits();
          LifePremiumLoaded();
          var b0 := LifeBasePremium().value;
          MulDivCancel(b0, RiskFactor());
          var base := total / RiskFactor();
          assert base == b0;
          var h := HealthSurchargeAsWritten(b0, HealthFactor());
          LifeSurchargesAsWrittenShortfall(b0, smokingStatus, HealthFactor());
          if !smokingStatus || HealthFactor() == 1.0 || b0 == 0.0 {
            assert SmokingSurcharge(h, smokingStatus) == 0.0;
          }
        } else if insuranceBranch == "non_vie" {
          NonLifePremiumUsesRiskFactor();
          MulDivCancel(Mul(coverageAmount, NonLifeBaseRate()), NonLifeRiskFactor());
          var base := total / NonLifeRiskFactor();
          Round2SumWithinCent(base, total - base);
          assert base + (total - base) == total;
        }
      }
    }

    /** The corrected breakdown differs from the one written only in the
        life health surcharge, and its life parts add up to the total within
        2 cents. */
    lemma CorrectedBreakdownReconciles()
      ensures insuranceBranch != "vie" ==> CorrectedBreakdownOutcome() == BreakdownOutcome()
      ensures CorrectedBreakdownOutcome().Err? <==> Premium().Err?
      ensures CorrectedBreakdownOutcome().Ok? && insuranceBranch == "vie" ==>
        var b := CorrectedBreakdownOutcome().value;
        b.LifeBreakdown? && LifeBasePremium().Ok?
        && var b0 := LifeBasePremium().value;
        b.basePremium == Round2(b0)
        && b.smokingSurcharge == Round2(SmokingSurcharge(b0, smokingStatus))
        && b.healthSurcharge == Round2(HealthSurcharge(b0, smokingStatus, HealthFactor()))
        && b.totalPremium == Round2(Mul(b0, Mul(SmokingLoading(smokingStatus), HealthFactor())))
        && -0.02 <= b.basePremium + b.smokingSurcharge + b.healthSurcharge - b.totalPremium <= 0.02
    {
      if Premium().Ok? && insuranceBranch == "vie" {
        RiskFactorSplits();
        LifePremiumLoaded();
        var b0 := LifeBasePremium().value;
        MulDivCancel(b0, RiskFactor());
        assert Premium().value / RiskFactor() == b0;
        LifeSurchargesReconcile(b0, smokingStatus, HealthFactor());
      }
    }

    /** A 30-year-old smoker with diabetes alone, on a health cover of
        20000: the breakdown as written shows 100 + 80 + 50 against a total
        of 270, the corrected one 100 + 80 + 90. */
    lemma SmokingDiabeticBreakdown()
      requires insuranceBranch == "vie" && coverageType == "health" && age == 30
      requires coverageAmount == 20000.0 && smokingStatus && healthConditions == ["diabetes"]
      ensures BreakdownOutcome() == Ok(LifeBreakdown(100.0, 80.0, 50.0, 270.0))
      ensures CorrectedBreakdownOutcome() == Ok(LifeBreakdown(100.0, 80.0, 90.0, 270.0))
    {
      SmokingDiabeticRiskFactor();
      assert CalculateHealthInsurance() == 100.0;
      assert LifeBasePremium() == Ok(100.0);
      assert Premium() == Ok(270.0);
      assert 270.0 / RiskFactor() == 100.0;
      Round2OfCents(100.0);
      Round2OfCents(80.0);
      Round2OfCents(50.0);
      Round2OfCents(90.0);
      Round2OfCents(270.0);
    }
  }
}
