/** The request-level premium functions of the web engine (app.py): the life
    orchestrator with its validation order and risk loadings, the non-life
    premium and the mandatory premium. Request values arrive already typed:
    amounts, rates and factors as reals, the age as a whole number of years,
    the yes/no options as the JSON values the client sent. */
module WebEngine {
  import opened Numeric
  import opened Mortality
  import opened LifeFormulas

  // ---------------------------------------------------------------------
  // Option flags
  // ---------------------------------------------------------------------

  /** A JSON value as decoded into Python: null, a boolean, an integer, a
      float, a string, or a list or object (which equals none of the others). */
  datatype JsonValue = JNull | JBool(b: bool) | JInt(i: int) | JFloat(x: real) | JString(s: string) | JOther

  /** The numeric value of a bool, int or float (True is 1 and False is 0). */
  function NumericValue(v: JsonValue): real
    requires v.JBool? || v.JInt? || v.JFloat?
  {
    match v
    case JBool(b) => if b then 1.0 else 0.0
    case JInt(i) => i as real
    case JFloat(x) => x
  }

  /** Python's `==` between decoded JSON values: numbers compare by value
      across bool, int and float; strings by contents; None only to None. */
  predicate PyEq(u: JsonValue, v: JsonValue)
  {
    if (u.JBool? || u.JInt? || u.JFloat?) && (v.JBool? || v.JInt? || v.JFloat?) then
      NumericValue(u) == NumericValue(v)
    else if u.JString? && v.JString? then u.s == v.s
    else u.JNull? && v.JNull?
  }

  /** Python's `v in l` on a list: some element equals v. */
  predicate PyIn(v: JsonValue, l: seq<JsonValue>)
  {
    l != [] && (PyEq(v, l[0]) || PyIn(v, l[1..]))
  }

  /** get_safe_bool: `value in [True, 'true', '1', 1]`. */
  function GetSafeBool(v: JsonValue): bool
  {
    PyIn(v, [JBool(true), JString("true"), JString("1"), JInt(1)])
  }

  /** Exactly five decoded values pass get_safe_bool: True, 1, 1.0, "true"
      and "1" (1 and 1.0 equal True in Python). */
  lemma GetSafeBoolAccepts(v: JsonValue)
    ensures GetSafeBool(v) <==> (v == JBool(true) || v == JInt(1) || v == JFloat(1.0)
                                 || v == JString("true") || v == JString("1"))
  {
    var l0 := [JBool(true), JString("true"), JString("1"), JInt(1)];
    var l1 := [JString("true"), JString("1"), JInt(1)];
    var l2 := [JString("1"), JInt(1)];
    var l3 := [JInt(1)];
    assert l0[1..] == l1 && l1[1..] == l2 && l2[1..] == l3 && l3[1..] == [];
    assert PyIn(v, l0) == (PyEq(v, JBool(true)) || PyIn(v, l1));
    assert PyIn(v, l1) == (PyEq(v, JString("true")) || PyIn(v, l2));
    assert PyIn(v, l2) == (PyEq(v, JString("1")) || PyIn(v, l3));
    assert PyIn(v, l3) == (PyEq(v, JInt(1)) || PyIn(v, []));
  }

  /** A missing flag (None), "True", "yes", 2 and False all fail. */
  lemma GetSafeBoolRejects()
    ensures !GetSafeBool(JNull) && !GetSafeBool(JString("True")) && !GetSafeBool(JString("yes"))
    ensures !GetSafeBool(JInt(2)) && !GetSafeBool(JBool(false)) && !GetSafeBool(JFloat(0.5))
  {
    GetSafeBoolAccepts(JNull);
    GetSafeBoolAccepts(JString("True"));
    GetSafeBoolAccepts(JString("yes"));
    GetSafeBoolAccepts(JInt(2));
    GetSafeBoolAccepts(JBool(false));
    GetSafeBoolAccepts(JFloat(0.5));
  }

  // ---------------------------------------------------------------------
  // Life insurance
  // ---------------------------------------------------------------------

  /** The `coverageType` of a life request ('deces' when absent). The name
      held by `OtherContract` is never "deces", "vie_entiere" or "rente":
      `LifeContractOf` is the one way a name becomes a contract. */
  datatype LifeContract = Deces | VieEntiere | Rente | OtherContract(name: string)

  /** The contract a `coverageType` name selects, compared as the branches
      of calculate_life_insurance compare it. */
  function LifeContractOf(name: string): (c: LifeContract)
    ensures c == Deces <==> name == "deces"
    ensures c == VieEntiere <==> name == "vie_entiere"
    ensures c == Rente <==> name == "rente"
    ensures c.OtherContract? ==> c.name == name
  {
    if name == "deces" then Deces
    else if name == "vie_entiere" then VieEntiere
    else if name == "rente" then Rente
    else OtherContract(name)
  }

  /** The exceptions calculate_life_insurance can end in. */
  datatype LifeError =
    | AgeOutOfRange            // ValueError: age outside [18, 80]
    | TermOutOfRange           // ValueError: term outside [5, 40] for deces / rente
    | UnknownContractType      // ValueError: unrecognised contract type
    | ZeroDivision             // ZeroDivisionError: (1 + taux/100) ** -k with taux = -100
    | RangeArgumentNotInteger  // TypeError: range() given a float bound

  /** The parameters calculate_life_insurance reads. */
  datatype LifeRequest = LifeRequest(
    capital: real, age: int, duree: real, taux: real, contract: LifeContract,
    smokingStatus: JsonValue, highRisk: JsonValue, hypertension: JsonValue,
    diabetes: JsonValue, heartDisease: JsonValue)

  /** The loadings the set flags contribute, in the order they are applied:
      smoker 1.8, high-risk profession 1.4, hypertension 1.3, diabetes 1.5,
      heart disease 2.0. */
  function LifeLoadings(r: LifeRequest): seq<real>
  {
    Optional(GetSafeBool(r.smokingStatus), 1.8) + Optional(GetSafeBool(r.highRisk), 1.4)
    + Optional(GetSafeBool(r.hypertension), 1.3) + Optional(GetSafeBool(r.diabetes), 1.5)
    + Optional(GetSafeBool(r.heartDisease), 2.0)
  }

  /** facteur_risque: 1.0, then each set flag multiplies in its loading. */
  function LifeRiskFactor(r: LifeRequest): real
  {
    var f1 := Load(1.0, GetSafeBool(r.smokingStatus), 1.8);
    var f2 := Load(f1, GetSafeBool(r.highRisk), 1.4);
    var f3 := Load(f2, GetSafeBool(r.hypertension), 1.3);
    var f4 := Load(f3, GetSafeBool(r.diabetes), 1.5);
    Load(f4, GetSafeBool(r.heartDisease), 2.0)
  }

  /** The factor is the product of the loadings of the set flags. */
  lemma LifeRiskFactorIsProduct(r: LifeRequest)
    ensures LifeRiskFactor(r) == Product(LifeLoadings(r))
  {
    var s0 := Optional(GetSafeBool(r.smokingStatus), 1.8);
    var s1 := s0 + Optional(GetSafeBool(r.highRisk), 1.4);
    var s2 := s1 + Optional(GetSafeBool(r.hypertension), 1.3);
    var s3 := s2 + Optional(GetSafeBool(r.diabetes), 1.5);
    LoadProduct([], GetSafeBool(r.smokingStatus), 1.8);
    assert [] + s0 == s0;
    LoadProduct(s0, GetSafeBool(r.highRisk), 1.4);
    LoadProduct(s1, GetSafeBool(r.hypertension), 1.3);
    LoadProduct(s2, GetSafeBool(r.diabetes), 1.5);
    LoadProduct(s3, GetSafeBool(r.heartDisease), 2.0);
  }

  /** With no flag set the factor is exactly 1. */
  lemma LifeRiskFactorNoFlags(r: LifeRequest)
    requires !GetSafeBool(r.smokingStatus) && !GetSafeBool(r.highRisk) && !GetSafeBool(r.hypertension)
    requires !GetSafeBool(r.diabetes) && !GetSafeBool(r.heartDisease)
    ensures LifeRiskFactor(r) == 1.0
  {
    LifeRiskFactorIsProduct(r);
    assert LifeLoadings(r) == [];
  }

  /** Every loading is at least 1, so the factor is too. */
  lemma LifeRiskFactorAtLeastOne(r: LifeRequest)
    ensures LifeRiskFactor(r) >= 1.0
  {
    var s := LifeLoadings(r);
    forall k | 0 <= k < |s| ensures s[k] >= 1.0 {
      assert s[k] in s;
    }
    ProductAtLeastOne(s);
    LifeRiskFactorIsProduct(r);
  }

  /** Applying the loadings in any other order gives the same factor. */
  lemma LifeRiskFactorOrderFree(r: LifeRequest, reordered: seq<real>)
    requires multiset(reordered) == multiset(LifeLoadings(r))
    ensures Product(reordered) == LifeRiskFactor(r)
  {
    ProductPermutation(reordered, LifeLoadings(r));
    LifeRiskFactorIsProduct(r);
  }

  /** A smoker with diabetes is loaded by 1.8 × 1.5 = 2.7. */
  lemma LifeRiskFactorSmokerDiabetic(r: LifeRequest)
    requires GetSafeBool(r.smokingStatus) && !GetSafeBool(r.highRisk) && !GetSafeBool(r.hypertension)
    requires GetSafeBool(r.diabetes) && !GetSafeBool(r.heartDisease)
    ensures LifeRiskFactor(r) == 2.7
  {
    LifeRiskFactorIsProduct(r);
    assert LifeLoadings(r) == [1.8, 1.5];
    ProductPair(1.8, 1.5);
  }

  /** `max(5.0, round(annual / 12, 2))`: the monthly premium, never below 5. */
  function MonthlyPremium(annual: real): (m: real)
    ensures m >= 5.0 && IsCents(m)
    ensures annual / 12.0 <= 5.0 ==> m == 5.0
    ensures annual / 12.0 >= 5.005 ==> -0.005 <= m - annual / 12.0 <= 0.005
  {
    var rounded := Round2(annual / 12.0);
    assert IsCents(5.0);
    Round2AtMostCents(annual / 12.0, 5.0);
    if rounded > 5.0 then rounded else 5.0
  }

  /** The request passes the three validation checks. */
  predicate Validated(r: LifeRequest)
  {
    r.capital >= 1000.0 && 18 <= r.age <= 80
    && !((r.contract == Deces || r.contract == Rente) && (r.duree < 5.0 || r.duree > 40.0))
  }

  /** The annual premium of a valid request of a known type. */
  function AnnualLifePremium(r: LifeRequest): real
    requires !r.contract.OtherContract? && r.taux != -100.0
  {
    match r.contract
    case Deces => TermDeathPremium(GetTauxMortaliteEtendu, r.capital, r.age, r.duree, r.taux, LifeRiskFactor(r))
    case VieEntiere => WholeLifePremium(GetTauxMortaliteEtendu, r.capital, r.age, r.taux, LifeRiskFactor(r))
    case Rente => AnnuityPremium(GetTauxMortaliteEtendu, r.capital, r.age, r.taux, LifeRiskFactor(r))
  }

  /** What calculate_life_insurance returns or raises, with the age taken as
      a whole number: the checks in the source's order, then the premium. */
  function LifeOutcome(r: LifeRequest): Result<real, LifeError>
  {
    if r.capital < 1000.0 then Ok(0.0)
    else if r.age < 18 || r.age > 80 then Err(AgeOutOfRange)
    else if (r.contract == Deces || r.contract == Rente) && (r.duree < 5.0 || r.duree > 40.0) then Err(TermOutOfRange)
    else if r.contract.OtherContract? then Err(UnknownContractType)
    else if r.taux == -100.0 then Err(ZeroDivision)
    else Ok(MonthlyPremium(AnnualLifePremium(r)))
  }

  /** calculate_life_insurance, over an integer age. */
  method CalculateLifeInsurance(r: LifeRequest) returns (res: Result<real, LifeError>)
    ensures res == LifeOutcome(r)
  {
    if r.capital < 1000.0 {
      return Ok(0.0);
    }
    if r.age < 18 || r.age > 80 {
      return Err(AgeOutOfRange);
    }
    if (r.contract == Deces || r.contract == Rente) && (r.duree < 5.0 || r.duree > 40.0) {
      return Err(TermOutOfRange);
    }
    var duree := r.duree;
    if r.contract == VieEntiere {
      duree := (120 - r.age) as real;
    }

    var facteurRisque := 1.0;
    ghost var spec := 1.0;
    if GetSafeBool(r.smokingStatus) {
      facteurRisque := facteurRisque * 1.8;
    }
    spec := Load(spec, GetSafeBool(r.smokingStatus), 1.8);
    assert facteurRisque == spec;
    if GetSafeBool(r.highRisk) {
      facteurRisque := facteurRisque * 1.4;
    }
    spec := Load(spec, GetSafeBool(r.highRisk), 1.4);
    assert facteurRisque == spec;
    if GetSafeBool(r.hypertension) {
      facteurRisque := facteurRisque * 1.3;
    }
    spec := Load(spec, GetSafeBool(r.hypertension), 1.3);
    assert facteurRisque == spec;
    if GetSafeBool(r.diabetes) {
      facteurRisque := facteurRisque * 1.5;
    }
    spec := Load(spec, GetSafeBool(r.diabetes), 1.5);
    assert facteurRisque == spec;
    if GetSafeBool(r.heartDisease) {
      facteurRisque := facteurRisque * 2.0;
    }
    spec := Load(spec, GetSafeBool(r.heartDisease), 2.0);
    assert facteurRisque == spec;
    assert facteurRisque == LifeRiskFactor(r);

    var primeAnnuelle := 0.0;
    match r.contract {
      case Deces =>
        if r.taux == -100.0 {
          return Err(ZeroDivision);
        }
        primeAnnuelle := CalculatePrimeDecesTemporaire(GetTauxMortaliteEtendu, r.capital, r.age, duree, r.taux, facteurRisque);
      case VieEntiere =>
        if r.taux == -100.0 {
          return Err(ZeroDivision);
        }
        primeAnnuelle := CalculatePrimeVieEntiere(GetTauxMortaliteEtendu, r.capital, r.age, r.taux, facteurRisque);
      case Rente =>
        if r.taux == -100.0 {
          return Err(ZeroDivision);
        }
        primeAnnuelle := CalculatePrimeRenteViagere(GetTauxMortaliteEtendu, r.capital, r.age, r.taux, facteurRisque);
      case OtherContract(_) =>
        return Err(UnknownContractType);
    }
    return Ok(MonthlyPremium(primeAnnuelle));
  }

  /** A capital below 1000 gives exactly 0.0, whatever the age, term, type
      and rate; no other request gives 0.0. */
  lemma LifeOutcomeSmallCapital(r: LifeRequest)
    ensures r.capital < 1000.0 ==> LifeOutcome(r) == Ok(0.0)
    ensures LifeOutcome(r) == Ok(0.0) ==> r.capital < 1000.0
  {
  }

  /** Each error arises exactly when the earlier checks pass and its own
      check fails. */
  lemma LifeOutcomeErrors(r: LifeRequest)
    ensures LifeOutcome(r) == Err(AgeOutOfRange) <==> r.capital >= 1000.0 && (r.age < 18 || r.age > 80)
    ensures LifeOutcome(r) == Err(TermOutOfRange)
        <==> r.capital >= 1000.0 && 18 <= r.age <= 80
             && (r.contract == Deces || r.contract == Rente) && (r.duree < 5.0 || r.duree > 40.0)
    ensures LifeOutcome(r) == Err(UnknownContractType) <==> Validated(r) && r.contract.OtherContract?
    ensures LifeOutcome(r) == Err(ZeroDivision) <==> Validated(r) && !r.contract.OtherContract? && r.taux == -100.0
    ensures LifeOutcome(r) != Err(RangeArgumentNotInteger)
  {
  }

  /** A successful request yields 0.0 (small capital) or a whole number of
      cents no smaller than 5.0. */
  lemma LifeOutcomeFloor(r: LifeRequest)
    requires LifeOutcome(r).Ok?
    ensures LifeOutcome(r).value == 0.0 || (LifeOutcome(r).value >= 5.0 && IsCents(LifeOutcome(r).value))
    ensures Validated(r) ==> LifeOutcome(r).value >= 5.0
  {
  }

  /** For whole life the supplied term plays no part: it is neither checked
      nor used, the cover running to age 120 instead. */
  lemma WholeLifeIgnoresTerm(r: LifeRequest, duree: real)
    requires r.contract == VieEntiere
    ensures LifeOutcome(r.(duree := duree)) == LifeOutcome(r)
  {
    assert LifeRiskFactor(r.(duree := duree)) == LifeRiskFactor(r);
  }

  /** For a valid whole-life request with a rate of at least 0%, the monthly
      premium is 5.0 or within half a cent of at most a twelfth of
      1.15 × risk factor × capital. */
  lemma WholeLifeMonthlyBound(r: LifeRequest)
    requires Validated(r) && r.contract == VieEntiere && r.taux >= 0.0
    ensures LifeOutcome(r).Ok?
    ensures LifeOutcome(r).value == 5.0
         || LifeOutcome(r).value <= 1.15 * LifeRiskFactor(r) * r.capital / 12.0 + 0.005
  {
    EtenduIsMortalityCurve();
    LifeRiskFactorAtLeastOne(r);
    WholeLifePremiumBound(GetTauxMortaliteEtendu, r.capital, r.age, r.taux, LifeRiskFactor(r));
    var annual := AnnualLifePremium(r);
    assert annual <= 1.15 * LifeRiskFactor(r) * r.capital;
    var m := MonthlyPremium(annual);
    if m != 5.0 {
      assert m == Round2(annual / 12.0);
    }
  }

  /** calculate_life_insurance as written: the age comes from
      get_safe_float and so is always a float, and `range(age, age_actuel)`
      in the whole-life and annuity loops rejects a float bound, so once the
      checks pass those two types raise TypeError, before any discounting. */
  function LifeOutcomeAsWritten(r: LifeRequest): Result<real, LifeError>
  {
    if r.capital < 1000.0 then Ok(0.0)
    else if r.age < 18 || r.age > 80 then Err(AgeOutOfRange)
    else if (r.contract == Deces || r.contract == Rente) && (r.duree < 5.0 || r.duree > 40.0) then Err(TermOutOfRange)
    else if r.contract.OtherContract? then Err(UnknownContractType)
    else if r.contract == VieEntiere || r.contract == Rente then Err(RangeArgumentNotInteger)
    else if r.taux == -100.0 then Err(ZeroDivision)
    else Ok(MonthlyPremium(AnnualLifePremium(r)))
  }

  /** The code as written and the integer-age reading differ on exactly the
      valid whole-life and annuity requests. */
  lemma FloatAgeDiscrepancy(r: LifeRequest)
    ensures LifeOutcomeAsWritten(r) != LifeOutcome(r)
        <==> Validated(r) && (r.contract == VieEntiere || r.contract == Rente)
  {
  }

  /** A concrete witness: 100000 of whole-life cover at 40 with 1.5% interest
      and no flags raises as written, but is priced under the integer age. */
  lemma FloatAgeExample()
    ensures LifeOutcomeAsWritten(LifeRequest(100000.0, 40, 20.0, 1.5, VieEntiere, JNull, JNull, JNull, JNull, JNull))
         == Err(RangeArgumentNotInteger)
    ensures LifeOutcome(LifeRequest(100000.0, 40, 20.0, 1.5, VieEntiere, JNull, JNull, JNull, JNull, JNull)).Ok?
  {
  }

  // ---------------------------------------------------------------------
  // Non-life insurance
  // ---------------------------------------------------------------------

  /** The `coverageType` of a non-life request ('auto' when absent). The
      name held by `OtherNonLife` is never "auto", "home" or "accident":
      `NonLifeCoverageOf` is the one way a name becomes a coverage. */
  datatype NonLifeCoverage = Auto | Home | Accident | OtherNonLife(name: string)

  /** The coverage a `coverageType` name selects in
      calculate_non_life_insurance. */
  function NonLifeCoverageOf(name: string): (c: NonLifeCoverage)
    ensures c == Auto <==> name == "auto"
    ensures c == Home <==> name == "home"
    ensures c == Accident <==> name == "accident"
    ensures c.OtherNonLife? ==> c.name == name
  {
    if name == "auto" then Auto
    else if name == "home" then Home
    else if name == "accident" then Accident
    else OtherNonLife(name)
  }

  /** The one exception calculate_non_life_insurance raises itself. */
  datatype NonLifeError = InsuredValueTooLow  // ValueError: value below 1000

  /** The parameters calculate_non_life_insurance reads. */
  datatype NonLifeRequest = NonLifeRequest(
    valeur: real, risque: real, garanties: real, coverage: NonLifeCoverage,
    accident: JsonValue, theft: JsonValue, naturalDisaster: JsonValue)

  /** taux_base: 0.02 auto, 0.012 home, 0.008 accident, 0.015 otherwise. */
  function NonLifeBaseRate(c: NonLifeCoverage): real
  {
    match c
    case Auto => 0.02
    case Home => 0.012
    case Accident => 0.008
    case OtherNonLife(_) => 0.015
  }

  /** The factors multiplied into facteur_total, in order: risk level,
      guarantee level, then the riders accident 1.2, theft 1.15 and natural
      disaster 1.25 when set. */
  function NonLifeFactors(r: NonLifeRequest): seq<real>
  {
    [r.risque] + [r.garanties] + Optional(GetSafeBool(r.accident), 1.2)
    + Optional(GetSafeBool(r.theft), 1.15) + Optional(GetSafeBool(r.naturalDisaster), 1.25)
  }

  /** facteur_total: 1.0 times the risk level and the guarantee level, then
      each set rider multiplies in its loading. */
  function NonLifeFactor(r: NonLifeRequest): real
  {
    var f := Mul(Mul(1.0, r.risque), r.garanties);
    var f1 := Load(f, GetSafeBool(r.accident), 1.2);
    var f2 := Load(f1, GetSafeBool(r.theft), 1.15);
    Load(f2, GetSafeBool(r.naturalDisaster), 1.25)
  }

  /** The total factor is the product of the factors applied. */
  lemma NonLifeFactorIsProduct(r: NonLifeRequest)
    ensures NonLifeFactor(r) == Product(NonLifeFactors(r))
  {
    var s0 := [r.risque] + [r.garanties];
    var s1 := s0 + Optional(GetSafeBool(r.accident), 1.2);
    var s2 := s1 + Optional(GetSafeBool(r.theft), 1.15);
    ProductPair(r.risque, r.garanties);
    assert s0 == [r.risque, r.garanties];
    LoadProduct(s0, GetSafeBool(r.accident), 1.2);
    LoadProduct(s1, GetSafeBool(r.theft), 1.15);
    LoadProduct(s2, GetSafeBool(r.naturalDisaster), 1.25);
  }

  /** What calculate_non_life_insurance returns or raises. */
  function NonLifeOutcome(r: NonLifeRequest): Result<real, NonLifeError>
  {
    if r.valeur < 1000.0 then Err(InsuredValueTooLow)
    else Ok(Round2(Mul(Mul(r.valeur, NonLifeBaseRate(r.coverage)), NonLifeFactor(r))))
  }

  /** calculate_non_life_insurance */
  method CalculateNonLifeInsurance(r: NonLifeRequest) returns (res: Result<real, NonLifeError>)
    ensures res == NonLifeOutcome(r)
  {
    if r.valeur < 1000.0 {
      return Err(InsuredValueTooLow);
    }
    var tauxBase := 0.015;
    if r.coverage == Auto {
      tauxBase := 0.02;
    } else if r.coverage == Home {
      tauxBase := 0.012;
    } else if r.coverage == Accident {
      tauxBase := 0.008;
    }

    var facteurTotal := 1.0;
    facteurTotal := facteurTotal * r.risque;
    facteurTotal := facteurTotal * r.garanties;
    ghost var spec := Mul(Mul(1.0, r.risque), r.garanties);
    assert facteurTotal == spec;
    if GetSafeBool(r.accident) {
      facteurTotal := facteurTotal * 1.2;
    }
    spec := Load(spec, GetSafeBool(r.accident), 1.2);
    assert facteurTotal == spec;
    if GetSafeBool(r.theft) {
      facteurTotal := facteurTotal * 1.15;
    }
    spec := Load(spec, GetSafeBool(r.theft), 1.15);
    assert facteurTotal == spec;
    if GetSafeBool(r.naturalDisaster) {
      facteurTotal := facteurTotal * 1.25;
    }
    spec := Load(spec, GetSafeBool(r.naturalDisaster), 1.25);
    assert facteurTotal == spec;
    assert facteurTotal == NonLifeFactor(r);
    assert tauxBase == NonLifeBaseRate(r.coverage);
    Mul3(r.valeur, tauxBase, facteurTotal);
    var prime := r.valeur * tauxBase * facteurTotal;
    assert prime == Mul(Mul(r.valeur, NonLifeBaseRate(r.coverage)), NonLifeFactor(r));
    return Ok(Round2(prime));
  }

  /** The request fails exactly when the value is below 1000; otherwise the
      premium is whole cents, within half a cent of value × base rate ×
      factors. */
  lemma NonLifeOutcomeSpec(r: NonLifeRequest)
    ensures NonLifeOutcome(r).Err? <==> r.valeur < 1000.0
    ensures NonLifeOutcome(r).Ok? ==>
      IsCents(NonLifeOutcome(r).value)
      && -0.005 <= NonLifeOutcome(r).value - Mul(Mul(r.valeur, NonLifeBaseRate(r.coverage)), Product(NonLifeFactors(r))) <= 0.005
  {
    NonLifeFactorIsProduct(r);
  }

  /** With no riders the factor is the risk level times the guarantee level. */
  lemma NonLifeFactorsNoRiders(r: NonLifeRequest)
    requires !GetSafeBool(r.accident) && !GetSafeBool(r.theft) && !GetSafeBool(r.naturalDisaster)
    ensures NonLifeFactor(r) == Mul(r.risque, r.garanties)
    ensures Product(NonLifeFactors(r)) == Mul(r.risque, r.garanties)
  {
    assert NonLifeFactors(r) == [r.risque, r.garanties];
    ProductPair(r.risque, r.garanties);
  }

  /** For non-negative factors, insuring a larger value never costs less. */
  lemma NonLifeMonotoneInValue(r: NonLifeRequest, valeur: real)
    requires r.valeur >= 1000.0 && valeur >= r.valeur
    requires r.risque >= 0.0 && r.garanties >= 0.0
    ensures NonLifeOutcome(r).Ok? && NonLifeOutcome(r.(valeur := valeur)).Ok?
    ensures NonLifeOutcome(r).value <= NonLifeOutcome(r.(valeur := valeur)).value
  {
    var f := NonLifeFactor(r);
    var t := NonLifeBaseRate(r.coverage);
    NonLifeFactorsNonNegative(r);
    MulNonNegative(t, f);
    MulAssoc(r.valeur, t, f);
    MulAssoc(valeur, t, f);
    Round2ScaledMonotone(r.valeur, valeur, Mul(t, f));
  }

  /** For non-negative levels the total factor is non-negative. */
  lemma NonLifeFactorsNonNegative(r: NonLifeRequest)
    requires r.risque >= 0.0 && r.garanties >= 0.0
    ensures NonLifeFactor(r) >= 0.0
  {
    NonLifeFactorIsProduct(r);
    var s := NonLifeFactors(r);
    forall k | 0 <= k < |s| ensures s[k] >= 0.0 {
    }
    ProductNonNegative(s);
  }

  /** 50000 of auto cover with both levels at 1 and no riders costs 1000.00. */
  lemma NonLifeAutoExample()
    ensures NonLifeOutcome(NonLifeRequest(50000.0, 1.0, 1.0, Auto, JNull, JNull, JNull)) == Ok(1000.0)
  {
    var r := NonLifeRequest(50000.0, 1.0, 1.0, Auto, JNull, JNull, JNull);
    NonLifeFactorsNoRiders(r);
    assert IsCents(1000.0);
    Round2OfCents(1000.0);
  }

  // ---------------------------------------------------------------------
  // Mandatory insurance
  // ---------------------------------------------------------------------

  /** The `coverageType` of a mandatory request ('auto_liability' when
      absent). The name held by `OtherMandatory` is never "auto_liability",
      "health" or "professional": `MandatoryCoverageOf` is the one way a name
      becomes a coverage. */
  datatype MandatoryCoverage = AutoLiability | Health | Professional | OtherMandatory(name: string)

  /** The coverage a `coverageType` name selects in
      calculate_mandatory_insurance. */
  function MandatoryCoverageOf(name: string): (c: MandatoryCoverage)
    ensures c == AutoLiability <==> name == "auto_liability"
    ensures c == Health <==> name == "health"
    ensures c == Professional <==> name == "professional"
    ensures c.OtherMandatory? ==> c.name == name
  {
    if name == "auto_liability" then AutoLiability
    else if name == "health" then Health
    else if name == "professional" then Professional
    else OtherMandatory(name)
  }

  /** The one exception calculate_mandatory_insurance raises itself. */
  datatype MandatoryError = BaseTooLow  // ValueError: base below 1000

  /** taux_reglementaire: 0.015 auto liability, 0.025 health, 0.018
      professional, 0.02 otherwise. */
  function MandatoryRate(c: MandatoryCoverage): real
  {
    match c
    case AutoLiability => 0.015
    case Health => 0.025
    case Professional => 0.018
    case OtherMandatory(_) => 0.02
  }

  /** calculate_mandatory_insurance: `round(base × rate × categorie ×
      region, 2)`, raising when the base is below 1000. */
  function CalculateMandatoryInsurance(base: real, categorie: real, region: real, c: MandatoryCoverage)
    : (res: Result<real, MandatoryError>)
    ensures res.Err? <==> base < 1000.0
    ensures res.Ok? ==> IsCents(res.value)
    ensures res.Ok? ==> -0.005 <= res.value - MandatoryExact(base, categorie, region, c) <= 0.005
    ensures res.Ok? && categorie >= 0.0 && region >= 0.0 ==> res.value >= 0.0
  {
    if base < 1000.0 then Err(BaseTooLow)
    else
      var prime := MandatoryExact(base, categorie, region, c);
      MulNonNegative4(base, MandatoryRate(c), categorie, region);
      Ok(Round2(prime))
  }

  /** The unrounded mandatory premium, base × rate × categorie × region. */
  function MandatoryExact(base: real, categorie: real, region: real, c: MandatoryCoverage): real
  {
    Mul(Mul(Mul(base, MandatoryRate(c)), categorie), region)
  }


  /** 20000 of auto liability with both factors at 1 costs 300.00. */
  lemma MandatoryAutoLiabilityExample()
    ensures CalculateMandatoryInsurance(20000.0, 1.0, 1.0, AutoLiability) == Ok(300.0)
  {
    assert IsCents(300.0);
    Round2OfCents(300.0);
  }

  /** For non-negative factors the mandatory premium never decreases as the
      base grows. */
  lemma MandatoryMonotoneInBase(b1: real, b2: real, categorie: real, region: real, c: MandatoryCoverage)
    requires 1000.0 <= b1 <= b2 && categorie >= 0.0 && region >= 0.0
    ensures CalculateMandatoryInsurance(b1, categorie, region, c).value
         <= CalculateMandatoryInsurance(b2, categorie, region, c).value
  {
    Round2Scaled3Monotone(b1, b2, MandatoryRate(c), categorie, region);
  }

  lemma Round2Scaled3Monotone(x: real, y: real, t: real, c: real, g: real)
    requires x <= y && t >= 0.0 && c >= 0.0 && g >= 0.0
    ensures Round2(Mul(Mul(Mul(x, t), c), g)) <= Round2(Mul(Mul(Mul(y, t), c), g))
  {
    MulNonNegative(t, c);
    MulNonNegative(Mul(t, c), g);
    MulAssoc4(x, t, c, g);
    MulAssoc4(y, t, c, g);
    Round2ScaledMonotone(x, y, Mul(Mul(t, c), g));
  }

}
