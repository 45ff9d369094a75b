# Actuarial premium engines

This project models the two premium engines of the actuarial calculator
(`calculateur_actuariel`) side by side. The two engines disagree with each
other, so each one is modelled as written.

- **The web engine** is the set of calculation functions that the Flask
  handler calls, in `app.py`:
  - a 63-entry mortality table, looked up with the age clamped to 18..80, and
    its extension above 80, in module `Mortality`;
  - the three life formulas (term death cover, whole life, life annuity), in
    module `LifeFormulas`;
  - the life orchestrator, with its input checks, multiplicative risk
    loadings, monthly conversion and 5.0 floor, in module `WebEngine`;
  - the non-life and mandatory premiums, also in `WebEngine`.
- **The object engine** is the `PremiumCalculator` class of
  `models/premium_calculator.py`, modelled as the class
  `Calculator.PremiumCalculator`. Its constructor arguments and rate tables
  become read-only fields. Its accumulator loops become methods with loop
  invariants, each proved equal to a specification function. Properties of
  those functions are proved as lemmas:
  - the gender mortality tables, indexed with clamping to 0..59 and divided
    by 1000;
  - routing by branch and by cover type;
  - the term premium normalised by an annuity factor;
  - the health premium with its age loading;
  - the non-life risk factors with age bands;
  - the mandatory rate table;
  - the premium breakdown.

Module `Numeric` holds the shared arithmetic:
- Python `int()` truncation, clamping and integer powers;
- the discount factor `1 / (1 + i) ** k`;
- two-decimal rounding;
- running products of loading factors.

All money, rates and probabilities are exact `real` numbers. `Mul` names real
multiplication, so that products of loadings can be rearranged without
nonlinear arithmetic. `Load(f, b, x)` is one `if b: f *= x` step.

The life formulas and the loops of the object engine take the mortality curve
as a parameter `q: int -> real`. The web engine instantiates it with
`Mortality.GetTauxMortaliteEtendu`. The object engine instantiates it with
`PremiumCalculator.GetMortalityRate`. Every property that needs the curve to
be a probability asks for `IsMortalityCurve(q)` (each value strictly between
0 and 1). Two lemmas establish that for the two actual curves:
`LifeFormulas.EtenduIsMortalityCurve` and
`Calculator.PremiumCalculator.RatesAreMortalityCurve`.

## Model

| member | source | states |
|---|---|---|
| `Numeric.Trunc` | calculateur_actuariel/app.py:185 | `int(x)` truncates toward zero: the result is the whole number at most one below a non-negative x, or at most one above a negative x |
| `Numeric.Discount` | calculateur_actuariel/app.py:188 | `(1 + i) ** -k` is 1 at k = 0, positive when i > -1, and at most 1 when i >= 0 |
| `Numeric.DiscountStep` | calculateur_actuariel/app.py:188 | for a non-negative rate, a payment one year later is worth no more |
| `Numeric.Round2` | calculateur_actuariel/app.py:351 | `round(x, 2)` gives a whole number of cents within half a cent of x, and is non-negative for non-negative x |
| `Numeric.Round2OfCents` | calculateur_actuariel/app.py:305 | rounding leaves an amount that is already in whole cents unchanged |
| `Numeric.Round2Monotone` | calculateur_actuariel/app.py:351 | rounding to cents preserves order |
| `Numeric.Round2SumWithinCent` | calculateur_actuariel/models/premium_calculator.py:240-243 | two separately rounded amounts add up to the rounded sum to within one cent |
| `Numeric.ProductPermutation` | calculateur_actuariel/app.py:261-284 | a running product of loadings is the same in any order of the factors |
| `Numeric.LoadProduct` | calculateur_actuariel/app.py:264-265 | one conditional `*=` step extends the running product by that factor exactly when the flag is set |
| `Numeric.ProductAtLeastOne` | calculateur_actuariel/models/premium_calculator.py:253-258 | a product of loadings that are each at least 1 is at least 1 |
| `Mortality.GetTauxMortalite` | calculateur_actuariel/app.py:154-170 | an age below 18 gives 0.0005 and an age above 80 gives 0.2024; ages 18..80 give their table entry; every result lies in [0.0005, 0.2024] |
| `Mortality.GetTauxMortaliteMonotone` | calculateur_actuariel/app.py:155-170 | the clamped table rate never decreases with age, for all integer ages |
| `Mortality.TableEntriesAreProbabilities` | calculateur_actuariel/app.py:155-170 | every entry for 18..80 lies strictly between 0 and 1, and the clamped lookup never falls back to the default 0.05 |
| `Mortality.GetTauxMortaliteEtendu` | calculateur_actuariel/app.py:172-178 | the table rate up to 80; above 80 a rate between 0.075 and 0.25; always strictly between 0 and 1 |
| `Mortality.EtenduAbove80` | calculateur_actuariel/app.py:176-178 | above 80 the rate is `0.05 + (age - 80) * 0.025` before age 88 and the cap 0.25 from 88 on |
| `Mortality.EtenduReferenceValues` | calculateur_actuariel/app.py:172-178 | age 85 gives 0.175 and 90 gives 0.25. The rate drops from 0.2024 at 80 to 0.075 at 81, so the extension is not monotone across 80 |
| `LifeFormulas.EtenduIsMortalityCurve` | calculateur_actuariel/app.py:172-178 | the extended curve is a probability at every age |
| `LifeFormulas.CalculatePrimeDecesTemporaire` | calculateur_actuariel/app.py:180-191 | the loop computes `1.2 * facteur_risque * sum over k = 1..int(duree) of capital * q(age + k - 1) * (1 + taux/100) ** -k` |
| `LifeFormulas.TermDeathSumNonNegative` | calculateur_actuariel/app.py:185-189 | the discounted sum of expected death payments is non-negative for a non-negative capital |
| `LifeFormulas.TermDeathSumLinear` | calculateur_actuariel/app.py:185-189 | the discounted sum is the capital times the sum for a capital of 1 |
| `LifeFormulas.TermDeathPremiumNonNegative` | calculateur_actuariel/app.py:180-191 | the term death premium is non-negative for non-negative capital and risk factor and a rate above -100% |
| `LifeFormulas.TermDeathPremiumLinear` | calculateur_actuariel/app.py:180-191 | the term death premium is linear in the capital |
| `LifeFormulas.CalculatePrimeVieEntiere` | calculateur_actuariel/app.py:194-213 | the nested loops compute `1.15 * facteur_risque * sum over k = 1..120-age of capital * (survival to year k) * q(age + k - 1) * v ** k` |
| `LifeFormulas.SurvivalProduct` | calculateur_actuariel/app.py:228-230 | the inner loop leaves the product of (1 - q(a)) over the ages before the current one, that is the survival probability to the current year |
| `LifeFormulas.DeathProbability` | calculateur_actuariel/app.py:205-208 | the inner loop and the final `*=` give the probability of dying precisely in the current year: survival to it times its death rate |
| `LifeFormulas.SurvivalBounds` | calculateur_actuariel/app.py:205-207 | the survival product before each year lies in (0, 1] and strictly decreases from one year to the next |
| `LifeFormulas.SurvivalNonIncreasing` | calculateur_actuariel/app.py:205-207 | the survival product is non-increasing in the year |
| `LifeFormulas.DeferredMassTelescopes` | calculateur_actuariel/app.py:204-208 | the deferred death probabilities of the first n years sum to exactly `1 - survival(n)`, hence to a value in [0, 1) |
| `LifeFormulas.WholeLifeSumBound` | calculateur_actuariel/app.py:201-211 | for a rate >= 0 the discounted whole-life sum lies between 0 and capital times the total deferred death probability |
| `LifeFormulas.WholeLifePremiumBound` | calculateur_actuariel/app.py:194-213 | for a rate >= 0 the whole-life premium lies between 0 and `1.15 * facteur_risque * capital` |
| `LifeFormulas.WholeLifeBelowMarginal` | calculateur_actuariel/app.py:194-211 | the whole-life sum equals the term death sum over one year, and is strictly below it over two or more years, because it weights each year by survival |
| `LifeFormulas.CalculatePrimeRenteViagere` | calculateur_actuariel/app.py:215-236 | the nested loops compute `1.15 * facteur_risque * sum over k = 1..120-age of 0.08 * capital * (survival to year k) * v ** k` |
| `LifeFormulas.AnnuityFirstYear` | calculateur_actuariel/app.py:224-233 | the first year's survival weight is the empty product 1, so year one is worth `0.08 * capital / (1 + i)` |
| `LifeFormulas.AnnuitySumBound` | calculateur_actuariel/app.py:222-234 | for a rate >= 0 the annuity sum over n years lies between 0 and n annual payments |
| `WebEngine.GetSafeBoolAccepts` | calculateur_actuariel/app.py:149-151 | a value is read as true exactly when it is Python-equal to one of `True`, `'true'`, `'1'`, `1`: that is True, 1, 1.0, "true" or "1" |
| `WebEngine.GetSafeBoolRejects` | calculateur_actuariel/app.py:149-151 | None, "True", "yes", 2, False and 0.5 are read as false |
| `WebEngine.LifeContractOf` | calculateur_actuariel/app.py:291-299 | the name "deces" selects term death cover, "vie_entiere" whole life and "rente" the annuity, each exactly for that name. Any other name is an unknown contract that keeps the name |
| `WebEngine.LifeRiskFactorIsProduct` | calculateur_actuariel/app.py:261-284 | the chain of conditional `*=` steps is the product of 1.8, 1.4, 1.3, 1.5, 2.0 over the flags that are set |
| `WebEngine.LifeRiskFactorNoFlags` | calculateur_actuariel/app.py:261-284 | with no flag set the risk factor is exactly 1.0 |
| `WebEngine.LifeRiskFactorAtLeastOne` | calculateur_actuariel/app.py:261-284 | the risk factor is always at least 1.0 |
| `WebEngine.LifeRiskFactorOrderFree` | calculateur_actuariel/app.py:261-284 | the risk factor is the same for any order of the applied loadings |
| `WebEngine.LifeRiskFactorSmokerDiabetic` | calculateur_actuariel/app.py:261-284 | a diabetic smoker gets 1.8 * 1.5 = 2.7 |
| `WebEngine.MonthlyPremium` | calculateur_actuariel/app.py:304-305 | `max(5.0, round(annual / 12, 2))` is at least 5.0 and in whole cents. It is exactly 5.0 when a twelfth of the annual premium is at most 5, and within half a cent of that twelfth when it is at least 5.005 |
| `WebEngine.CalculateLifeInsurance` | calculateur_actuariel/app.py:238-308 | the orchestrator returns what the ordered checks, risk loadings, formula dispatch and monthly floor prescribe (`LifeOutcome`) |
| `WebEngine.LifeOutcomeSmallCapital` | calculateur_actuariel/app.py:250-251 | a capital below 1000 gives exactly 0.0 before any other check. Conversely, a result of 0.0 occurs only for such a capital |
| `WebEngine.LifeOutcomeErrors` | calculateur_actuariel/app.py:250-301 | the age error occurs exactly for capital >= 1000 and an age outside 18..80. The term error occurs exactly when, in addition, the contract is deces or rente and the term is outside [5, 40]. The unknown-type error occurs exactly for a validated request of another type. The division error occurs exactly at taux = -100 |
| `WebEngine.LifeOutcomeFloor` | calculateur_actuariel/app.py:304-305 | every successful result is 0.0 or a whole-cents amount of at least 5.0, and at least 5.0 once the capital passes the check |
| `WebEngine.WholeLifeIgnoresTerm` | calculateur_actuariel/app.py:258-259 | for whole life the supplied term has no effect on the result |
| `WebEngine.WholeLifeMonthlyBound` | calculateur_actuariel/app.py:294-305 | a valid whole-life request with rate >= 0 succeeds, with a monthly premium that is 5.0 or at most `1.15 * risk factor * capital / 12` plus half a cent |
| `WebEngine.FloatAgeDiscrepancy` | calculateur_actuariel/app.py:194-236 | the code as written (float age in `range`) and the integer-age reading differ exactly on valid whole-life and annuity requests |
| `WebEngine.FloatAgeExample` | calculateur_actuariel/app.py:206 | whole-life cover of 100000 at age 40 raises as written, but is priced under integer age |
| `WebEngine.NonLifeCoverageOf` | calculateur_actuariel/app.py:322-331 | the names "auto", "home" and "accident" select their own coverage, each exactly for that name. Any other name is an unknown coverage that keeps the name |
| `WebEngine.NonLifeFactorIsProduct` | calculateur_actuariel/app.py:332-346 | the chain of `*=` steps is the product of risque, garanties and the riders 1.2, 1.15, 1.25 that are selected |
| `WebEngine.CalculateNonLifeInsurance` | calculateur_actuariel/app.py:311-351 | the method returns the value-check error or the rounded product (`NonLifeOutcome`) |
| `WebEngine.NonLifeOutcomeSpec` | calculateur_actuariel/app.py:311-351 | an error occurs exactly for a value below 1000. Otherwise the result is in whole cents and within half a cent of `valeur * base rate * product of factors` |
| `WebEngine.NonLifeFactorsNoRiders` | calculateur_actuariel/app.py:332-346 | with no rider selected the total factor is `risque * garanties` |
| `WebEngine.NonLifeMonotoneInValue` | calculateur_actuariel/app.py:311-351 | for non-negative factors a larger insured value never gives a smaller premium |
| `WebEngine.NonLifeFactorsNonNegative` | calculateur_actuariel/app.py:332-346 | non-negative risque and garanties give a non-negative total factor |
| `WebEngine.NonLifeAutoExample` | calculateur_actuariel/app.py:311-351 | 50000 of auto cover with every factor at 1 costs 1000.00 |
| `WebEngine.MandatoryCoverageOf` | calculateur_actuariel/app.py:364-373 | the names "auto_liability", "health" and "professional" select their own coverage, each exactly for that name. Any other name is an unknown coverage that keeps the name |
| `WebEngine.CalculateMandatoryInsurance` | calculateur_actuariel/app.py:353-374 | an error occurs exactly for a base below 1000. Otherwise the result is in whole cents, within half a cent of `base * rate * categorie * region`, and non-negative for non-negative factors |
| `WebEngine.MandatoryAutoLiabilityExample` | calculateur_actuariel/app.py:353-374 | 20000 of auto liability cover costs 300.00 |
| `WebEngine.MandatoryMonotoneInBase` | calculateur_actuariel/app.py:353-374 | for non-negative factors a larger base never gives a smaller premium |
| `Calculator.MaleMortalityBounds` | calculateur_actuariel/models/premium_calculator.py:19-24 | male entries lie in [0.001, 1.778] and never decrease from one index to the next |
| `Calculator.FemaleMortalityBounds` | calculateur_actuariel/models/premium_calculator.py:25-30 | female entries lie in [0.001, 0.965] and never decrease from one index to the next |
| `Calculator.MortalityTablesMonotone` | calculateur_actuariel/models/premium_calculator.py:18-31 | both tables are non-decreasing over any pair of indices |
| `Calculator.AnnuityFactorBounds` | calculateur_actuariel/models/premium_calculator.py:209-226 | the annuity factor is 0 for no years, and between 1 and the number of years otherwise, because the t = 0 term contributes exactly 1 |
| `Calculator.AnnuityFactorOneYear` | calculateur_actuariel/models/premium_calculator.py:214-224 | over one year the annuity factor is exactly 1 |
| `Calculator.TermInsuranceValueNonNegative` | calculateur_actuariel/models/premium_calculator.py:103-112 | the discounted expected death payments are non-negative for a non-negative amount |
| `Calculator.AnnuityFactorLoop` | calculateur_actuariel/models/premium_calculator.py:209-226 | the survival/discount loop computes `sum over t < n of survival(t) * (1 + i) ** -t` |
| `Calculator.TermInsuranceLoop` | calculateur_actuariel/models/premium_calculator.py:103-112 | the loop computes `sum over t < n of q(t) * amount * (1 + i) ** -(t + 1)` |
| `Calculator.LifeSurchargesReconcile` | calculateur_actuariel/models/premium_calculator.py:228-237 | with the health surcharge taken on the smoking-loaded base, base + surcharges equals base * smoking loading * health factor |
| `Calculator.LifeSurchargesAsWrittenReconcile` | calculateur_actuariel/models/premium_calculator.py:231-236 | as written, base + surcharges equals the loaded total exactly when the holder does not smoke, or the health factor is 1, or the base is 0 |
| `Calculator.LifeSurchargesAsWrittenShortfall` | calculateur_actuariel/models/premium_calculator.py:231-236 | as written, the parts fall short of the loaded total by exactly the smoking surcharge taken on the health surcharge |
| `Calculator.LifeSurchargesAsWrittenExample` | calculateur_actuariel/models/premium_calculator.py:231-236 | a smoker with factor 1.5 on a base of 100 gets parts summing to 230 against a total of 270; the corrected parts sum to 270 |
| `Calculator.PremiumCalculator.constructor` | calculateur_actuariel/models/premium_calculator.py:5-15 | every constructor argument is stored in its field |
| `Calculator.PremiumCalculator.GetMortalityRate` | calculateur_actuariel/models/premium_calculator.py:63-71 | the table entry at index `clamp(age + offset - 18, 0, 59)` from the male table for "male" and the female table otherwise, divided by 1000; always in [0.000001, 0.001778] |
| `Calculator.PremiumCalculator.MortalityRateMonotone` | calculateur_actuariel/models/premium_calculator.py:63-71 | a later offset never gives a lower rate |
| `Calculator.PremiumCalculator.MortalityRateCapped` | calculateur_actuariel/models/premium_calculator.py:65-71 | from attained age 77 on the index is clamped to 59, so the rate is 0.001778 for men and 0.000965 otherwise |
| `Calculator.PremiumCalculator.RatesAreMortalityCurve` | calculateur_actuariel/models/premium_calculator.py:63-71 | the rate is a probability at every offset |
| `Calculator.PremiumCalculator.CalculateAnnuityFactor` | calculateur_actuariel/models/premium_calculator.py:209-226 | the method returns the annuity factor over the policy term at 3% |
| `Calculator.PremiumCalculator.CalculateLifeInsurance` | calculateur_actuariel/models/premium_calculator.py:100-117 | the method returns the discounted death payments divided by the annuity factor, or the division error for a zero factor (`LifeInsuranceOutcome`) |
| `Calculator.PremiumCalculator.LifeInsuranceErrors` | calculateur_actuariel/models/premium_calculator.py:115 | the division by the annuity factor fails exactly when the term is not positive |
| `Calculator.PremiumCalculator.LifeInsuranceOneYear` | calculateur_actuariel/models/premium_calculator.py:100-117 | over one year the premium is `q(0) * amount / 1.03` |
| `Calculator.PremiumCalculator.LifeInsuranceNonNegative` | calculateur_actuariel/models/premium_calculator.py:100-117 | a non-negative amount over a positive term gives a non-negative premium |
| `Calculator.PremiumCalculator.CalculateHealthInsurance` | calculateur_actuariel/models/premium_calculator.py:119-129 | `amount * 0.005 * (1 + (age - 30) * 0.03)`: 0.5% of the amount at 30, plus 0.015% of the amount per year above 30, and never less than 0.5% from 30 on |
| `Calculator.PremiumCalculator.CalculateAnnuityPremium` | calculateur_actuariel/models/premium_calculator.py:131-152 | the annuity premium is the amount times the annuity factor |
| `Calculator.PremiumCalculator.AnnuityPremiumBounds` | calculateur_actuariel/models/premium_calculator.py:131-152 | for a term of at least one year the annuity premium lies between the amount and the amount times the term |
| `Calculator.PremiumCalculator.HealthLoading` | calculateur_actuariel/models/premium_calculator.py:37-44 | every condition loading, 1.0 for an unknown one, lies in [1, 2.5] |
| `Calculator.PremiumCalculator.GetHealthFactor` | calculateur_actuariel/models/premium_calculator.py:278-284 | the loop computes the product of the condition loadings |
| `Calculator.PremiumCalculator.GetRiskFactor` | calculateur_actuariel/models/premium_calculator.py:251-260 | the loop computes the smoking loading times the product of the condition loadings |
| `Calculator.PremiumCalculator.LoadConditionsScales` | calculateur_actuariel/models/premium_calculator.py:257-258 | starting the condition loop from any value scales the result by that value |
| `Calculator.PremiumCalculator.LoadConditionsAtLeast` | calculateur_actuariel/models/premium_calculator.py:257-258 | the condition loadings never lower a non-negative starting value |
| `Calculator.PremiumCalculator.UnknownConditionIgnored` | calculateur_actuariel/models/premium_calculator.py:258 | a condition missing from the table counts as 1.0 |
| `Calculator.PremiumCalculator.RiskFactorSplits` | calculateur_actuariel/models/premium_calculator.py:251-284 | the risk factor is the smoking part times the health factor, and both are at least 1 |
| `Calculator.PremiumCalculator.SmokingDiabeticRiskFactor` | calculateur_actuariel/models/premium_calculator.py:251-284 | a diabetic smoker has health factor 1.5 and risk factor 2.7 |
| `Calculator.PremiumCalculator.CalculateLifeInsurancePremium` | calculateur_actuariel/models/premium_calculator.py:82-98 | the method returns the base premium of the selected cover times the risk factor (`LifePremium`) |
| `Calculator.PremiumCalculator.LifePremiumLoaded` | calculateur_actuariel/models/premium_calculator.py:82-98 | the life branch fails exactly for "life" cover with no positive term. Otherwise it is the base premium times smoking loading times health factor, and never below a non-negative base |
| `Calculator.PremiumCalculator.NonLifeRiskLoading` | calculateur_actuariel/models/premium_calculator.py:47-53 | every non-life risk loading, 1.0 for an unknown risk, lies in [1, 2.2] |
| `Calculator.PremiumCalculator.FlaggedRiskLoop` | calculateur_actuariel/models/premium_calculator.py:169-172 | the loop multiplies in the loadings of exactly the flagged risks |
| `Calculator.PremiumCalculator.CalculateNonLifeInsurancePremium` | calculateur_actuariel/models/premium_calculator.py:154-183 | the method returns amount * base rate (default 0.003) * flagged loadings * the age band for auto and accident (`NonLifePremium`) |
| `Calculator.PremiumCalculator.GetNonLifeRiskFactor` | calculateur_actuariel/models/premium_calculator.py:262-276 | the method returns the flagged loadings times 1.5 under 25 or 1.3 over 65, for auto and accident only |
| `Calculator.PremiumCalculator.FlaggedRiskLoadingsAtLeastOne` | calculateur_actuariel/models/premium_calculator.py:169-172 | the product of flagged loadings is at least 1 |
| `Calculator.PremiumCalculator.NonLifePremiumUsesRiskFactor` | calculateur_actuariel/models/premium_calculator.py:154-183 | the non-life premium equals amount * base rate * `get_non_life_risk_factor()`, and that factor is at least 1 |
| `Calculator.PremiumCalculator.YoungDriverNonLife` | calculateur_actuariel/models/premium_calculator.py:154-183 | an auto driver under 25 with no flagged risk pays amount * 0.04 * 1.5 |
| `Calculator.PremiumCalculator.CalculateMandatoryInsurancePremium` | calculateur_actuariel/models/premium_calculator.py:185-207 | a type in the mandatory table uses its own rate; any other type uses 0.015 |
| `Calculator.PremiumCalculator.MandatoryRates` | calculateur_actuariel/models/premium_calculator.py:56-61 | auto_liability, health, professional and home pay 2.5%, 1.5%, 2% and 1%. An unknown type with a non-zero amount does not pay the unused `.get` default of 2% |
| `Calculator.PremiumCalculator.CalculatePremium` | calculateur_actuariel/models/premium_calculator.py:73-80 | the method routes "vie" to the life branch, "non_vie" to non-life and every other branch to mandatory (`Premium`) |
| `Calculator.PremiumCalculator.PremiumErrors` | calculateur_actuariel/models/premium_calculator.py:73-117 | the premium fails exactly for branch "vie", cover "life" and a term that is not positive |
| `Calculator.PremiumCalculator.GetPremiumBreakdown` | calculateur_actuariel/models/premium_calculator.py:228-249 | the method returns the per-branch breakdown as written (`BreakdownOutcome`). For life, the health surcharge is taken on the unloaded base |
| `Calculator.PremiumCalculator.BreakdownReconciles` | calculateur_actuariel/models/premium_calculator.py:228-249 | the breakdown as written fails exactly when the premium does. For life, dividing the premium by the risk factor recovers the base premium exactly, so the shown base is that base rounded. The smoking surcharge is base * 0.8 when smoking, the health surcharge is base * (health factor - 1), and the total is the loaded base, each rounded. The parts plus the smoking surcharge on the health surcharge come within 2 cents of the total, so the parts alone do for a non-smoker, a health factor of 1 or a zero base. For non_vie, dividing by the non-life risk factor recovers amount * base rate, shown rounded, and base + risk surcharge is within 1 cent of the total. For mandatory, base equals total |
| `Calculator.PremiumCalculator.CorrectedBreakdownReconciles` | calculateur_actuariel/models/premium_calculator.py:228-249 | the corrected breakdown fails exactly when the premium does and differs from the written one only for life. There the health surcharge is taken on the smoker-loaded base, and the base, the two surcharges and the total, each rounded, add up within 2 cents |
| `Calculator.PremiumCalculator.SmokingDiabeticBreakdown` | calculateur_actuariel/models/premium_calculator.py:228-237 | a 30-year-old smoker with diabetes alone, on health cover of 20000, gets the written breakdown 100 + 80 + 50 against a total of 270, and the corrected breakdown 100 + 80 + 90 |

## Left out

- The Flask application, authentication, sessions, the database, PDF
  generation, the JavaScript front end and console `print` logging. These
  are I/O and presentation, and no premium depends on them.
- `get_safe_float` (calculateur_actuariel/app.py:140-147) and its
  `float()` string parsing. Numeric inputs arrive already typed, as `real`.
  `get_safe_bool` takes a small JSON value type (`JsonValue`) so that
  Python's `==` between `True`, `1` and `1.0` is modelled.
- The web engine takes the age as a whole number. The handler actually
  passes a float, so fractional ages in term death cover (where `int()`
  truncates inside the table lookup) are not modelled. The float age in `range` is
  kept only in `WebEngine.LifeOutcomeAsWritten`; see Findings.
- IEEE-754 floating point. All arithmetic is on exact reals, so no
  bit-exact float result is claimed. `Numeric.Round2` is a concrete
  round-half-even on the exact value, because this Dafny subset has no
  opaque functions. Its contract states only that the result is whole cents,
  within half a cent and sign-preserving, and no lemma relies on its
  tie-breaking.
- Python's division by zero at `taux = -100` in the web formulas. The
  formula members require `taux != -100` whenever the loop runs at all. The
  orchestrator returns `ZeroDivision` in that case instead of raising.
- `PremiumCalculator`: the constructor's `risk_factors or {}` becomes a
  sequence of (name, flag) pairs, with None as the empty sequence. Dict
  iteration order is the order of that sequence. Python truthiness of the
  flags and of `smoking_status` is abstracted to `bool`.
- `PremiumCalculator`: `calculate_annuity_premium` and
  `calculate_annuity_factor` repeat the same survival/discount loop.
  The model runs that loop once, in `Calculator.AnnuityFactorLoop`, and
  uses it for both. The loops of `calculate_life_insurance` and
  `calculate_annuity_factor` are methods at module level that take the
  mortality curve as a parameter. The class methods call them with
  `GetMortalityRate`.
- The mortality tables are functions from index to entry, not lists. The
  negative-index and `IndexError` behaviour of a Python list is never reached
  because the index is clamped to 0..59.
- The object engine's `gender`, `coverage_type` and `insurance_branch` stay
  strings compared with `==`, as in the source.
- Calculator.PremiumCalculator.GetPremiumBreakdown: the life breakdown is the
  one written, whose parts do not add up to the total for a smoker with a
  health condition. The reconciliation within 2 cents is promised only for
  `CorrectedBreakdownOutcome`; see Findings.
- The web engine's requests carry the `coverageType` as a `LifeContract`,
  `NonLifeCoverage` or `MandatoryCoverage` value, not as a string. The
  name of an unknown contract or coverage comes from `LifeContractOf`,
  `NonLifeCoverageOf` or `MandatoryCoverageOf`, so it is never one of the
  known names. Nothing in the types enforces this.

## Findings

| source | as written | input that shows it | evidently intended | confidence | as-written member | corrected member |
|---|---|---|---|---|---|---|
| calculateur_actuariel/app.py:206 | `range(age, age_actuel)` receives the age as the float returned by `get_safe_float`. Python raises `TypeError`, so every valid whole-life and annuity request fails | coverageAmount 100000, age 40, coverageType vie_entiere, interestRate 1.5, no flags | the age is a whole number of years and the products run over the integer ages | not executed | `WebEngine.LifeOutcomeAsWritten`, `WebEngine.FloatAgeDiscrepancy`, `WebEngine.FloatAgeExample` | `WebEngine.LifeOutcome`, `WebEngine.CalculateLifeInsurance` |
| calculateur_actuariel/models/premium_calculator.py:235 | the health surcharge is `base * (health_factor - 1)` on the unloaded base, so for a smoker with a health condition base + smoking surcharge + health surcharge falls short of the total | base premium 100, smoker, health factor 1.5: parts 100 + 80 + 50 = 230, total 270 | the breakdown adds up to the total, with the health surcharge taken on the smoking-loaded base | not executed | `Calculator.PremiumCalculator.BreakdownOutcome`, `Calculator.PremiumCalculator.BreakdownReconciles`, `Calculator.LifeSurchargesAsWrittenReconcile`, `Calculator.PremiumCalculator.SmokingDiabeticBreakdown` | `Calculator.PremiumCalculator.CorrectedBreakdownOutcome`, `Calculator.LifeSurchargesReconcile`, `Calculator.PremiumCalculator.CorrectedBreakdownReconciles` |
