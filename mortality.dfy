/** The mortality table of the web engine (app.py): a dictionary from whole
    ages 18..80 to annual death probabilities, looked up with the age clamped to
    that range, and a linear extension for ages above 80 capped at 25%. */
module Mortality {
  import opened Numeric

  /** `table_mortalite.get(a, 0.05)`: the dictionary literal, whose keys are
      exactly the ages 18 to 80; 0.05 is the fallback for any other key. */
  function TableEntry(a: int): real
  {
    match a
    case 18 => 0.0005
    case 19 => 0.0005
    case 20 => 0.0006
    case 21 => 0.0006
    case 22 => 0.0007
    case 23 => 0.0007
    case 24 => 0.0008
    case 25 => 0.0008
    case 26 => 0.0009
    case 27 => 0.0009
    case 28 => 0.0010
    case 29 => 0.0010
    case 30 => 0.0011
    case 31 => 0.0012
    case 32 => 0.0013
    case 33 => 0.0014
    case 34 => 0.0015
    case 35 => 0.0016
    case 36 => 0.0017
    case 37 => 0.0019
    case 38 => 0.0020
    case 39 => 0.0022
    case 40 => 0.0024
    case 41 => 0.0026
    case 42 => 0.0029
    case 43 => 0.0032
    case 44 => 0.0035
    case 45 => 0.0039
    case 46 => 0.0043
    case 47 => 0.0048
    case 48 => 0.0053
    case 49 => 0.0059
    case 50 => 0.0066
    case 51 => 0.0074
    case 52 => 0.0083
    case 53 => 0.0093
    case 54 => 0.0104
    case 55 => 0.0117
    case 56 => 0.0132
    case 57 => 0.0148
    case 58 => 0.0166
    case 59 => 0.0187
    case 60 => 0.0211
    case 61 => 0.0238
    case 62 => 0.0268
    case 63 => 0.0302
    case 64 => 0.0340
    case 65 => 0.0383
    case 66 => 0.0431
    case 67 => 0.0485
    case 68 => 0.0546
    case 69 => 0.0614
    case 70 => 0.0690
    case 71 => 0.0775
    case 72 => 0.0869
    case 73 => 0.0973
    case 74 => 0.1088
    case 75 => 0.1214
    case 76 => 0.1352
    case 77 => 0.1502
    case 78 => 0.1664
    case 79 => 0.1838
    case 80 => 0.2024
    case _ => 0.05
  }

  /** get_taux_mortalite: the table rate at the age clamped to [18, 80]. */
  function GetTauxMortalite(age: int): (q: real)
    ensures age < 18 ==> q == 0.0005
    ensures age > 80 ==> q == 0.2024
    ensures 18 <= age <= 80 ==> q == TableEntry(age)
    ensures 0.0005 <= q <= 0.2024
  {
    TableEntry(Clamp(18, 80, age))
  }

  /** Consecutive table entries never decrease. */
  lemma TableStep()
    ensures forall a :: 18 <= a < 80 ==> TableEntry(a) <= TableEntry(a + 1)
  {
  }

  /** The clamped table rate is non-decreasing in the age, over all ages. */
  lemma {:induction false} GetTauxMortaliteMonotone(a: int, b: int)
    requires a <= b
    ensures GetTauxMortalite(a) <= GetTauxMortalite(b)
    decreases b - a
  {
    if a < b {
      GetTauxMortaliteMonotone(a, b - 1);
      TableStep();
      assert GetTauxMortalite(b - 1) <= GetTauxMortalite(b);
    }
  }

  /** Every tabulated entry is a probability strictly between 0 and 1, and the
      fallback 0.05 is never reached by the clamped lookup. */
  lemma TableEntriesAreProbabilities(a: int)
    requires 18 <= a <= 80
    ensures 0.0 < TableEntry(a) < 1.0
    ensures GetTauxMortalite(a) == TableEntry(a)
  {
  }

  /** get_taux_mortalite_etendu: the table up to 80, then
      `min(0.25, 0.05 + (age - 80) * 0.025)`. */
  function GetTauxMortaliteEtendu(age: int): (q: real)
    ensures age <= 80 ==> q == GetTauxMortalite(age)
    ensures age > 80 ==> 0.075 <= q <= 0.25
    ensures 0.0 < q < 1.0
  {
    if age <= 80 then GetTauxMortalite(age)
    else
      var e := 0.05 + (age - 80) as real * 0.025;
      if e < 0.25 then e else 0.25
  }

  /** Above 80 the extension grows by 2.5 points a year until it reaches the
      25% cap at age 88, and stays there. */
  lemma EtenduAbove80(age: int)
    requires age > 80
    ensures age < 88 ==> GetTauxMortaliteEtendu(age) == 0.05 + (age - 80) as real * 0.025
    ensures age >= 88 ==> GetTauxMortaliteEtendu(age) == 0.25
    ensures GetTauxMortaliteEtendu(age) <= 0.25
  {
  }

  /** Reference values: 85 gives 0.175, 90 is capped to 0.25, and the rate
      falls from 0.2024 at 80 to 0.075 at 81, so the extended rate is not
      monotone across 80. */
  lemma EtenduReferenceValues()
    ensures GetTauxMortaliteEtendu(85) == 0.175
    ensures GetTauxMortaliteEtendu(90) == 0.25
    ensures GetTauxMortaliteEtendu(80) == 0.2024
    ensures GetTauxMortaliteEtendu(81) == 0.075
    ensures GetTauxMortaliteEtendu(81) < GetTauxMortaliteEtendu(80)
  {
  }
}
