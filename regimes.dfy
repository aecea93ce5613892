/** The two tax schedules of `calculate_old_regime_tax` and `calculate_new_regime_tax`, with the
    4% cess and the final rounding, in exact arithmetic: bracket amounts are hundredths of a rupee
    and the cess-inclusive amount is ten-thousandths. */
module Regimes {
  import Slabs

  const Below60: string := "Below 60"
  const From60To80: string := "60-80"
  const Above80: string := "Above 80"

  /** The old-regime bracket amount, in hundredths of a rupee, exactly as the source's branches
      compute it: one table per age group, any other age string falling to the above-80 table. */
  function OldRegimeBracket(income: int, ageGroup: string): (b: int)
    ensures b >= 0
  {
    if ageGroup == Below60 then
      if income <= 250000 then 0
      else if income <= 500000 then (income - 250000) * 5
      else if income <= 1000000 then 1250000 + (income - 500000) * 20
      else 11250000 + (income - 1000000) * 30
    else if ageGroup == From60To80 then
      if income <= 300000 then 0
      else if income <= 500000 then (income - 300000) * 5
      else if income <= 1000000 then 1000000 + (income - 500000) * 20
      else 11000000 + (income - 1000000) * 30
    else
      if income <= 500000 then 0
      else if income <= 1000000 then (income - 500000) * 20
      else 10000000 + (income - 1000000) * 30
  }

  /** The new-regime bracket amount, in hundredths of a rupee, as the source's branches compute it. */
  function NewRegimeBracket(income: int): (b: int)
    ensures b >= 0
  {
    if income <= 300000 then 0
    else if income <= 600000 then (income - 300000) * 5
    else if income <= 900000 then 1500000 + (income - 600000) * 10
    else if income <= 1200000 then 4500000 + (income - 900000) * 15
    else if income <= 1500000 then 9000000 + (income - 1200000) * 20
    else 15000000 + (income - 1500000) * 30
  }

  /** The old regime's slabs, written as marginal rates only: no fixed offsets. */
  function OldRegimeSlabs(ageGroup: string): (slabs: seq<Slabs.Slab>)
    ensures Slabs.Ascending(slabs) && |slabs| > 0
  {
    if ageGroup == Below60 then
      [Slabs.Slab(250000, 5), Slabs.Slab(500000, 20), Slabs.Slab(1000000, 30)]
    else if ageGroup == From60To80 then
      [Slabs.Slab(300000, 5), Slabs.Slab(500000, 20), Slabs.Slab(1000000, 30)]
    else
      [Slabs.Slab(500000, 20), Slabs.Slab(1000000, 30)]
  }

  const NewRegimeSlabs: seq<Slabs.Slab> :=
    [Slabs.Slab(300000, 5), Slabs.Slab(600000, 10), Slabs.Slab(900000, 15),
     Slabs.Slab(1200000, 20), Slabs.Slab(1500000, 30)]

  /** The income up to which the old regime charges nothing. */
  function OldExemption(ageGroup: string): int {
    if ageGroup == Below60 then 250000 else if ageGroup == From60To80 then 300000 else 500000
  }

  const NewExemption: int := 300000

  /** Every fixed offset in the source's branches is the tax accumulated by the lower slabs,
      so the branch formulas equal the marginal-rate schedule on every income. */
  lemma OldBracketIsSlabTax(income: int, ageGroup: string)
    ensures OldRegimeBracket(income, ageGroup) == Slabs.SlabTax(OldRegimeSlabs(ageGroup), income)
  {
    var s := OldRegimeSlabs(ageGroup);
    var top := [Slabs.Slab(1000000, 30)];
    assert top[1..] == [];
    assert Slabs.SlabTax(top, income) == 30 * Slabs.Max(0, income - 1000000);
    if ageGroup == Below60 || ageGroup == From60To80 {
      var s1 := [Slabs.Slab(500000, 20)] + top;
      assert s[1..] == s1 && s1[1..] == top;
      assert Slabs.SlabTax(s1, income) == 20 * Slabs.Max(0, Slabs.Min(income, 1000000) - 500000) + Slabs.SlabTax(top, income);
      assert Slabs.SlabTax(s, income) == 5 * Slabs.Max(0, Slabs.Min(income, 500000) - s[0].from) + Slabs.SlabTax(s1, income);
    } else {
      assert s[1..] == top;
      assert Slabs.SlabTax(s, income) == 20 * Slabs.Max(0, Slabs.Min(income, 1000000) - 500000) + Slabs.SlabTax(top, income);
    }
  }

  lemma NewBracketIsSlabTax(income: int)
    ensures NewRegimeBracket(income) == Slabs.SlabTax(NewRegimeSlabs, income)
  {
    var s := NewRegimeSlabs;
    var s1, s2, s3, s4 := s[1..], s[2..], s[3..], s[4..];
    assert s1[1..] == s2 && s2[1..] == s3 && s3[1..] == s4 && s4[1..] == [];
    assert Slabs.SlabTax(s4, income) == 30 * Slabs.Max(0, income - 1500000);
    assert Slabs.SlabTax(s3, income) == 20 * Slabs.Max(0, Slabs.Min(income, 1500000) - 1200000) + Slabs.SlabTax(s4, income);
    assert Slabs.SlabTax(s2, income) == 15 * Slabs.Max(0, Slabs.Min(income, 1200000) - 900000) + Slabs.SlabTax(s3, income);
    assert Slabs.SlabTax(s1, income) == 10 * Slabs.Max(0, Slabs.Min(income, 900000) - 600000) + Slabs.SlabTax(s2, income);
    assert Slabs.SlabTax(s, income) == 5 * Slabs.Max(0, Slabs.Min(income, 600000) - 300000) + Slabs.SlabTax(s1, income);
  }

  /** Python's `round()` of `num / 10000`: the nearest integer, an exact half going to the even one. */
  function RoundTenThousandths(num: int): (r: int)
    ensures -10000 <= 2 * (num - 10000 * r) <= 10000
    ensures (2 * (num - 10000 * r) == 10000 || 2 * (num - 10000 * r) == -10000) ==> r % 2 == 0
  {
    var q, rem := num / 10000, num % 10000;
    if 2 * rem < 10000 then q
    else if 2 * rem > 10000 then q + 1
    else if q % 2 == 0 then q
    else q + 1
  }

  /** Rounding never reverses order. */
  lemma RoundMonotone(a: int, b: int)
    requires a <= b
    ensures RoundTenThousandths(a) <= RoundTenThousandths(b)
  {
  }

  /** `tax += tax * 0.04; round(tax)` on a bracket amount held in hundredths. */
  function WithCess(bracket: int): (tax: int)
    ensures -10000 <= 2 * (104 * bracket - 10000 * tax) <= 10000
    ensures bracket >= 0 ==> tax >= 0
    ensures bracket == 0 ==> tax == 0
  {
    RoundTenThousandths(104 * bracket)
  }

  /** `calculate_old_regime_tax`: the nearest rupee to 1.04 times the age group's bracket amount;
      never negative, and nothing up to the age group's exemption limit. */
  function OldRegimeTax(income: int, ageGroup: string): (tax: int)
    ensures -10000 <= 2 * (104 * OldRegimeBracket(income, ageGroup) - 10000 * tax) <= 10000
    ensures tax >= 0
    ensures income <= OldExemption(ageGroup) ==> tax == 0
  {
    WithCess(OldRegimeBracket(income, ageGroup))
  }

  /** `calculate_new_regime_tax`: the nearest rupee to 1.04 times the bracket amount; never
      negative, and nothing up to 300,000. */
  function NewRegimeTax(income: int): (tax: int)
    ensures -10000 <= 2 * (104 * NewRegimeBracket(income) - 10000 * tax) <= 10000
    ensures tax >= 0
    ensures income <= NewExemption ==> tax == 0
  {
    WithCess(NewRegimeBracket(income))
  }

  /** The bracket amount is positive exactly above the exemption limit. */
  lemma OldBracketPositiveIff(income: int, ageGroup: string)
    ensures OldRegimeBracket(income, ageGroup) > 0 <==> income > OldExemption(ageGroup)
  {
    OldBracketIsSlabTax(income, ageGroup);
    var s := OldRegimeSlabs(ageGroup);
    if income > OldExemption(ageGroup) {
      Slabs.SlabTaxPositiveAbove(s, income);
    } else {
      Slabs.SlabTaxZeroBelow(s, income);
    }
  }

  lemma NewBracketPositiveIff(income: int)
    ensures NewRegimeBracket(income) > 0 <==> income > NewExemption
  {
    NewBracketIsSlabTax(income);
    if income > NewExemption {
      Slabs.SlabTaxPositiveAbove(NewRegimeSlabs, income);
    } else {
      Slabs.SlabTaxZeroBelow(NewRegimeSlabs, income);
    }
  }

  /** Continuity at every band boundary: one more rupee of taxable income raises the bracket amount
      by exactly the marginal rate of the slab it falls in, which is at most 30%. */
  lemma OldBracketStep(income: int, ageGroup: string)
    ensures OldRegimeBracket(income + 1, ageGroup) - OldRegimeBracket(income, ageGroup)
         == Slabs.RateAt(OldRegimeSlabs(ageGroup), income)
    ensures 0 <= OldRegimeBracket(income + 1, ageGroup) - OldRegimeBracket(income, ageGroup) <= 30
  {
    OldBracketIsSlabTax(income, ageGroup);
    OldBracketIsSlabTax(income + 1, ageGroup);
    Slabs.SlabTaxStep(OldRegimeSlabs(ageGroup), income);
    Slabs.RateAtBounded(OldRegimeSlabs(ageGroup), income, 30);
  }

  lemma NewBracketStep(income: int)
    ensures NewRegimeBracket(income + 1) - NewRegimeBracket(income) == Slabs.RateAt(NewRegimeSlabs, income)
    ensures 0 <= NewRegimeBracket(income + 1) - NewRegimeBracket(income) <= 30
  {
    NewBracketIsSlabTax(income);
    NewBracketIsSlabTax(income + 1);
    Slabs.SlabTaxStep(NewRegimeSlabs, income);
    Slabs.RateAtBounded(NewRegimeSlabs, income, 30);
  }

  /** More taxable income never lowers the old-regime tax. */
  lemma OldRegimeTaxMonotone(x: int, y: int, ageGroup: string)
    requires x <= y
    ensures OldRegimeTax(x, ageGroup) <= OldRegimeTax(y, ageGroup)
  {
    OldBracketIsSlabTax(x, ageGroup);
    OldBracketIsSlabTax(y, ageGroup);
    Slabs.SlabTaxMonotone(OldRegimeSlabs(ageGroup), x, y);
    RoundMonotone(104 * OldRegimeBracket(x, ageGroup), 104 * OldRegimeBracket(y, ageGroup));
  }

  /** More taxable income never lowers the new-regime tax. */
  lemma NewRegimeTaxMonotone(x: int, y: int)
    requires x <= y
    ensures NewRegimeTax(x) <= NewRegimeTax(y)
  {
    NewBracketIsSlabTax(x);
    NewBracketIsSlabTax(y);
    Slabs.SlabTaxMonotone(NewRegimeSlabs, x, y);
    RoundMonotone(104 * NewRegimeBracket(x), 104 * NewRegimeBracket(y));
  }

  /** Any age string other than the two named ones is taxed as above 80. */
  lemma OtherAgeGroupsAsAbove80(income: int, ageGroup: string)
    requires ageGroup != Below60 && ageGroup != From60To80
    ensures OldRegimeTax(income, ageGroup) == OldRegimeTax(income, Above80)
    ensures OldExemption(ageGroup) == 500000
  {
  }

  /** The worked figures: 650,000 below 60 is 12,500 + 30,000 = 42,500, with cess 44,200;
      750,000 under the new regime is 30,000, with cess 31,200. */
  lemma WorkedExample()
    ensures OldRegimeTax(650000, Below60) == 44200
    ensures NewRegimeTax(750000) == 31200
  {
  }
}
