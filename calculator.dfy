/** The "Calculate Tax" step: totals from the sixteen calculator fields, the two taxable incomes,
    the tax under each regime, the recommendation and the saving. */
module Calculator {
  import Regimes

  /** The values of the calculator's sixteen number widgets. */
  datatype CalculatorInputs = CalculatorInputs(
    salaryIncome: int, interestIncome: int, rentalIncome: int, digitalAssetsIncome: int,
    exemptAllowances: int, homeLoanSelf: int, homeLoanLetout: int, otherIncome: int,
    deduction80C: int, deduction80D: int, deduction80EEA: int, deduction80CCD2: int,
    deduction80TTA: int, deduction80G: int, deduction80CCD: int, otherDeductions: int)

  datatype Regime = OldRegime | NewRegime {
    /** The text the result record and the filing document carry. */
    function Label(): string {
      match this
      case OldRegime => "Old Regime"
      case NewRegime => "New Regime"
    }

    function Other(): Regime {
      match this
      case OldRegime => NewRegime
      case NewRegime => OldRegime
    }
  }

  datatype CalculationResult = CalculationResult(
    totalIncome: int, totalDeductions: int,
    taxableIncomeOld: int, taxableIncomeNew: int,
    taxOld: int, taxNew: int,
    recommendedRegime: Regime, taxSaving: int,
    ageGroup: string, financialYear: string)
  {
    function TaxUnder(regime: Regime): int {
      match regime
      case OldRegime => taxOld
      case NewRegime => taxNew
    }
  }

  const StandardDeduction: int := 50000

  /** Salary, interest, rental, digital-asset and other income; exempt allowances and home-loan
      interest are not part of it. */
  function TotalIncome(inp: CalculatorInputs): int {
    inp.salaryIncome + inp.interestIncome + inp.rentalIncome + inp.digitalAssetsIncome + inp.otherIncome
  }

  /** The eight deduction fields, 80C and 80TTA already within their widget caps. */
  function TotalDeductions(inp: CalculatorInputs): int {
    inp.deduction80C + inp.deduction80D + inp.deduction80EEA + inp.deduction80CCD2
    + inp.deduction80TTA + inp.deduction80G + inp.deduction80CCD + inp.otherDeductions
  }

  /** `max(0, a - b)`: the excess of `a` over `b`, and 0 when there is none. */
  function Excess(a: int, b: int): (r: int)
    ensures r >= 0 && r >= a - b
    ensures r == 0 || r == a - b
    ensures a <= b <==> r == 0
  {
    if a - b < 0 then 0 else a - b
  }

  /** `"New Regime" if tax_new < tax_old else "Old Regime"`: the cheaper regime, ties to the old. */
  function Recommend(taxOld: int, taxNew: int): (r: Regime)
    ensures r == Regime.NewRegime <==> taxNew < taxOld
    ensures r == Regime.OldRegime <==> taxOld <= taxNew
  {
    if taxNew < taxOld then Regime.NewRegime else Regime.OldRegime
  }

  /** The result record of the "Calculate Tax" button. */
  function CalculateTax(inp: CalculatorInputs, ageGroup: string, financialYear: string): (r: CalculationResult)
    ensures r.totalIncome == TotalIncome(inp) && r.totalDeductions == TotalDeductions(inp)
    ensures r.taxableIncomeOld >= 0 && r.taxableIncomeNew >= 0
    ensures r.taxableIncomeOld == 0 || r.taxableIncomeOld == r.totalIncome - r.totalDeductions
    ensures r.taxableIncomeOld >= r.totalIncome - r.totalDeductions
    ensures r.taxableIncomeNew == 0 || r.taxableIncomeNew == r.totalIncome - StandardDeduction
    ensures r.taxableIncomeNew >= r.totalIncome - StandardDeduction
    ensures r.taxOld == Regimes.OldRegimeTax(r.taxableIncomeOld, ageGroup)
    ensures r.taxNew == Regimes.NewRegimeTax(r.taxableIncomeNew)
    ensures r.recommendedRegime == Regime.NewRegime <==> r.taxNew < r.taxOld
    ensures r.TaxUnder(r.recommendedRegime) <= r.TaxUnder(r.recommendedRegime.Other())
    ensures r.taxSaving == r.TaxUnder(r.recommendedRegime.Other()) - r.TaxUnder(r.recommendedRegime)
    ensures r.taxSaving >= 0 && (r.taxSaving == r.taxOld - r.taxNew || r.taxSaving == r.taxNew - r.taxOld)
    ensures r.ageGroup == ageGroup && r.financialYear == financialYear
  {
    var totalIncome := TotalIncome(inp);
    var totalDeductions := TotalDeductions(inp);
    var taxableOld := Excess(totalIncome, totalDeductions);
    var taxableNew := Excess(totalIncome, StandardDeduction);
    var taxOld := Regimes.OldRegimeTax(taxableOld, ageGroup);
    var taxNew := Regimes.NewRegimeTax(taxableNew);
    var saving := if taxOld - taxNew < 0 then taxNew - taxOld else taxOld - taxNew;
    CalculationResult(totalIncome, totalDeductions, taxableOld, taxableNew, taxOld, taxNew,
                      Recommend(taxOld, taxNew), saving, ageGroup, financialYear)
  }

  /** The financial year is a tag: it changes nothing but itself. */
  lemma YearIsOnlyATag(inp: CalculatorInputs, ageGroup: string, year1: string, year2: string)
    ensures CalculateTax(inp, ageGroup, year1).(financialYear := year2) == CalculateTax(inp, ageGroup, year2)
  {
  }

  /** Exempt allowances and home-loan interest never enter either taxable income. */
  lemma ExemptAndHomeLoanIgnored(inp: CalculatorInputs, ageGroup: string, financialYear: string,
                                 exempt: int, homeSelf: int, homeLetout: int)
    ensures var other := inp.(exemptAllowances := exempt, homeLoanSelf := homeSelf, homeLoanLetout := homeLetout);
      CalculateTax(other, ageGroup, financialYear) == CalculateTax(inp, ageGroup, financialYear)
  {
  }

  /** Claiming more deductions never raises the old-regime tax and never touches the new-regime one. */
  lemma MoreDeductionsNeverRaiseOldTax(inp: CalculatorInputs, more: CalculatorInputs, ageGroup: string, financialYear: string)
    requires TotalIncome(more) == TotalIncome(inp) && TotalDeductions(inp) <= TotalDeductions(more)
    ensures CalculateTax(more, ageGroup, financialYear).taxOld <= CalculateTax(inp, ageGroup, financialYear).taxOld
    ensures CalculateTax(more, ageGroup, financialYear).taxNew == CalculateTax(inp, ageGroup, financialYear).taxNew
  {
    var a := CalculateTax(inp, ageGroup, financialYear);
    var b := CalculateTax(more, ageGroup, financialYear);
    Regimes.OldRegimeTaxMonotone(b.taxableIncomeOld, a.taxableIncomeOld, ageGroup);
  }
}
