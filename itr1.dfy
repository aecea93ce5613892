/** The ITR-1 filing document built from the field dictionary: the personal details of Part A,
    the incomes of Part B, the deductions of Part C and three more figures, every number
    coerced with `int(float(...))`, and the tax summary when a calculation has been made. */
module Itr1 {
  import opened Wrappers
  import opened Fields
  import opened Calculator
  import Forms

  /** `Part_A_General_1`: the four personal details, copied as they stand (default ""). */
  datatype PartAGeneral = PartAGeneral(assesseeVerPan: Value, firstName: Value, address: Value, mobileNo: Value)

  /** `Part_B_TI`. */
  datatype PartBTI = PartBTI(incSalary: int, incInterest: int, incHouseProp: int, incOther: int, digitalAssets: int)

  /** `Part_C_Deductions`. */
  datatype PartCDeductions = PartCDeductions(
    section80C: int, section80D: int, section80EEA: int, section80CCD2: int,
    section80TTA: int, section80G: int, section80CCD: int, otherDeductions: int)

  /** `ITR1_FORM_DATA`. */
  datatype FormData = FormData(
    partA: PartAGeneral, partB: PartBTI, partC: PartCDeductions,
    exemptAllowances: int, homeLoanInterestSelfOccupied: int, homeLoanInterestLetOut: int)

  /** `Tax_Calculation`: seven of the ten entries of the result record. */
  datatype TaxCalculation = TaxCalculation(
    totalIncome: int, totalDeductions: int,
    taxableIncomeOldRegime: int, taxableIncomeNewRegime: int,
    taxPayableOldRegime: int, taxPayableNewRegime: int,
    recommendedRegime: string)

  /** The whole document; `Tax_Calculation` is absent until a calculation is made. */
  datatype Itr1Document = Itr1Document(formData: FormData, taxCalculation: Option<TaxCalculation>)

  /** The file the document is written to. */
  const ExportFileName: string := "itr1_prefilled.json"

  /** The `ITR1_FORM_DATA` dictionary; None when a numeric field does not coerce, which the source
      reports and answers with no file. */
  function BuildForm(data: FieldMap): (r: Option<FormData>)
    ensures r.Some? <==> forall k :: k in FormKeys ==> CoerceField(data, k).Some?
  {
    NumbersCoerceIff(data);
    if NumbersCoerce(data) then
      Some(FormData(
        PartAGeneral(Lookup(data, Pan, Str("")), Lookup(data, Name, Str("")),
                     Lookup(data, Address, Str("")), Lookup(data, Contact, Str(""))),
        PartBTI(CoerceField(data, SalaryIncome).value, CoerceField(data, InterestIncome).value,
                CoerceField(data, RentalIncome).value, CoerceField(data, OtherIncome).value,
                CoerceField(data, DigitalAssetsIncome).value),
        PartCDeductions(CoerceField(data, Deduction80C).value, CoerceField(data, Deduction80D).value,
                        CoerceField(data, Deduction80EEA).value, CoerceField(data, Deduction80CCD2).value,
                        CoerceField(data, Deduction80TTA).value, CoerceField(data, Deduction80G).value,
                        CoerceField(data, Deduction80CCD).value, CoerceField(data, OtherDeductions).value),
        CoerceField(data, ExemptAllowances).value,
        CoerceField(data, HomeLoanSelf).value,
        CoerceField(data, HomeLoanLetout).value))
    else None
  }

  /** Each of the sixteen numeric fields coerces. */
  predicate NumbersCoerce(data: FieldMap) {
    && CoerceField(data, SalaryIncome).Some? && CoerceField(data, InterestIncome).Some?
    && CoerceField(data, RentalIncome).Some? && CoerceField(data, DigitalAssetsIncome).Some?
    && CoerceField(data, ExemptAllowances).Some? && CoerceField(data, HomeLoanSelf).Some?
    && CoerceField(data, HomeLoanLetout).Some? && CoerceField(data, OtherIncome).Some?
    && CoerceField(data, Deduction80C).Some? && CoerceField(data, Deduction80D).Some?
    && CoerceField(data, Deduction80EEA).Some? && CoerceField(data, Deduction80CCD2).Some?
    && CoerceField(data, Deduction80TTA).Some? && CoerceField(data, Deduction80G).Some?
    && CoerceField(data, Deduction80CCD).Some? && CoerceField(data, OtherDeductions).Some?
  }

  lemma NumbersCoerceIff(data: FieldMap)
    ensures NumbersCoerce(data) <==> forall k :: k in FormKeys ==> CoerceField(data, k).Some?
  {
  }

  /** The dictionary entry each leaf of the form was read from: the sixteen numeric keys with the
      leaf's number and the four personal keys with Part A's values. */
  function FormEntries(f: FormData): FieldMap {
    map[Pan := f.partA.assesseeVerPan,
        Name := f.partA.firstName,
        Address := f.partA.address,
        Contact := f.partA.mobileNo,
        SalaryIncome := Num(f.partB.incSalary as real),
        InterestIncome := Num(f.partB.incInterest as real),
        RentalIncome := Num(f.partB.incHouseProp as real),
        OtherIncome := Num(f.partB.incOther as real),
        DigitalAssetsIncome := Num(f.partB.digitalAssets as real),
        Deduction80C := Num(f.partC.section80C as real),
        Deduction80D := Num(f.partC.section80D as real),
        Deduction80EEA := Num(f.partC.section80EEA as real),
        Deduction80CCD2 := Num(f.partC.section80CCD2 as real),
        Deduction80TTA := Num(f.partC.section80TTA as real),
        Deduction80G := Num(f.partC.section80G as real),
        Deduction80CCD := Num(f.partC.section80CCD as real),
        OtherDeductions := Num(f.partC.otherDeductions as real),
        ExemptAllowances := Num(f.exemptAllowances as real),
        HomeLoanSelf := Num(f.homeLoanInterestSelfOccupied as real),
        HomeLoanLetout := Num(f.homeLoanInterestLetOut as real)]
  }

  /** Nothing is lost between the form and its entries: building from a form's entries gives the form. */
  lemma {:induction false} BuildFormOfEntries(f: FormData)
    ensures BuildForm(FormEntries(f)) == Some(f)
  {
    IncomeLeaves(f);
    DeductionLeavesLow(f);
    DeductionLeavesHigh(f);
    AmountLeaves(f);
    PersonalLeaves(f);
  }

  /** A form's entries are the sixteen numeric keys and the four personal keys. */
  lemma FormEntriesKeys(f: FormData)
    ensures FormEntries(f).Keys == FormKeys + PersonalKeys
  {
  }

  /** Each income of a form is read back from its entry. */
  lemma IncomeLeaves(f: FormData)
    ensures CoerceField(FormEntries(f), SalaryIncome) == Some(f.partB.incSalary)
    ensures CoerceField(FormEntries(f), InterestIncome) == Some(f.partB.incInterest)
    ensures CoerceField(FormEntries(f), RentalIncome) == Some(f.partB.incHouseProp)
    ensures CoerceField(FormEntries(f), OtherIncome) == Some(f.partB.incOther)
    ensures CoerceField(FormEntries(f), DigitalAssetsIncome) == Some(f.partB.digitalAssets)
  {
    var m := FormEntries(f);
    CoerceNumber(m, SalaryIncome, f.partB.incSalary);
    CoerceNumber(m, InterestIncome, f.partB.incInterest);
    CoerceNumber(m, RentalIncome, f.partB.incHouseProp);
    CoerceNumber(m, OtherIncome, f.partB.incOther);
    CoerceNumber(m, DigitalAssetsIncome, f.partB.digitalAssets);
  }

  /** The first four deductions of a form are read back from their entries. */
  lemma DeductionLeavesLow(f: FormData)
    ensures CoerceField(FormEntries(f), Deduction80C) == Some(f.partC.section80C)
    ensures CoerceField(FormEntries(f), Deduction80D) == Some(f.partC.section80D)
    ensures CoerceField(FormEntries(f), Deduction80EEA) == Some(f.partC.section80EEA)
    ensures CoerceField(FormEntries(f), Deduction80CCD2) == Some(f.partC.section80CCD2)
  {
    var m := FormEntries(f);
    CoerceNumber(m, Deduction80C, f.partC.section80C);
    CoerceNumber(m, Deduction80D, f.partC.section80D);
    CoerceNumber(m, Deduction80EEA, f.partC.section80EEA);
    CoerceNumber(m, Deduction80CCD2, f.partC.section80CCD2);
  }

  /** The last four deductions of a form are read back from their entries. */
  lemma DeductionLeavesHigh(f: FormData)
    ensures CoerceField(FormEntries(f), Deduction80TTA) == Some(f.partC.section80TTA)
    ensures CoerceField(FormEntries(f), Deduction80G) == Some(f.partC.section80G)
    ensures CoerceField(FormEntries(f), Deduction80CCD) == Some(f.partC.section80CCD)
    ensures CoerceField(FormEntries(f), OtherDeductions) == Some(f.partC.otherDeductions)
  {
    var m := FormEntries(f);
    CoerceNumber(m, Deduction80TTA, f.partC.section80TTA);
    CoerceNumber(m, Deduction80G, f.partC.section80G);
    CoerceNumber(m, Deduction80CCD, f.partC.section80CCD);
    CoerceNumber(m, OtherDeductions, f.partC.otherDeductions);
  }

  /** The three top-level amounts of a form are read back from their entries. */
  lemma AmountLeaves(f: FormData)
    ensures CoerceField(FormEntries(f), ExemptAllowances) == Some(f.exemptAllowances)
    ensures CoerceField(FormEntries(f), HomeLoanSelf) == Some(f.homeLoanInterestSelfOccupied)
    ensures CoerceField(FormEntries(f), HomeLoanLetout) == Some(f.homeLoanInterestLetOut)
  {
    var m := FormEntries(f);
    CoerceNumber(m, ExemptAllowances, f.exemptAllowances);
    CoerceNumber(m, HomeLoanSelf, f.homeLoanInterestSelfOccupied);
    CoerceNumber(m, HomeLoanLetout, f.homeLoanInterestLetOut);
  }

  /** The personal details of a form are read back from their entries. */
  lemma PersonalLeaves(f: FormData)
    ensures Lookup(FormEntries(f), Pan, Str("")) == f.partA.assesseeVerPan
    ensures Lookup(FormEntries(f), Name, Str("")) == f.partA.firstName
    ensures Lookup(FormEntries(f), Address, Str("")) == f.partA.address
    ensures Lookup(FormEntries(f), Contact, Str("")) == f.partA.mobileNo
  {
  }

  /** With nothing extracted the form is all zeros and empty strings. */
  lemma EmptyForm()
    ensures BuildForm(map[]) == Some(FormData(
      PartAGeneral(Str(""), Str(""), Str(""), Str("")),
      PartBTI(0, 0, 0, 0, 0),
      PartCDeductions(0, 0, 0, 0, 0, 0, 0, 0),
      0, 0, 0))
  {
  }

  /** The `Tax_Calculation` section of a result record. */
  function TaxSection(res: CalculationResult): (t: TaxCalculation)
    requires res.recommendedRegime == Recommend(res.taxOld, res.taxNew)
    ensures t.taxPayableOldRegime == res.taxOld && t.taxPayableNewRegime == res.taxNew
    ensures t.recommendedRegime == "New Regime" <==> t.taxPayableNewRegime < t.taxPayableOldRegime
    ensures t.recommendedRegime == "Old Regime" <==> t.taxPayableOldRegime <= t.taxPayableNewRegime
  {
    TaxCalculation(res.totalIncome, res.totalDeductions, res.taxableIncomeOld, res.taxableIncomeNew,
                   res.taxOld, res.taxNew, res.recommendedRegime.Label())
  }

  /** The section of a freshly calculated result carries its totals and taxable incomes. */
  lemma TaxSectionOfCalculation(inp: CalculatorInputs, ageGroup: string, financialYear: string)
    ensures var res := CalculateTax(inp, ageGroup, financialYear);
      var t := TaxSection(res);
      && t.totalIncome == TotalIncome(inp) && t.totalDeductions == TotalDeductions(inp)
      && t.taxableIncomeOldRegime == res.taxableIncomeOld && t.taxableIncomeNewRegime == res.taxableIncomeNew
      && t.taxableIncomeOldRegime >= 0 && t.taxableIncomeNewRegime >= 0
  {
  }

  /** `generate_itr1_json`: builds the form, then adds `Tax_Calculation` to the document when
      results are given, and names the file it is written to. On a coercion failure there is no
      document and no file name. */
  method GenerateItr1Json(data: FieldMap, results: Option<CalculationResult>) returns (path: Option<string>, doc: Option<Itr1Document>)
    requires results.Some? ==> results.value.recommendedRegime == Recommend(results.value.taxOld, results.value.taxNew)
    ensures path.Some? <==> BuildForm(data).Some?
    ensures doc.Some? <==> BuildForm(data).Some?
    ensures path.Some? ==> path.value == ExportFileName
    ensures doc.Some? ==> doc.value.formData == BuildForm(data).value
    ensures doc.Some? ==> (doc.value.taxCalculation.Some? <==> results.Some?)
    ensures doc.Some? && results.Some? ==> doc.value.taxCalculation.value == TaxSection(results.value)
  {
    var form := BuildForm(data);
    if form.None? {
      return None, None;
    }
    var document := Itr1Document(form.value, None);
    if results.Some? {
      document := document.(taxCalculation := Some(TaxSection(results.value)));
    }
    path := Some(ExportFileName);
    doc := Some(document);
  }

  /** After the calculator merge the document can always be built, and its numbers are the
      calculator's own. */
  lemma {:induction false} MergedBuilds(previous: FieldMap, inp: CalculatorInputs)
    ensures BuildForm(Forms.Merge(previous, inp)).Some?
    ensures FormNumbers(BuildForm(Forms.Merge(previous, inp)).value) == inp
  {
    var merged := Forms.Merge(previous, inp);
    Forms.MergedIncomes(previous, inp);
    Forms.MergedAmounts(previous, inp);
    Forms.MergedDeductionsLow(previous, inp);
    Forms.MergedDeductionsHigh(previous, inp);
    CoerceNumber(merged, SalaryIncome, inp.salaryIncome);
    CoerceNumber(merged, InterestIncome, inp.interestIncome);
    CoerceNumber(merged, RentalIncome, inp.rentalIncome);
    CoerceNumber(merged, DigitalAssetsIncome, inp.digitalAssetsIncome);
    CoerceNumber(merged, ExemptAllowances, inp.exemptAllowances);
    CoerceNumber(merged, HomeLoanSelf, inp.homeLoanSelf);
    CoerceNumber(merged, HomeLoanLetout, inp.homeLoanLetout);
    CoerceNumber(merged, OtherIncome, inp.otherIncome);
    CoerceNumber(merged, Deduction80C, inp.deduction80C);
    CoerceNumber(merged, Deduction80D, inp.deduction80D);
    CoerceNumber(merged, Deduction80EEA, inp.deduction80EEA);
    CoerceNumber(merged, Deduction80CCD2, inp.deduction80CCD2);
    CoerceNumber(merged, Deduction80TTA, inp.deduction80TTA);
    CoerceNumber(merged, Deduction80G, inp.deduction80G);
    CoerceNumber(merged, Deduction80CCD, inp.deduction80CCD);
    CoerceNumber(merged, OtherDeductions, inp.otherDeductions);
  }

  /** The sixteen numbers of a form, in the calculator's order. */
  function FormNumbers(f: FormData): CalculatorInputs {
    CalculatorInputs(
      f.partB.incSalary, f.partB.incInterest, f.partB.incHouseProp, f.partB.digitalAssets,
      f.exemptAllowances, f.homeLoanInterestSelfOccupied, f.homeLoanInterestLetOut, f.partB.incOther,
      f.partC.section80C, f.partC.section80D, f.partC.section80EEA, f.partC.section80CCD2,
      f.partC.section80TTA, f.partC.section80G, f.partC.section80CCD, f.partC.otherDeductions)
  }

  /** The document and the calculator read the dictionary alike: whenever the calculator can be
      prefilled the document can be built, and when no value lies outside its widget's range the
      document holds exactly the calculator's prefills. */
  lemma DocumentAgreesWithCalculator(data: FieldMap)
    requires Forms.CalculatorDefaults(data).Some?
    ensures BuildForm(data).Some?
    ensures (forall k :: k in FormKeys ==> Forms.InRange(k, CoerceField(data, k).value)) ==>
      FormNumbers(BuildForm(data).value) == Forms.CalculatorDefaults(data).value
  {
  }

  /** A saved edit form can always be built into the document. */
  lemma EditSnapshotBuilds(data: FieldMap, numEdits: map<string, int>, textEdits: map<string, string>)
    requires forall k :: k in numEdits ==> k in FormKeys && Forms.InRange(k, numEdits[k])
    requires Forms.EditSnapshot(data, numEdits, textEdits).Some?
    ensures BuildForm(Forms.EditSnapshot(data, numEdits, textEdits).value).Some?
  {
    var saved := Forms.EditSnapshot(data, numEdits, textEdits).value;
    Forms.EditSnapshotSpec(data, numEdits, textEdits);
    forall k | k in FormKeys ensures CoerceField(saved, k).Some? {
      assert saved[k].Num?;
    }
  }
}
