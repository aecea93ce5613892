/** The number widgets of the edit form and of the calculator: how each is prefilled from the field
    dictionary, and how their values are written back into it. Both forms show the same sixteen
    widgets, prefilled the same way. */
module Forms {
  import opened Wrappers
  import opened Fields
  import opened Calculator

  const Cap80C: int := 150000
  const Cap80TTA: int := 10000

  /** The `max_value` of a key's widget; every widget has `min_value=0`. */
  function MaxValue(key: string): Option<int> {
    if key == Deduction80C then Some(Cap80C)
    else if key == Deduction80TTA then Some(Cap80TTA)
    else None
  }

  /** The values a key's widget can hold. */
  predicate InRange(key: string, v: int) {
    0 <= v && (MaxValue(key).Some? ==> v <= MaxValue(key).value)
  }

  /** The widget's prefill: `int(float(data.get(key, 0)))`, lowered to the cap for 80C and 80TTA.
      A prefill below the widget's minimum makes the widget raise, which is None here, as is a
      value that does not coerce. */
  function WidgetDefault(data: FieldMap, key: string): (r: Option<int>)
    ensures r.Some? <==> CoerceField(data, key).Some? && CoerceField(data, key).value >= 0
    ensures r.Some? ==> InRange(key, r.value)
    ensures r.Some? && InRange(key, CoerceField(data, key).value) ==> r.value == CoerceField(data, key).value
    ensures r.Some? && !InRange(key, CoerceField(data, key).value) ==> r == MaxValue(key)
  {
    var n :- CoerceField(data, key);
    var shown := match MaxValue(key) case Some(cap) => (if n < cap then n else cap) case None => n;
    if shown < 0 then None else Some(shown)
  }

  /** Every widget holds a value it allows. */
  predicate WithinWidgetBounds(inp: CalculatorInputs) {
    && inp.salaryIncome >= 0 && inp.interestIncome >= 0 && inp.rentalIncome >= 0
    && inp.digitalAssetsIncome >= 0 && inp.exemptAllowances >= 0 && inp.homeLoanSelf >= 0
    && inp.homeLoanLetout >= 0 && inp.otherIncome >= 0
    && 0 <= inp.deduction80C <= Cap80C && inp.deduction80D >= 0 && inp.deduction80EEA >= 0
    && inp.deduction80CCD2 >= 0 && 0 <= inp.deduction80TTA <= Cap80TTA && inp.deduction80G >= 0
    && inp.deduction80CCD >= 0 && inp.otherDeductions >= 0
  }

  /** Every one of the sixteen widgets can be prefilled from `data`. */
  predicate Prefills(data: FieldMap) {
    forall k :: k in FormKeys ==> WidgetDefault(data, k).Some?
  }

  /** The sixteen prefills; None when any widget cannot be prefilled. */
  function CalculatorDefaults(data: FieldMap): (r: Option<CalculatorInputs>)
    ensures r.Some? <==> Prefills(data)
    ensures r.Some? ==> r.value.salaryIncome == WidgetDefault(data, SalaryIncome).value
    ensures r.Some? ==> r.value.interestIncome == WidgetDefault(data, InterestIncome).value
    ensures r.Some? ==> r.value.rentalIncome == WidgetDefault(data, RentalIncome).value
    ensures r.Some? ==> r.value.digitalAssetsIncome == WidgetDefault(data, DigitalAssetsIncome).value
    ensures r.Some? ==> r.value.exemptAllowances == WidgetDefault(data, ExemptAllowances).value
    ensures r.Some? ==> r.value.homeLoanSelf == WidgetDefault(data, HomeLoanSelf).value
    ensures r.Some? ==> r.value.homeLoanLetout == WidgetDefault(data, HomeLoanLetout).value
    ensures r.Some? ==> r.value.otherIncome == WidgetDefault(data, OtherIncome).value
    ensures r.Some? ==> r.value.deduction80C == WidgetDefault(data, Deduction80C).value
    ensures r.Some? ==> r.value.deduction80D == WidgetDefault(data, Deduction80D).value
    ensures r.Some? ==> r.value.deduction80EEA == WidgetDefault(data, Deduction80EEA).value
    ensures r.Some? ==> r.value.deduction80CCD2 == WidgetDefault(data, Deduction80CCD2).value
    ensures r.Some? ==> r.value.deduction80TTA == WidgetDefault(data, Deduction80TTA).value
    ensures r.Some? ==> r.value.deduction80G == WidgetDefault(data, Deduction80G).value
    ensures r.Some? ==> r.value.deduction80CCD == WidgetDefault(data, Deduction80CCD).value
    ensures r.Some? ==> r.value.otherDeductions == WidgetDefault(data, OtherDeductions).value
  {
    if Prefills(data) then
      Some(CalculatorInputs(
        WidgetDefault(data, SalaryIncome).value,
        WidgetDefault(data, InterestIncome).value,
        WidgetDefault(data, RentalIncome).value,
        WidgetDefault(data, DigitalAssetsIncome).value,
        WidgetDefault(data, ExemptAllowances).value,
        WidgetDefault(data, HomeLoanSelf).value,
        WidgetDefault(data, HomeLoanLetout).value,
        WidgetDefault(data, OtherIncome).value,
        WidgetDefault(data, Deduction80C).value,
        WidgetDefault(data, Deduction80D).value,
        WidgetDefault(data, Deduction80EEA).value,
        WidgetDefault(data, Deduction80CCD2).value,
        WidgetDefault(data, Deduction80TTA).value,
        WidgetDefault(data, Deduction80G).value,
        WidgetDefault(data, Deduction80CCD).value,
        WidgetDefault(data, OtherDeductions).value))
    else None
  }

  /** The prefilled values are values the widgets accept. */
  lemma DefaultsWithinBounds(data: FieldMap)
    requires CalculatorDefaults(data).Some?
    ensures WithinWidgetBounds(CalculatorDefaults(data).value)
  {
    assert Deduction80C in FormKeys && Deduction80TTA in FormKeys;
  }

  /** With nothing extracted the calculator starts from all zeros. */
  lemma EmptyDefaults()
    ensures CalculatorDefaults(map[]) == Some(CalculatorInputs(0, 0, 0, 0, 0, 0, 0, 0, 0, 0, 0, 0, 0, 0, 0, 0))
  {
  }

  /** A widget reading a number it allows shows that number. */
  lemma WidgetDefaultOfNumber(data: FieldMap, key: string, n: int)
    requires key in data && data[key] == Num(n as real) && InRange(key, n)
    ensures WidgetDefault(data, key) == Some(n)
  {
    TruncateInteger(n);
  }

  /** The sixteen entries the calculator writes back, each value a Python `int`. */
  function InputEntries(inp: CalculatorInputs): FieldMap {
    map[SalaryIncome := Num(inp.salaryIncome as real),
        InterestIncome := Num(inp.interestIncome as real),
        RentalIncome := Num(inp.rentalIncome as real),
        DigitalAssetsIncome := Num(inp.digitalAssetsIncome as real),
        ExemptAllowances := Num(inp.exemptAllowances as real),
        HomeLoanSelf := Num(inp.homeLoanSelf as real),
        HomeLoanLetout := Num(inp.homeLoanLetout as real),
        OtherIncome := Num(inp.otherIncome as real),
        Deduction80C := Num(inp.deduction80C as real),
        Deduction80D := Num(inp.deduction80D as real),
        Deduction80EEA := Num(inp.deduction80EEA as real),
        Deduction80CCD2 := Num(inp.deduction80CCD2 as real),
        Deduction80TTA := Num(inp.deduction80TTA as real),
        Deduction80G := Num(inp.deduction80G as real),
        Deduction80CCD := Num(inp.deduction80CCD as real),
        OtherDeductions := Num(inp.otherDeductions as real)]
  }

  /** The write-back covers exactly the sixteen calculator keys. */
  lemma InputEntriesKeys(inp: CalculatorInputs)
    ensures InputEntries(inp).Keys == FormKeys
  {
  }

  /** Where the first four incomes are written back. */
  lemma MergedIncomes(previous: FieldMap, inp: CalculatorInputs)
    ensures SalaryIncome in Merge(previous, inp) && Merge(previous, inp)[SalaryIncome] == Num(inp.salaryIncome as real)
    ensures InterestIncome in Merge(previous, inp) && Merge(previous, inp)[InterestIncome] == Num(inp.interestIncome as real)
    ensures RentalIncome in Merge(previous, inp) && Merge(previous, inp)[RentalIncome] == Num(inp.rentalIncome as real)
    ensures DigitalAssetsIncome in Merge(previous, inp) && Merge(previous, inp)[DigitalAssetsIncome] == Num(inp.digitalAssetsIncome as real)
  {
  }

  /** Where the exempt allowances, the two home-loan amounts and other income are written back. */
  lemma MergedAmounts(previous: FieldMap, inp: CalculatorInputs)
    ensures ExemptAllowances in Merge(previous, inp) && Merge(previous, inp)[ExemptAllowances] == Num(inp.exemptAllowances as real)
    ensures HomeLoanSelf in Merge(previous, inp) && Merge(previous, inp)[HomeLoanSelf] == Num(inp.homeLoanSelf as real)
    ensures HomeLoanLetout in Merge(previous, inp) && Merge(previous, inp)[HomeLoanLetout] == Num(inp.homeLoanLetout as real)
    ensures OtherIncome in Merge(previous, inp) && Merge(previous, inp)[OtherIncome] == Num(inp.otherIncome as real)
  {
  }

  /** Where the first four deductions are written back. */
  lemma MergedDeductionsLow(previous: FieldMap, inp: CalculatorInputs)
    ensures Deduction80C in Merge(previous, inp) && Merge(previous, inp)[Deduction80C] == Num(inp.deduction80C as real)
    ensures Deduction80D in Merge(previous, inp) && Merge(previous, inp)[Deduction80D] == Num(inp.deduction80D as real)
    ensures Deduction80EEA in Merge(previous, inp) && Merge(previous, inp)[Deduction80EEA] == Num(inp.deduction80EEA as real)
    ensures Deduction80CCD2 in Merge(previous, inp) && Merge(previous, inp)[Deduction80CCD2] == Num(inp.deduction80CCD2 as real)
  {
  }

  /** Where the last four deductions are written back. */
  lemma MergedDeductionsHigh(previous: FieldMap, inp: CalculatorInputs)
    ensures Deduction80TTA in Merge(previous, inp) && Merge(previous, inp)[Deduction80TTA] == Num(inp.deduction80TTA as real)
    ensures Deduction80G in Merge(previous, inp) && Merge(previous, inp)[Deduction80G] == Num(inp.deduction80G as real)
    ensures Deduction80CCD in Merge(previous, inp) && Merge(previous, inp)[Deduction80CCD] == Num(inp.deduction80CCD as real)
    ensures OtherDeductions in Merge(previous, inp) && Merge(previous, inp)[OtherDeductions] == Num(inp.otherDeductions as real)
  {
  }

  /** The working copy after the calculator's write-back: `previous` with the sixteen calculator
      entries written over it. Those keys hold the calculator's values, every other key of
      `previous` keeps its value, and no other key is added. */
  function Merge(previous: FieldMap, inp: CalculatorInputs): FieldMap {
    previous + InputEntries(inp)
  }

  /** What the write-back changes: exactly the sixteen calculator keys. */
  lemma MergeSpec(previous: FieldMap, inp: CalculatorInputs)
    ensures Merge(previous, inp).Keys == previous.Keys + FormKeys
    ensures forall k :: k in FormKeys ==> Merge(previous, inp)[k] == InputEntries(inp)[k]
    ensures forall k :: k in previous && k !in FormKeys ==> Merge(previous, inp)[k] == previous[k]
  {
    InputEntriesKeys(inp);
  }

  /** After the write-back the calculator prefills with exactly the values it was given. */
  lemma MergeIsFixedPoint(previous: FieldMap, inp: CalculatorInputs)
    requires WithinWidgetBounds(inp)
    ensures CalculatorDefaults(Merge(previous, inp)) == Some(inp)
  {
    MergedIncomeWidgets(previous, inp);
    MergedDeductionWidgets(previous, inp);
    DefaultsOfWidgets(Merge(previous, inp), inp);
  }

  /** Writing the same sixteen values back a second time leaves the dictionary as it was. */
  lemma MergeIdempotent(previous: FieldMap, inp: CalculatorInputs)
    ensures Merge(Merge(previous, inp), inp) == Merge(previous, inp)
  {
  }

  /** Calculating is a projection: pressing "Calculate Tax" again without touching the widgets
      shows the same sixteen values, computes the same result and writes back the same
      dictionary. */
  lemma RecalculationIsStable(previous: FieldMap, inp: CalculatorInputs, ageGroup: string, financialYear: string)
    requires WithinWidgetBounds(inp)
    ensures var merged := Merge(previous, inp);
      && CalculatorDefaults(merged) == Some(inp)
      && CalculateTax(CalculatorDefaults(merged).value, ageGroup, financialYear)
         == CalculateTax(inp, ageGroup, financialYear)
      && Merge(merged, inp) == merged
  {
    MergeIsFixedPoint(previous, inp);
    MergeIdempotent(previous, inp);
  }

  /** Sixteen widgets showing the values of `inp` make up `inp`. */
  lemma DefaultsOfWidgets(data: FieldMap, inp: CalculatorInputs)
    requires WidgetDefault(data, SalaryIncome) == Some(inp.salaryIncome)
    requires WidgetDefault(data, InterestIncome) == Some(inp.interestIncome)
    requires WidgetDefault(data, RentalIncome) == Some(inp.rentalIncome)
    requires WidgetDefault(data, DigitalAssetsIncome) == Some(inp.digitalAssetsIncome)
    requires WidgetDefault(data, ExemptAllowances) == Some(inp.exemptAllowances)
    requires WidgetDefault(data, HomeLoanSelf) == Some(inp.homeLoanSelf)
    requires WidgetDefault(data, HomeLoanLetout) == Some(inp.homeLoanLetout)
    requires WidgetDefault(data, OtherIncome) == Some(inp.otherIncome)
    requires WidgetDefault(data, Deduction80C) == Some(inp.deduction80C)
    requires WidgetDefault(data, Deduction80D) == Some(inp.deduction80D)
    requires WidgetDefault(data, Deduction80EEA) == Some(inp.deduction80EEA)
    requires WidgetDefault(data, Deduction80CCD2) == Some(inp.deduction80CCD2)
    requires WidgetDefault(data, Deduction80TTA) == Some(inp.deduction80TTA)
    requires WidgetDefault(data, Deduction80G) == Some(inp.deduction80G)
    requires WidgetDefault(data, Deduction80CCD) == Some(inp.deduction80CCD)
    requires WidgetDefault(data, OtherDeductions) == Some(inp.otherDeductions)
    ensures CalculatorDefaults(data) == Some(inp)
  {
  }

  /** After the write-back the income widgets show the calculator's incomes. */
  lemma {:induction false} MergedIncomeWidgets(previous: FieldMap, inp: CalculatorInputs)
    requires WithinWidgetBounds(inp)
    ensures WidgetDefault(Merge(previous, inp), SalaryIncome) == Some(inp.salaryIncome)
    ensures WidgetDefault(Merge(previous, inp), InterestIncome) == Some(inp.interestIncome)
    ensures WidgetDefault(Merge(previous, inp), RentalIncome) == Some(inp.rentalIncome)
    ensures WidgetDefault(Merge(previous, inp), DigitalAssetsIncome) == Some(inp.digitalAssetsIncome)
    ensures WidgetDefault(Merge(previous, inp), ExemptAllowances) == Some(inp.exemptAllowances)
    ensures WidgetDefault(Merge(previous, inp), HomeLoanSelf) == Some(inp.homeLoanSelf)
    ensures WidgetDefault(Merge(previous, inp), HomeLoanLetout) == Some(inp.homeLoanLetout)
    ensures WidgetDefault(Merge(previous, inp), OtherIncome) == Some(inp.otherIncome)
  {
    MergedIncomes(previous, inp);
    MergedAmounts(previous, inp);
    WidgetDefaultOfNumber(Merge(previous, inp), SalaryIncome, inp.salaryIncome);
    WidgetDefaultOfNumber(Merge(previous, inp), InterestIncome, inp.interestIncome);
    WidgetDefaultOfNumber(Merge(previous, inp), RentalIncome, inp.rentalIncome);
    WidgetDefaultOfNumber(Merge(previous, inp), DigitalAssetsIncome, inp.digitalAssetsIncome);
    WidgetDefaultOfNumber(Merge(previous, inp), ExemptAllowances, inp.exemptAllowances);
    WidgetDefaultOfNumber(Merge(previous, inp), HomeLoanSelf, inp.homeLoanSelf);
    WidgetDefaultOfNumber(Merge(previous, inp), HomeLoanLetout, inp.homeLoanLetout);
    WidgetDefaultOfNumber(Merge(previous, inp), OtherIncome, inp.otherIncome);
  }

  /** After the write-back the deduction widgets show the calculator's deductions. */
  lemma {:induction false} MergedDeductionWidgets(previous: FieldMap, inp: CalculatorInputs)
    requires WithinWidgetBounds(inp)
    ensures WidgetDefault(Merge(previous, inp), Deduction80C) == Some(inp.deduction80C)
    ensures WidgetDefault(Merge(previous, inp), Deduction80D) == Some(inp.deduction80D)
    ensures WidgetDefault(Merge(previous, inp), Deduction80EEA) == Some(inp.deduction80EEA)
    ensures WidgetDefault(Merge(previous, inp), Deduction80CCD2) == Some(inp.deduction80CCD2)
    ensures WidgetDefault(Merge(previous, inp), Deduction80TTA) == Some(inp.deduction80TTA)
    ensures WidgetDefault(Merge(previous, inp), Deduction80G) == Some(inp.deduction80G)
    ensures WidgetDefault(Merge(previous, inp), Deduction80CCD) == Some(inp.deduction80CCD)
    ensures WidgetDefault(Merge(previous, inp), OtherDeductions) == Some(inp.otherDeductions)
  {
    MergedDeductionsLow(previous, inp);
    MergedDeductionsHigh(previous, inp);
    WidgetDefaultOfNumber(Merge(previous, inp), Deduction80C, inp.deduction80C);
    WidgetDefaultOfNumber(Merge(previous, inp), Deduction80D, inp.deduction80D);
    WidgetDefaultOfNumber(Merge(previous, inp), Deduction80EEA, inp.deduction80EEA);
    WidgetDefaultOfNumber(Merge(previous, inp), Deduction80CCD2, inp.deduction80CCD2);
    WidgetDefaultOfNumber(Merge(previous, inp), Deduction80TTA, inp.deduction80TTA);
    WidgetDefaultOfNumber(Merge(previous, inp), Deduction80G, inp.deduction80G);
    WidgetDefaultOfNumber(Merge(previous, inp), Deduction80CCD, inp.deduction80CCD);
    WidgetDefaultOfNumber(Merge(previous, inp), OtherDeductions, inp.otherDeductions);
  }

  /** The personal section of the edit form is shown when any personal key is present. */
  predicate HasPersonal(data: FieldMap) {
    Pan in data || Name in data || Address in data || Contact in data
  }

  /** A number widget's value after the user's change, if any. */
  function Edited(edits: map<string, int>, key: string, shown: int): int {
    if key in edits then edits[key] else shown
  }

  /** A text widget's value: the user's text, or else `data.get(key, "")`. */
  function PersonalWidget(data: FieldMap, textEdits: map<string, string>, key: string): Value {
    if key in textEdits then Str(textEdits[key]) else Lookup(data, key, Str(""))
  }

  /** The numeric half of the edit form: every calculator key, its edit or its widget default.
      What the saved form means is stated by `EditSnapshotSpec`, `EditSaveIdempotent` and
      `SavedWidgets`. */
  function EditedNumbers(data: FieldMap, numEdits: map<string, int>): (r: FieldMap)
    requires forall k :: k in FormKeys ==> WidgetDefault(data, k).Some?
    ensures r.Keys == FormKeys
    ensures forall k :: k in FormKeys ==> r[k] == Num(Edited(numEdits, k, WidgetDefault(data, k).value) as real)
  {
    map k | k in FormKeys :: Num(Edited(numEdits, k, WidgetDefault(data, k).value) as real)
  }

  /** The personal half of the edit form: present only when the dictionary had personal details. */
  function EditedPersonal(data: FieldMap, textEdits: map<string, string>): (r: FieldMap)
    ensures r.Keys == if HasPersonal(data) then PersonalKeys else {}
    ensures forall k :: k in r ==> r[k] == PersonalWidget(data, textEdits, k)
  {
    if HasPersonal(data) then map k | k in PersonalKeys :: PersonalWidget(data, textEdits, k) else map[]
  }

  /** The dictionary the edit form builds when "Save Changes" is pressed: the sixteen number
      widgets, each showing its prefill unless the user changed it, and the four text widgets when
      the personal section is shown. Keys of `data` outside these are not carried over. */
  function EditSnapshot(data: FieldMap, numEdits: map<string, int>, textEdits: map<string, string>): (r: Option<FieldMap>)
    requires forall k :: k in numEdits ==> k in FormKeys && InRange(k, numEdits[k])
    ensures r.Some? <==> forall k :: k in FormKeys ==> WidgetDefault(data, k).Some?
  {
    if forall k :: k in FormKeys ==> WidgetDefault(data, k).Some? then
      Some(EditedNumbers(data, numEdits) + EditedPersonal(data, textEdits))
    else None
  }

  /** The saved dictionary has exactly the sixteen number keys, plus the four personal keys when
      the personal section is shown; each number key holds its widget's value and each personal
      key its text widget's value. */
  lemma EditSnapshotSpec(data: FieldMap, numEdits: map<string, int>, textEdits: map<string, string>)
    requires forall k :: k in numEdits ==> k in FormKeys && InRange(k, numEdits[k])
    requires EditSnapshot(data, numEdits, textEdits).Some?
    ensures var saved := EditSnapshot(data, numEdits, textEdits).value;
      saved.Keys == FormKeys + (if HasPersonal(data) then PersonalKeys else {})
    ensures var saved := EditSnapshot(data, numEdits, textEdits).value;
      forall k :: k in FormKeys ==>
        WidgetDefault(data, k).Some? && k in saved
        && saved[k] == Num(Edited(numEdits, k, WidgetDefault(data, k).value) as real)
    ensures var saved := EditSnapshot(data, numEdits, textEdits).value;
      HasPersonal(data) ==> forall k :: k in PersonalKeys ==>
        k in saved && saved[k] == PersonalWidget(data, textEdits, k)
  {
    KeySetsDisjoint();
  }

  /** Saving the edit form and reopening it shows exactly what was saved: the saved dictionary,
      submitted again unchanged, is the same dictionary. */
  lemma EditSaveIdempotent(data: FieldMap, numEdits: map<string, int>, textEdits: map<string, string>)
    requires forall k :: k in numEdits ==> k in FormKeys && InRange(k, numEdits[k])
    requires EditSnapshot(data, numEdits, textEdits).Some?
    ensures EditSnapshot(EditSnapshot(data, numEdits, textEdits).value, map[], map[])
         == EditSnapshot(data, numEdits, textEdits)
  {
    var saved := EditSnapshot(data, numEdits, textEdits).value;
    EditSnapshotSpec(data, numEdits, textEdits);
    SavedWidgets(data, numEdits, textEdits);
    NumbersReopened(saved, data, numEdits);
    SavedHasPersonal(data, numEdits, textEdits);
    PersonalReopened(saved, data, textEdits);
  }

  /** Reopened, the number widgets show the saved numbers. */
  lemma NumbersReopened(saved: FieldMap, data: FieldMap, numEdits: map<string, int>)
    requires forall k :: k in FormKeys ==> WidgetDefault(data, k).Some?
    requires forall k :: k in FormKeys ==>
      WidgetDefault(saved, k) == Some(Edited(numEdits, k, WidgetDefault(data, k).value))
    ensures EditedNumbers(saved, map[]) == EditedNumbers(data, numEdits)
  {
  }

  /** Reopened, the text widgets show the saved text. */
  lemma PersonalReopened(saved: FieldMap, data: FieldMap, textEdits: map<string, string>)
    requires HasPersonal(saved) == HasPersonal(data)
    requires HasPersonal(data) ==> forall k :: k in PersonalKeys ==>
      k in saved && saved[k] == PersonalWidget(data, textEdits, k)
    ensures EditedPersonal(saved, map[]) == EditedPersonal(data, textEdits)
  {
  }

  /** Reopened, each number widget of the saved dictionary shows the value that was saved. */
  lemma SavedWidgets(data: FieldMap, numEdits: map<string, int>, textEdits: map<string, string>)
    requires forall k :: k in numEdits ==> k in FormKeys && InRange(k, numEdits[k])
    requires EditSnapshot(data, numEdits, textEdits).Some?
    ensures forall k :: k in FormKeys ==>
      WidgetDefault(EditSnapshot(data, numEdits, textEdits).value, k)
        == Some(Edited(numEdits, k, WidgetDefault(data, k).value))
  {
    var saved := EditSnapshot(data, numEdits, textEdits).value;
    EditSnapshotSpec(data, numEdits, textEdits);
    forall k | k in FormKeys
      ensures WidgetDefault(saved, k) == Some(Edited(numEdits, k, WidgetDefault(data, k).value))
    {
      WidgetDefaultOfNumber(saved, k, Edited(numEdits, k, WidgetDefault(data, k).value));
    }
  }

  /** The saved dictionary has personal details exactly when the edited one had. */
  lemma SavedHasPersonal(data: FieldMap, numEdits: map<string, int>, textEdits: map<string, string>)
    requires forall k :: k in numEdits ==> k in FormKeys && InRange(k, numEdits[k])
    requires EditSnapshot(data, numEdits, textEdits).Some?
    ensures HasPersonal(EditSnapshot(data, numEdits, textEdits).value) == HasPersonal(data)
  {
    KeySetsDisjoint();
    var saved := EditSnapshot(data, numEdits, textEdits).value;
    EditSnapshotSpec(data, numEdits, textEdits);
    if HasPersonal(data) {
      assert Pan in PersonalKeys;
    } else {
      assert Pan !in saved && Name !in saved && Address !in saved && Contact !in saved by {
        assert Pan in PersonalKeys && Name in PersonalKeys && Address in PersonalKeys && Contact in PersonalKeys;
      }
    }
  }
}
