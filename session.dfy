/** The working copy the application keeps between interactions: the field dictionary, the last
    calculation, whether a calculation has been made since the last extraction, and the exported
    ITR-1 file (its name, and the document last written to it). */
module Session {
  import opened Wrappers
  import opened Fields
  import opened Calculator
  import opened Forms
  import opened Itr1
  import opened Normalizer

  /** A dictionary is truthy when it has a key. */
  predicate Truthy(m: Option<FieldMap>) {
    m.Some? && m.value != map[]
  }

  class WorkingState {
    /** `extracted_tax_data`. */
    var fields: Option<FieldMap>
    /** `calculation_results`. */
    var results: Option<CalculationResult>
    /** `tax_calculated`. */
    var taxCalculated: bool
    /** `json_file_path`. */
    var exportPath: Option<string>
    /** The document last written to the export file, if one was ever written. */
    var exportFile: Option<Itr1Document>

    /** A stored calculation is one the calculator produced, and a file name is only held while
        the file holds the form of the current dictionary. */
    ghost predicate Valid()
      reads this
    {
      && (taxCalculated ==> results.Some?)
      && (results.Some? ==> results.value.recommendedRegime == Recommend(results.value.taxOld, results.value.taxNew))
      && (exportPath.Some? ==>
            && exportPath.value == ExportFileName
            && fields.Some? && exportFile.Some?
            && BuildForm(fields.value) == Some(exportFile.value.formData))
    }

    /** The session state before any interaction. */
    constructor()
      ensures Valid()
      ensures fields == None && results == None && !taxCalculated
      ensures exportPath == None && exportFile == None
    {
      fields := None;
      results := None;
      taxCalculated := false;
      exportPath := None;
      exportFile := None;
    }

    /** "Extract Data": the model's reply is pre-processed and parsed. A non-empty dictionary
        becomes the working copy, the file is regenerated without a tax section and the
        calculation is marked as not made; anything else changes nothing. */
    method ProcessResponse(responseText: string, parse: string -> Option<FieldMap>)
      requires Valid()
      modifies this
      ensures Valid()
      ensures var extracted := ExtractJson(responseText, parse);
        if Truthy(extracted) then
          && fields == extracted && !taxCalculated && results == old(results)
          && (BuildForm(extracted.value).Some? ==>
                exportPath == Some(ExportFileName)
                && exportFile == Some(Itr1Document(BuildForm(extracted.value).value, None)))
          && (BuildForm(extracted.value).None? ==> exportPath == None && exportFile == old(exportFile))
        else
          unchanged(this)
    {
      var extracted := ExtractJson(responseText, parse);
      if Truthy(extracted) {
        fields := extracted;
        var path, doc := GenerateItr1Json(extracted.value, None);
        exportPath := path;
        if doc.Some? {
          exportFile := doc;
        }
        taxCalculated := false;
      }
    }

    /** "Save Changes" on the edit form: the dictionary the form builds replaces the working copy
        and the file is regenerated without a tax section. The calculation and its flag are kept.
        When the form cannot be shown (a prefill fails) there is nothing to save. */
    method SaveEdits(numEdits: map<string, int>, textEdits: map<string, string>)
      requires Valid() && fields.Some?
      requires forall k :: k in numEdits ==> k in FormKeys && InRange(k, numEdits[k])
      modifies this
      ensures Valid()
      ensures var saved := EditSnapshot(old(fields.value), numEdits, textEdits);
        if saved.Some? then
          && fields == saved && exportPath == Some(ExportFileName)
          && exportFile.Some? && BuildForm(fields.value) == Some(exportFile.value.formData)
          && exportFile.value.taxCalculation == None
          && results == old(results) && taxCalculated == old(taxCalculated)
        else
          unchanged(this)
    {
      var saved, path, doc := SaveAndExport(fields.value, numEdits, textEdits);
      if saved.Some? {
        Install(saved, path, doc);
      }
    }

    /** "Calculate Tax": the result of the sixteen widget values is stored and marked as made.
        When there is a non-empty working copy, the calculator's values are written into it and
        the file is regenerated with the tax section; otherwise the dictionary and the file are
        left as they are. When the calculator cannot be shown (a prefill fails) nothing happens. */
    method CalculateAndMerge(inp: CalculatorInputs, ageGroup: string, financialYear: string)
      requires Valid() && WithinWidgetBounds(inp)
      modifies this
      ensures Valid()
      ensures !Prefills(Shown(old(fields))) ==> unchanged(this)
      ensures Prefills(Shown(old(fields))) ==>
        && results == Some(CalculateTax(inp, ageGroup, financialYear)) && taxCalculated
        && (Truthy(old(fields)) ==>
              && fields == Some(Merge(old(fields).value, inp))
              && exportPath == Some(ExportFileName)
              && exportFile.Some? && BuildForm(fields.value) == Some(exportFile.value.formData)
              && exportFile.value.taxCalculation == Some(TaxSection(results.value)))
        && (!Truthy(old(fields)) ==>
              fields == old(fields) && exportPath == old(exportPath) && exportFile == old(exportFile))
    {
      if !Prefills(Shown(fields)) {
        return;
      }
      results := Some(CalculateTax(inp, ageGroup, financialYear));
      taxCalculated := true;
      if Truthy(fields) {
        MergeCalculation(inp);
      }
    }

    /** The write-back after a calculation, on the object: the merged dictionary replaces the
        working copy and the regenerated file replaces the old one. */
    method MergeCalculation(inp: CalculatorInputs)
      requires Valid() && WithinWidgetBounds(inp) && Truthy(fields) && results.Some?
      modifies this
      ensures Valid()
      ensures results == old(results) && taxCalculated == old(taxCalculated)
      ensures fields == Some(Merge(old(fields).value, inp))
      ensures exportPath == Some(ExportFileName)
      ensures exportFile.Some? && BuildForm(fields.value) == Some(exportFile.value.formData)
      ensures exportFile.value.taxCalculation == Some(TaxSection(results.value))
    {
      var updated, path, doc := MergeAndExport(fields.value, inp, results.value);
      Install(Some(updated), path, doc);
    }

    /** A dictionary and the file generated from it replace the working copy and the export. */
    method Install(data: Option<FieldMap>, path: Option<string>, doc: Option<Itr1Document>)
      requires Valid() && data.Some? && path == Some(ExportFileName)
      requires doc.Some? && BuildForm(data.value) == Some(doc.value.formData)
      modifies this
      ensures Valid()
      ensures results == old(results) && taxCalculated == old(taxCalculated)
      ensures fields == data && exportPath == path && exportFile == doc
    {
      fields, exportPath, exportFile := data, path, doc;
    }
  }

  /** The edit-save: the snapshot of the edited values and, when it is taken, the file generated
      from it without a tax section. */
  method SaveAndExport(previous: FieldMap, numEdits: map<string, int>, textEdits: map<string, string>)
    returns (saved: Option<FieldMap>, path: Option<string>, doc: Option<Itr1Document>)
    requires forall k :: k in numEdits ==> k in FormKeys && InRange(k, numEdits[k])
    ensures saved == EditSnapshot(previous, numEdits, textEdits)
    ensures saved.Some? ==> path == Some(ExportFileName)
    ensures saved.Some? ==> doc.Some? && BuildForm(saved.value) == Some(doc.value.formData)
    ensures saved.Some? ==> doc.value.taxCalculation == None
  {
    saved := EditSnapshot(previous, numEdits, textEdits);
    path, doc := None, None;
    if saved.Some? {
      EditSnapshotBuilds(previous, numEdits, textEdits);
      path, doc := GenerateItr1Json(saved.value, None);
    }
  }

  /** The write-back after a calculation: the sixteen calculator entries are written over a copy
      of the working dictionary and the file is generated from it with the tax section of
      `result`. (Reopened, the calculator shows the values it was given, and the file carries them:
      `MergeIsFixedPoint` and `MergedBuilds`.) */
  method MergeAndExport(previous: FieldMap, inp: CalculatorInputs, result: CalculationResult)
    returns (updated: FieldMap, path: Option<string>, doc: Option<Itr1Document>)
    requires WithinWidgetBounds(inp)
    requires result.recommendedRegime == Recommend(result.taxOld, result.taxNew)
    ensures updated == Merge(previous, inp)
    ensures path == Some(ExportFileName)
    ensures doc.Some? && BuildForm(updated) == Some(doc.value.formData)
    ensures doc.value.taxCalculation == Some(TaxSection(result))
  {
    updated := WriteBack(previous, inp);
    MergedBuilds(previous, inp);
    path, doc := GenerateItr1Json(updated, Some(result));
  }

  /** The copy of the working dictionary with the calculator's sixteen values assigned into it
      one key at a time. */
  method WriteBack(previous: FieldMap, inp: CalculatorInputs) returns (updated: FieldMap)
    ensures updated == Merge(previous, inp)
  {
    updated := previous;
    updated := updated[SalaryIncome := Num(inp.salaryIncome as real)];
    updated := updated[InterestIncome := Num(inp.interestIncome as real)];
    updated := updated[RentalIncome := Num(inp.rentalIncome as real)];
    updated := updated[DigitalAssetsIncome := Num(inp.digitalAssetsIncome as real)];
    updated := updated[ExemptAllowances := Num(inp.exemptAllowances as real)];
    updated := updated[HomeLoanSelf := Num(inp.homeLoanSelf as real)];
    updated := updated[HomeLoanLetout := Num(inp.homeLoanLetout as real)];
    updated := updated[OtherIncome := Num(inp.otherIncome as real)];
    updated := updated[Deduction80C := Num(inp.deduction80C as real)];
    updated := updated[Deduction80D := Num(inp.deduction80D as real)];
    updated := updated[Deduction80EEA := Num(inp.deduction80EEA as real)];
    updated := updated[Deduction80CCD2 := Num(inp.deduction80CCD2 as real)];
    updated := updated[Deduction80TTA := Num(inp.deduction80TTA as real)];
    updated := updated[Deduction80G := Num(inp.deduction80G as real)];
    updated := updated[Deduction80CCD := Num(inp.deduction80CCD as real)];
    updated := updated[OtherDeductions := Num(inp.otherDeductions as real)];
  }

  /** `st.session_state.extracted_tax_data or {}` as the calculator reads it. */
  function Shown(m: Option<FieldMap>): (shown: FieldMap)
    ensures shown == if Truthy(m) then m.value else map[]
  {
    if m.Some? then m.value else map[]
  }
}
