# Tax Assistant: tax computation, working copy and ITR-1 document

Tax Assistant is a single-file Streamlit application (`tax.py`). It reads a Form 16, has a language
model turn the text into a JSON dictionary of income, deduction and personal fields, and offers:

- an edit form for that dictionary;
- an income-tax calculator comparing India's old and new regimes;
- the prefilled ITR-1 filing document, written to `itr1_prefilled.json`.

This project models the logic under the interface:

- **Regimes.** The two tax schedules: slab amounts, the 4% cess and the final rounding, in exact
  arithmetic, with the if-chains of the source shown equal to marginal-rate slab tables
  (module `Slabs`).
- **Calculator.** The "Calculate Tax" computation: totals, taxable incomes, both taxes, the
  recommendation and the saving, as a function of the sixteen widget values, the age group
  and the financial year.
- **Fields and Forms.** The field dictionary and how the number widgets of the edit form and of the
  calculator read it:
  - `int(float(data.get(key, 0)))`, a partial coercion;
  - `min_value=0`;
  - the 150,000 cap on 80C and the 10,000 cap on 80TTA;
  - the calculator's write-back of its sixteen values;
  - the dictionary the edit form builds on "Save Changes".
- **Itr1.** `generate_itr1_json`: the nested document with its defaults and its optional
  `Tax_Calculation` section. When a numeric field does not coerce, the result is None.
- **Normalizer.** `extract_json_from_text`'s pre-processing of the model's reply. `json.loads` is a
  function parameter.
- **Session.** The session state as a class `WorkingState`: the working dictionary, the stored
  result, the "calculated" flag, the export path and the document last written to the export
  file. It has one method per interaction that changes them: "Extract Data", "Save Changes" and
  "Calculate Tax".

All money is in whole rupees (`int`). In the bracket computation amounts are held in hundredths of
a rupee, so every rate is an exact integer percentage. The cess-inclusive amount (×104) is held in
ten-thousandths and rounded half-to-even, as Python's `round` does.

Three behaviours of the code worth knowing:

- the extracted dictionary is not normalised with zero defaults; the defaults of 0 and "" apply only
  where a field is read;
- the calculator writes back all sixteen of its fields, including the exempt allowances and both
  home-loan amounts that the calculation itself ignores;
- a failed coercion in `generate_itr1_json` is caught and gives None, so the file name is cleared
  while the previous file stays as it was.

## Model

| member | source | states |
|---|---|---|
| Text.IsWhitespace | tax.py:113 | the set of characters Python's `str.isspace()` accepts, which `strip()` removes and `float()` ignores around a number |
| Text.Strip | tax.py:113 | `str.strip()` never lengthens the text; `Text.StripSpec` says what it removes |
| Text.StripSpec | tax.py:113 | `strip()` yields the slice between a whitespace-only front and back, with no whitespace at either end |
| Text.StripUnchanged | tax.py:113 | text with no whitespace at either end is its own strip |
| Text.DeleteAll | tax.py:107-108 | a deletion never lengthens the text |
| Text.DeleteAllSkipsPrefix | tax.py:107-108 | a prefix without the pattern's first character passes through `re.sub` untouched |
| Text.DeleteCharacter | tax.py:108 | deleting `"\n"` removes every line break; every other character keeps its count and order |
| Text.IndexOf | tax.py:109-111 | the position of the first `{`, or the length when there is none |
| Text.LastIndexOf | tax.py:109-111 | the position of the last `}`, or -1 when there is none |
| Fields.KeySetsDisjoint | tax.py:128-152 | the four personal keys and the sixteen numeric keys are distinct |
| Fields.Lookup | tax.py:128-131 | `dict.get`: the stored value when the key is present, the default otherwise |
| Fields.Truncate | tax.py:134 | `int()` of a float truncates toward zero: `n <= x < n+1` for `x >= 0`, `n-1 < x <= n` below |
| Fields.TruncateInteger | tax.py:134-152 | a whole number is unchanged by truncation |
| Fields.TruncateDecimal | tax.py:134 | truncation toward zero of a decimal literal, bracketed by powers of ten |
| Fields.Coerce | tax.py:134-152 | `int(float(v))`: numbers truncate, booleans give 0/1, None and containers fail, strings succeed exactly when `Fields.ParseFloat` reads them |
| Fields.CoerceField | tax.py:134-152 | an absent key reads as 0; a present key coerces its value |
| Fields.CoerceNumber | tax.py:134-152 | a field holding a whole number coerces to that number |
| Fields.ParseFloat | tax.py:134 | the decimal reader standing for `float()` on text: whitespace-only text fails; `Fields.Coerce` and `Fields.ParseDecimalString` give its partner facts |
| Fields.ParseDecimalString | tax.py:134 | the model's decimal reader reads the decimal text of any integer `n` back as exactly `n` |
| Fields.CoerceDecimalText | tax.py:134-152 | in the model, a number stored as its decimal text coerces exactly like the number, and both give `n` |
| Slabs.SlabTax | tax.py:598-652 | the reference marginal-rate schedule the two if-chains are proved equal to; its properties are the `Slabs` lemmas below |
| Slabs.SlabTaxStep | tax.py:598-652 | one more rupee adds exactly the marginal rate of the slab it falls in: no jumps |
| Slabs.SlabTaxMonotone | tax.py:598-652 | slab tax never decreases with income |
| Slabs.SlabTaxZeroBelow | tax.py:603-604 | nothing is owed up to the first slab's limit |
| Slabs.SlabTaxPositiveAbove | tax.py:605-606 | something is owed above the first limit |
| Slabs.RateAtBounded | tax.py:598-652 | no marginal rate exceeds the largest slab rate |
| Regimes.OldRegimeBracket | tax.py:600-628 | the old-regime if-chain for the three age groups, in hundredths; never negative; `Regimes.OldBracketIsSlabTax` equates it with the slab table |
| Regimes.NewRegimeBracket | tax.py:636-648 | the new-regime if-chain, in hundredths; never negative; `Regimes.NewBracketIsSlabTax` equates it with the slab table |
| Regimes.OldRegimeSlabs | tax.py:600-628 | each age group's table is ascending and non-empty |
| Regimes.OldBracketIsSlabTax | tax.py:600-628 | each fixed offset (12,500/112,500, 10,000/110,000, 100,000) is the tax of the lower bands, so the branches equal the marginal-rate table on every income |
| Regimes.NewBracketIsSlabTax | tax.py:636-648 | the offsets 15,000/45,000/90,000/150,000 are the tax of the lower bands, so the branches equal the marginal-rate table |
| Regimes.RoundTenThousandths | tax.py:632 | Python's `round`: within half a unit, an exact half going to the even neighbour |
| Regimes.RoundMonotone | tax.py:632 | rounding preserves order |
| Regimes.WithCess | tax.py:630-632 | the nearest rupee to 1.04 × the bracket amount; never negative for a non-negative bracket |
| Regimes.OldRegimeTax | tax.py:598-632 | the nearest rupee to 1.04 × the bracket amount, never negative, 0 up to the age group's exemption limit |
| Regimes.NewRegimeTax | tax.py:634-652 | the nearest rupee to 1.04 × the bracket amount, never negative, 0 up to 300,000 |
| Regimes.OldBracketPositiveIff | tax.py:600-628 | the old bracket amount is positive exactly above 250,000 / 300,000 / 500,000 |
| Regimes.NewBracketPositiveIff | tax.py:636-648 | the new bracket amount is positive exactly above 300,000 |
| Regimes.OldBracketStep | tax.py:600-628 | continuity: one rupee more adds the marginal rate, between 0% and 30% |
| Regimes.NewBracketStep | tax.py:636-648 | continuity: one rupee more adds the marginal rate, between 0% and 30% |
| Regimes.OldRegimeTaxMonotone | tax.py:598-632 | more taxable income never lowers the old-regime tax |
| Regimes.NewRegimeTaxMonotone | tax.py:634-652 | more taxable income never lowers the new-regime tax |
| Regimes.OtherAgeGroupsAsAbove80 | tax.py:622-628 | any age string other than "Below 60" and "60-80" is taxed as "Above 80", exempt up to 500,000 |
| Regimes.WorkedExample | tax.py:598-652 | 650,000 below 60 costs 44,200; 750,000 under the new regime costs 31,200 |
| Calculator.TotalIncome | tax.py:524-525 | the five incomes summed; exempt allowances and home-loan interest are not among them (`Calculator.ExemptAndHomeLoanIgnored`) |
| Calculator.TotalDeductions | tax.py:527-529 | the eight deductions summed; more deductions never raise the old tax (`Calculator.MoreDeductionsNeverRaiseOldTax`) |
| Calculator.Excess | tax.py:531-532 | `max(0, a - b)`: non-negative and zero exactly when `a <= b` |
| Calculator.Recommend | tax.py:537 | "New Regime" exactly when the new tax is lower; ties go to "Old Regime" |
| Calculator.CalculateTax | tax.py:524-551 | five incomes and eight deductions, both taxable incomes ≥ 0 as the two `max`es, each tax from its schedule, the cheaper regime recommended, saving the non-negative difference, tags carried |
| Calculator.YearIsOnlyATag | tax.py:536-551 | the financial year changes nothing in the record but itself |
| Calculator.ExemptAndHomeLoanIgnored | tax.py:524-532 | exempt allowances and home-loan interest never enter the result |
| Calculator.MoreDeductionsNeverRaiseOldTax | tax.py:524-535 | more deductions never raise the old-regime tax and leave the new-regime tax alone |
| Forms.WidgetDefault | tax.py:247-251 | a widget prefills when the field coerces to a value ≥ 0; 80C and 80TTA are lowered to 150,000 and 10,000 |
| Forms.CalculatorDefaults | tax.py:414-521 | the calculator shows exactly when all sixteen widgets prefill, each with its own field's prefill |
| Forms.DefaultsWithinBounds | tax.py:474-503 | every prefilled value lies within its widget's bounds |
| Forms.EmptyDefaults | tax.py:415 | with nothing extracted the calculator starts from sixteen zeros |
| Forms.WidgetDefaultOfNumber | tax.py:419-521 | a widget reading a whole number it allows shows that number |
| Forms.InputEntriesKeys | tax.py:574-590 | the write-back covers exactly the sixteen calculator keys |
| Forms.MergedIncomes | tax.py:574-577 | salary, interest, rental and digital-asset income are each written under their own key |
| Forms.MergedAmounts | tax.py:578-581 | exempt allowances, both home-loan amounts and other income are each written under their own key |
| Forms.MergedDeductionsLow | tax.py:583-586 | 80C, 80D, 80EEA and 80CCD(2) are each written under their own key |
| Forms.MergedDeductionsHigh | tax.py:587-590 | 80TTA, 80G, 80CCD and other deductions are each written under their own key |
| Forms.MergeSpec | tax.py:572-590 | the merged dictionary has the previous keys plus the sixteen; those hold the calculator's values and every other previous key is unchanged |
| Forms.Merge | tax.py:572-590 | the copy with the sixteen calculator values written over it; `Forms.MergeSpec` states its keys and values |
| Forms.MergeIsFixedPoint | tax.py:572-592 | reopened after the write-back, the calculator shows exactly the values it was given |
| Forms.MergeIdempotent | tax.py:572-590 | writing the same sixteen values back a second time leaves the dictionary unchanged |
| Forms.RecalculationIsStable | tax.py:523-594 | pressing "Calculate Tax" again with untouched widgets shows the same values, gives the same result and writes back the same dictionary |
| Forms.DefaultsOfWidgets | tax.py:419-521 | sixteen widgets showing the values of an input make up that input |
| Forms.MergedIncomeWidgets | tax.py:574-581 | after the write-back each income widget shows the written income |
| Forms.MergedDeductionWidgets | tax.py:583-590 | after the write-back each deduction widget shows the written deduction |
| Forms.EditedNumbers | tax.py:189-301 | the form's numeric half: all sixteen keys, each the user's value or the widget's prefill |
| Forms.PersonalWidget | tax.py:305-331 | a text widget shows the user's text, or else `data.get(key, "")`; `Forms.PersonalReopened` shows saved text reopens as itself |
| Forms.EditedPersonal | tax.py:303-331 | the personal keys appear only when one was present, each the user's text or `data.get(key, "")` |
| Forms.EditSnapshot | tax.py:182-337 | the saved dictionary exists exactly when every widget prefills |
| Forms.EditSnapshotSpec | tax.py:182-337 | the saved dictionary has exactly the sixteen keys plus the personal ones when present, each holding its widget's value |
| Forms.EditSaveIdempotent | tax.py:182-337 | reopening the form on the saved dictionary and saving unchanged gives the same dictionary |
| Forms.NumbersReopened | tax.py:189-301 | reopened, the number widgets show the saved numbers |
| Forms.PersonalReopened | tax.py:303-331 | reopened, the text widgets show the saved text |
| Forms.SavedWidgets | tax.py:189-301 | each number widget on the saved dictionary prefills with the saved value |
| Forms.SavedHasPersonal | tax.py:303-331 | the saved dictionary has personal details exactly when the edited one had |
| Itr1.BuildForm | tax.py:125-154 | the form exists exactly when all sixteen numeric fields coerce |
| Itr1.NumbersCoerceIff | tax.py:134-152 | the field-by-field coercion condition equals the quantified one |
| Itr1.FormEntriesKeys | tax.py:128-152 | a form's source entries are the sixteen numeric keys and the four personal keys |
| Itr1.BuildFormOfEntries | tax.py:125-154 | building from a form's own entries gives that form back: no leaf is dropped or misplaced |
| Itr1.EmptyForm | tax.py:128-152 | with no fields every number is 0 and every personal entry "" |
| Itr1.TaxSection | tax.py:156-165 | the section carries both taxes, with "New Regime" exactly when the new tax is lower |
| Itr1.TaxSectionOfCalculation | tax.py:156-165 | the section of a calculation holds its totals and taxable incomes, and not the saving, age group or year |
| Itr1.GenerateItr1Json | tax.py:122-174 | the name `itr1_prefilled.json` and the document exactly when the form builds; the tax section exactly when a result is given |
| Itr1.MergedBuilds | tax.py:572-593 | after the write-back the document always builds and its numbers are the calculator's |
| Itr1.DocumentAgreesWithCalculator | tax.py:134-152 | whenever the calculator shows, the document builds, with the same numbers when no cap applies |
| Itr1.EditSnapshotBuilds | tax.py:337-340 | a saved edit form always builds into the document |
| Normalizer.Flatten | tax.py:107-108 | the two deletions never lengthen the reply |
| Normalizer.FlattenSpec | tax.py:107-108 | the flattened reply has no line break, is a subsequence of the reply with the `\njson` tags taken out, and holds every other character as often as that text does |
| Normalizer.Candidate | tax.py:109-113 | the candidate is never longer than the flattened text |
| Normalizer.JsonCandidate | tax.py:107-113 | the candidate is never longer than the reply |
| Normalizer.CandidateIsBraceSpan | tax.py:109-112 | with a `{` before some `}`, the candidate is the slice from the first `{` to the last `}` |
| Normalizer.CandidateWithoutSpan | tax.py:113 | otherwise the candidate is the stripped flattened text |
| Normalizer.CandidateHasNoNewline | tax.py:107-113 | the candidate never contains a line break |
| Normalizer.KeepsUntaggedBreak | tax.py:107 | a line break not followed by "json" survives the first deletion |
| Normalizer.NoTagInThreeLines | tax.py:107 | a three-line reply without a tagged line break passes the first deletion unchanged |
| Normalizer.FlattenThreeLines | tax.py:107-108 | such a reply flattens to its three lines run together |
| Normalizer.CandidateOfWrappedBody | tax.py:109-112 | a braced body between brace-free text is exactly what is picked |
| Normalizer.FencedReply | tax.py:105-113 | a reply fenced as a JSON code block yields just the object |
| Normalizer.ExtractJson | tax.py:105-119 | `extract_json_from_text`: the parser applied to the candidate; `Normalizer.ExtractJsonSpec` says which text that is |
| Normalizer.ExtractJsonSpec | tax.py:107-113 | the parser is handed the span from the first `{` to the last `}` of the flattened reply when there is one, else the stripped flattened reply |
| Normalizer.ExtractFencedReply | tax.py:105-113 | a reply fenced as a JSON code block hands the parser just the object |
| Session.Truthy | tax.py:378 | a dictionary is truthy when it is present and has a key, as `if extracted_data:` and `if st.session_state.extracted_tax_data:` test |
| Session.Shown | tax.py:415 | `extracted_tax_data or {}`: the dictionary when it is truthy, the empty one otherwise |
| Session.WorkingState.constructor | tax.py:20-27 | the session starts with no data, no result, no file and the flag off |
| Session.WorkingState.ProcessResponse | tax.py:376-385 | a non-empty parsed reply becomes the working copy, the file is regenerated without a tax section and the flag is cleared; otherwise nothing changes |
| Session.WorkingState.SaveEdits | tax.py:336-342 | the edit form's dictionary replaces the working copy and the file is regenerated without a tax section; result and flag kept |
| Session.WorkingState.CalculateAndMerge | tax.py:523-594 | the result is stored and the flag set; with a non-empty working copy the sixteen values are merged in and the file regenerated with the tax section, otherwise dictionary and file are untouched |
| Session.WorkingState.MergeCalculation | tax.py:571-594 | the merged dictionary replaces the working copy and the file holds its form and the result's tax section |
| Session.SaveAndExport | tax.py:336-340 | the snapshot of the edited values and, when it is taken, the file name and the document of its form without a tax section |
| Session.MergeAndExport | tax.py:572-594 | the merged copy, the file name and the document with the tax section |
| Session.WorkingState.Install | tax.py:590-593 | a dictionary and the document built from it replace the working copy and the export; result and flag kept |
| Session.WriteBack | tax.py:572-590 | the sixteen in-place assignments on the copy give the merged dictionary |

## Left out

- The Streamlit interface is not modelled: layout, metrics, messages, reruns, the tabs, the `edited_data` flag that shows the edit form, and the download tab. Only the values the widgets feed in are modelled.
- The Gemini model, the advisor chatbot and PDF text extraction are foreign calls. The model's reply is the `responseText` parameter of `ProcessResponse`.
- `json.loads` is the `parse` parameter of `ProcessResponse` and `ExtractJson`. A reply that parses to something other than an object, such as a list, is not modelled.
- Writing the file to disk and `json.dump` are input and output. The file's content is the `exportFile` field.
- Regimes.OldRegimeTax: computed in exact arithmetic, so at an exact .5 tie the rounding can differ from CPython's float `* 0.05`, `* 1.04` and `round`.
- Regimes.NewRegimeTax: computed in exact arithmetic, so at an exact .5 tie the rounding can differ from CPython's float `* 0.05`, `* 1.04` and `round`.
- Fields.ParseFloat: reads only plain decimal notation: surrounding whitespace, a sign, ASCII digits and a decimal point. Exponents, underscores and non-ASCII Unicode digits, which `float()` accepts, are taken as failures. `inf` and `nan` are failures too, and there the outcome of the coercion agrees with the source, since `int()` of an infinity or a NaN raises.
- Fields.ParseFloat: the text is read as an exact decimal, not rounded to the nearest binary64 double first, so `"0.99999999999999999"` coerces to 0 where CPython gives 1.
- Fields.Coerce: numbers are exact rationals, not binary64 doubles: a value above 2^53 keeps its exact integer (CPython rounds 9007199254740993 to 9007199254740992), and a float too large to convert (an infinity) is not distinguished from an ordinary number.
- Forms.PersonalWidget: a personal value that is not a string is passed to the text widget as it stands; the widget's own conversion is not modelled.
- A widget whose prefill is below `min_value` makes Streamlit raise, so the page stops. This is modelled as "the form or calculator cannot be shown" (None), and the interaction then changes nothing.
- In `extract_json_from_text` the error handler at tax.py:115 refers to an unbound `e`, and the resulting exception is caught higher up. Only the outcome is modelled: extraction fails and the state is unchanged.
- The key `deduction_80CCD` is missing from the prompt's key list but is treated like every other possibly absent key.
