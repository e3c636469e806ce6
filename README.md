# invoice-qc: a verified model of the validation core

invoice-qc checks invoices that have been extracted from PDF files. Its
`InvoiceValidator` runs five groups of checks on an invoice record:

- required fields;
- formats: dates, currency and tax IDs;
- business rules: totals, line-item sum, negative amounts and per-item arithmetic;
- anomalies: a very high gross total and missing optional fields;
- a duplicate lookup in the database.

The validator reports errors and warnings, and an invoice is valid exactly when
it has no errors. `validate_batch` validates a list of invoices and summarises
the results: how many are valid, the validation rate and how often each error
occurred. The pydantic models (`LineItem`, `Invoice`, `ValidationSummary`) state
what a well-formed invoice is.

When no AI service is available, the extractor falls back to regular
expressions. It starts from an empty invoice (currency USD) and fills it in:

- the first two dates found, converted to ISO by `_parse_date` (four `strptime` formats in order);
- the currency, from the first currency marker present in the text;
- the first two company names, as seller and buyer;
- the amounts, largest first, as gross total, net total and tax amount.

Amount strings are normalised between German (`1.234,56`) and English
(`1,234.56`) notation.

The model is written as follows:

- An invoice record is a `map<string, Value>`. `Value` covers the Python values
  the checks look at: `None`, bools, numbers, strings, dates, lists, dicts and
  other objects.
- A finding is a value of the `Finding` datatype. Rendering it as a message is
  not modelled.
- The validator is a class. Each `_check_*` method appends to a mutable
  `ValidationResult` and is proved to append exactly what a specification
  function in `Rules` says.
- Properties of those functions are proved in `RuleProperties`, `Batch` and
  `BatchProperties`.
- The extractor is modelled as a method (`ExtractWithRegex`) that fills the
  record step by step. It is proved equal to a function (`RegexExtraction`), and
  `ExtractorProperties` proves what the extracted record is and how the
  validator judges it.

Modules:

- `Common`: `Option` and `Result`.
- `Text`: character classes, strip, upper, replace, digits.
- `Calendar`: dates, `fromisoformat` and `isoformat`.
- `Decimals`: decimal numerals and rounding to cents.
- `Records`: values, `dict.get`, truthiness, `_to_decimal`.
- `Models`: the pydantic models and the validation result and summary.
- `Rules` and `RuleProperties`: the checks.
- `Validator`: `InvoiceValidator`.
- `Batch` and `BatchProperties`: `validate_batch`.
- `Amounts`: amount normalisation and roles.
- `DateParsing`: `_parse_date`.
- `Extractor` and `ExtractorProperties`: the regex fallback.

## Model

| member | source | states |
|---|---|---|
| Models.CurrencyCodeRoundTrip | invoice_qc/models.py:11-16 | each currency's code reads back as that currency, and a code names a currency only if it is that currency's code |
| Models.SettledLineTotalProperties | invoice_qc/models.py:34-41 | the settled line total is in cents, within 0.01 of the expected total, and not negative when both inputs are non-negative |
| Models.SettledLineTotal | invoice_qc/models.py:34-41 | a line total within 0.01 of quantity times price is kept; otherwise it becomes an amount in cents within half a cent of that product |
| Models.ExpectedCents | invoice_qc/models.py:37 | quantity times a non-negative price in cents is a non-negative amount in cents |
| Models.RoundedNonNegative | invoice_qc/models.py:26-32 | rounding a non-negative amount to cents keeps it non-negative |
| Models.ValidatedLineItem | invoice_qc/models.py:19-41 | a line item is accepted exactly when quantity > 0 and both amounts are >= 0 |
| Models.ValidatedLineItemInvariant | invoice_qc/models.py:19-41 | an accepted item keeps its description and quantity; its price is the rounded price; both amounts are non-negative cents; its total is within 0.01 of quantity times price |
| Models.LineTotalCorrectionExample | invoice_qc/models.py:38-40 | 5 x 20.00 stated as 99.00 is corrected to 100.00 |
| Models.LineTotalWithinToleranceExample | invoice_qc/models.py:38 | 3 x 10.00 stated as 30.01 is kept, because it is within the tolerance |
| Models.LineItem.Fields | invoice_qc/models.py:19-32 | constructing a line item stores its fields, with both amounts rounded to cents |
| Models.LineItem.ValidateLineTotal | invoice_qc/models.py:34-41 | the line total is replaced by the rounded expected total only when it is off by more than 0.01; afterwards it is within 0.01 of quantity times price |
| Models.LineItem.Create | invoice_qc/models.py:19-41 | construction succeeds exactly when the field bounds hold, and the new item holds the validated fields |
| Models.ValidatedLineItems | invoice_qc/models.py:60 | a list of items is accepted exactly when every item is; the accepted list is the items, each validated in place |
| Models.ValidatedInvoice | invoice_qc/models.py:44-101 | an invoice is accepted exactly when the field constraints hold (non-empty names and number, a currency code, non-negative amounts, tax rate in 0..100, valid items) and the due date is not before the invoice date |
| Models.ValidatedInvoiceInvariant | invoice_qc/models.py:44-101 | an accepted invoice's net, tax and gross are non-negative cents within half a cent of the given amounts; its currency is the member the code names; every other field is as given, and each line item is validated |
| Models.InvoiceId.Text | invoice_qc/validator.py:36-40 | the id is the number's text; for a missing number, `UNKNOWN_` followed by the source file's text, `UNKNOWN_None` when the source file is `None`, and `UNKNOWN_NO_FILE` when there is no source file |
| Models.ValidationResult.constructor | invoice_qc/models.py:110-115 | a new result has the given id and verdict and no errors or warnings |
| Models.ValidationSummary.ValidationRate | invoice_qc/models.py:126-131 | the rate is 0 for an empty batch, otherwise valid/total x 100, and lies between 0 and 100 when 0 <= valid <= total |
| Calendar.IsoFormatRoundTrip | invoice_qc/validator.py:133 | `fromisoformat` reads back every date written by `isoformat` |
| Calendar.FromIsoFormat | invoice_qc/validator.py:133 | every text `fromisoformat` accepts is the `isoformat` of the date it reads |
| Calendar.IsoFormat | invoice_qc/extractor.py:297 | `isoformat` writes ten characters, `YYYY-MM-DD`, whose three digit groups spell the date's year, month and day |
| Calendar.BeforeIsStrictTotalOrder | invoice_qc/validator.py:160 | date comparison is irreflexive, asymmetric, transitive and total |
| Decimals.Round2 | invoice_qc/models.py:31 | rounding to two places gives an amount in cents within 0.005 of the input |
| Decimals.Round2OfCents | invoice_qc/models.py:31 | rounding leaves an amount already in cents unchanged |
| Decimals.ParseUnsigned | invoice_qc/extractor.py:265 | a numeral of digits with at most one point, and at least one digit, reads as a non-negative decimal; anything else is refused |
| Decimals.ParseDecimal | invoice_qc/extractor.py:265 | `float` of a cleaned amount: an optional sign, then digits with at most one point; any other text is refused |
| Decimals.ReadStripped | invoice_qc/validator.py:292 | `Decimal` reads a text as its sign and numeral once surrounding white space is stripped and every underscore dropped |
| Decimals.ReadPlainNumeral | invoice_qc/validator.py:292 | a signed numeral of digits and one optional point reads as the value it spells |
| Decimals.ReadPaddedNumeral | invoice_qc/validator.py:292 | white space around a numeral does not change its value: `Decimal(" 100.00")` is 100.00 |
| Decimals.ReadExponent | invoice_qc/validator.py:292 | a numeral with an exponent reads as the mantissa times ten to the signed exponent: `Decimal("1E+3")` is 1000 |
| Decimals.ReadGrouped | invoice_qc/validator.py:292 | an underscore between digit groups is dropped: `Decimal("1_000")` reads as `Decimal("1000")` |
| Decimals.ReadInnerSpace | invoice_qc/validator.py:292 | white space inside a numeral raises: `Decimal("1 000")` is `InvalidOperation` |
| Decimals.ReadSpecial | invoice_qc/validator.py:292 | the names of infinity and NaN, signed or not, read as values that are not finite |
| Records.Get | invoice_qc/validator.py:115 | `dict.get` gives `None` for an absent key and the stored value otherwise |
| Records.ToDecimal | invoice_qc/validator.py:284-294 | `_to_decimal` gives none exactly for `None`; a number converts to itself and a string to the finite value `Decimal` reads from it (blanks stripped, underscores dropped, exponents applied) |
| Records.PaddedNumeralConverts | invoice_qc/validator.py:284-294 | a numeral with white space around it converts, to the value of the numeral |
| Records.ExponentNumeralConverts | invoice_qc/validator.py:284-294 | digits followed by `E`, a sign and digits convert, to the mantissa times ten to the signed exponent |
| Records.GroupedNumeralConverts | invoice_qc/validator.py:284-294 | an underscore between digit groups changes neither whether a string converts nor its value |
| Records.InnerSpaceRaises | invoice_qc/validator.py:284-294 | digits, a space and digits do not convert: `Decimal` raises, and `_to_decimal` does not catch it |
| Records.QuantityValue | invoice_qc/validator.py:231 | `Decimal(str(quantity))` is the number itself for a number, the finite `Decimal` reading for a string, and nothing for any other value |
| Rules.InvoiceIdOf | invoice_qc/validator.py:36-40 | the id is the invoice number exactly when that is neither `None` nor blank; otherwise `UNKNOWN_` plus the source file when the key is present |
| Rules.LineItemsValue | invoice_qc/validator.py:203 | an invoice without `line_items` has an empty item list |
| Rules.Items | invoice_qc/validator.py:206 | the items iterated are the list's entries, in order; anything else yields no items |
| Rules.RequiredFieldErrors | invoice_qc/validator.py:101-122 | there is at most one required-field error per listed field; `RuleProperties.RequiredFieldErrorsExact` states which |
| Rules.ItemWarnings | invoice_qc/validator.py:224-235 | there is at most one warning per line item; `RuleProperties.ItemWarningsExact` states which |
| Rules.DateOperand | invoice_qc/validator.py:130-135 | a date value fails to convert exactly when it is a string that `fromisoformat` rejects |
| Rules.Validation | invoice_qc/validator.py:25-60 | the report is valid exactly when it has no errors, and carries the invoice id |
| RuleProperties.InvoiceIdText | invoice_qc/validator.py:36-40 | a non-blank number is the id; a `None` or blank number gives `UNKNOWN_` and the source file's text, `UNKNOWN_None` for a `None` source file, `UNKNOWN_NO_FILE` without the key |
| RuleProperties.RequiredFieldErrorsExact | invoice_qc/validator.py:101-122 | a field is reported missing iff it is listed and `None`; empty iff it is a blank string; negative iff it is a number below zero; nothing else is reported |
| RuleProperties.MissingRequiredFieldInvalidates | invoice_qc/validator.py:114-118 | a missing required field is an error and makes the invoice invalid |
| RuleProperties.DenotedOperand | invoice_qc/validator.py:128-135 | a date or ISO date string is truthy and converts to the date it denotes |
| RuleProperties.InvoiceDateRule | invoice_qc/validator.py:127-141 | a readable invoice date yields exactly one error, when it is after today, and none otherwise |
| RuleProperties.DueDateRule | invoice_qc/validator.py:143-163 | readable dates yield exactly one error, when the due date is before the invoice date, and none otherwise |
| RuleProperties.DueDateRuleAgreesWithModel | invoice_qc/models.py:95-101 | the validator's due-date rule passes exactly when the `Invoice` model's due-date validator accepts |
| RuleProperties.UnparseableInvoiceDateReportedTwice | invoice_qc/validator.py:127-163 | an unreadable invoice date with a due date present yields two errors: invalid invoice date and invalid due date |
| RuleProperties.CurrencyRule | invoice_qc/validator.py:165-169 | a non-empty currency is accepted iff its upper-case form is one of the four codes |
| RuleProperties.LowerCaseCurrencyExample | invoice_qc/validator.py:168 | `eur` passes the validator although it is not itself a currency code |
| RuleProperties.TaxIdRule | invoice_qc/validator.py:171-181 | a non-empty tax ID is warned about iff it contains a character other than a letter, digit, `-` or space, or has no letter or digit; the warning is single |
| RuleProperties.TaxIdWarningOfText | invoice_qc/validator.py:175 | the warning is absent iff the ID with dashes and spaces removed is alphanumeric |
| RuleProperties.TaxIdWarningIsSingle | invoice_qc/validator.py:176 | a tax ID warning is the one finding for that party and ID |
| RuleProperties.AlnumIffAcceptable | invoice_qc/validator.py:175 | removing dashes and spaces leaves an alphanumeric text iff the ID has only letters, digits, dashes and spaces and at least one letter or digit |
| RuleProperties.TotalsRule | invoice_qc/validator.py:191-200 | with all three amounts converted (numbers or numeral strings), the totals error occurs iff net + tax is more than 0.01 away from gross, and carries the three amounts and their expected sum |
| RuleProperties.TotalsRuleNeedsAllAmounts | invoice_qc/validator.py:192 | with any of the three amounts missing there is no totals error |
| RuleProperties.TotalsToleranceBoundary | invoice_qc/validator.py:194-196 | 100.00 + 19.00 against 119.01 passes; against 119.02 it fails |
| RuleProperties.NegativeAmountErrorsExact | invoice_qc/validator.py:217-222 | a negative-amount error for field f and value x occurs iff f is listed and converts to x < 0; no other finding is produced |
| RuleProperties.NegativeNumberReportedTwice | invoice_qc/validator.py:121-122 | a negative numeric amount is reported both as a negative required field and as a negative amount, and invalidates the invoice |
| RuleProperties.NegativeTextReportedOnce | invoice_qc/validator.py:217-222 | a negative amount given as text is reported only as a negative amount |
| RuleProperties.NegativeTextFindings | invoice_qc/validator.py:121 | the required-field check does not flag negative amounts given as text |
| RuleProperties.LineTotalsSumAppend | invoice_qc/validator.py:205-209 | the line-items sum of a concatenation is the sum of the parts |
| RuleProperties.LineTotalIgnored | invoice_qc/validator.py:206-209 | an item whose line total is `None` or zero adds nothing to the sum, wherever it stands |
| RuleProperties.LineTotalCounted | invoice_qc/validator.py:206-209 | an item with a non-zero line total adds exactly that total to the sum, wherever it stands |
| RuleProperties.LineSumRule | invoice_qc/validator.py:202-215 | with the net total converted, the sum warning occurs iff line items are present and their sum is more than 0.01 away from the net total; it carries the sum and the net total |
| RuleProperties.LineSumNeedsNet | invoice_qc/validator.py:204 | without a net total there is no sum warning |
| RuleProperties.LineSumToleranceBoundary | invoice_qc/validator.py:211-212 | a sum 0.01 above the net total passes; one 0.02 below it is reported |
| RuleProperties.ItemWarningsExact | invoice_qc/validator.py:224-235 | item k (1-based) is warned about iff it exists and its quantity times price is more than 0.01 from its total; only such warnings occur |
| RuleProperties.ValidatedItemPassesRuleFour | invoice_qc/models.py:34-41 | every line item the model accepts passes the validator's per-item check |
| RuleProperties.SettledItemPassesRuleFour | invoice_qc/validator.py:230-232 | an item whose total is within 0.01 of quantity times price is not warned about |
| RuleProperties.HighGrossRule | invoice_qc/validator.py:240-245 | a converted gross total (number or numeral string) is flagged iff it exceeds 1,000,000.00, once, with the amount and the threshold |
| RuleProperties.DuplicateRule | invoice_qc/validator.py:261-282 | a duplicate warning needs a truthy number, seller and date and a positive lookup; there is at most one |
| RuleProperties.DuplicateReported | invoice_qc/validator.py:266-280 | a lookup answering true for a truthy number, seller and date gives exactly one duplicate warning, carrying the three |
| RuleProperties.VerdictIgnoresDuplicateLookup | invoice_qc/validator.py:276-280 | errors and validity do not depend on the duplicate lookup |
| RuleProperties.WarningsInOrder | invoice_qc/validator.py:25-60 | the warnings are the tax ID, sum, per-item, high gross, missing-field and duplicate warnings, in that order |
| RuleProperties.MissingFieldsAmong | invoice_qc/validator.py:247-259 | among warnings of other kinds, each missing-field warning appears iff its field is falsy |
| RuleProperties.MissingFieldsReported | invoice_qc/validator.py:247-259 | the report warns about a missing due date, seller tax ID, buyer tax ID or line items iff that field is falsy |
| RuleProperties.FormatErrorKinds | invoice_qc/validator.py:124-181 | format errors are only date and currency errors |
| RuleProperties.ErrorKinds | invoice_qc/validator.py:25-60 | every error is a required-field, date, currency, totals or negative-amount error; anomalies and duplicates never invalidate |
| Validator.InvoiceValidator.constructor | invoice_qc/validator.py:20-23 | the validator keeps the duplicate lookup and the threshold 1,000,000.00 |
| Validator.InvoiceValidator.Validate | invoice_qc/validator.py:25-60 | the fresh result is exactly the report of `Rules.Validation`: id, verdict, errors and warnings in check order |
| Validator.InvoiceValidator.CheckRequiredFields | invoice_qc/validator.py:101-122 | appends exactly the required-field errors, in field order |
| Validator.InvoiceValidator.CheckRequiredField | invoice_qc/validator.py:115-122 | appends the one finding for this field, if any |
| Validator.InvoiceValidator.CheckFormats | invoice_qc/validator.py:124-181 | appends the date and currency errors and the tax ID warnings |
| Validator.InvoiceValidator.CheckInvoiceDate | invoice_qc/validator.py:127-141 | appends exactly the invoice-date errors |
| Validator.InvoiceValidator.CheckDueDate | invoice_qc/validator.py:143-163 | appends exactly the due-date errors |
| Validator.InvoiceValidator.CheckCurrency | invoice_qc/validator.py:165-169 | appends exactly the currency error |
| Validator.InvoiceValidator.CheckTaxId | invoice_qc/validator.py:171-181 | appends exactly the tax ID warning for the party |
| Validator.InvoiceValidator.CheckBusinessRules | invoice_qc/validator.py:183-235 | appends the totals and negative-amount errors and the line-item warnings |
| Validator.InvoiceValidator.CheckTotals | invoice_qc/validator.py:191-200 | appends exactly the totals error |
| Validator.InvoiceValidator.CheckLineItemsSum | invoice_qc/validator.py:202-215 | appends exactly the line-items sum warning; the loop keeps the running sum of the items seen |
| Validator.InvoiceValidator.CheckNegativeAmounts | invoice_qc/validator.py:217-222 | appends exactly the negative-amount errors, in field order |
| Validator.InvoiceValidator.CheckLineItems | invoice_qc/validator.py:224-235 | appends exactly the per-item warnings, in item order |
| Validator.InvoiceValidator.CheckLineItem | invoice_qc/validator.py:226-235 | appends a warning for this item iff its arithmetic is off |
| Validator.InvoiceValidator.CheckAnomalies | invoice_qc/validator.py:237-259 | appends exactly the anomaly warnings |
| Validator.InvoiceValidator.CheckHighGross | invoice_qc/validator.py:240-245 | appends exactly the high gross warning |
| Validator.InvoiceValidator.CheckExpectedFields | invoice_qc/validator.py:247-259 | appends exactly the missing-field warnings |
| Validator.InvoiceValidator.CheckDuplicates | invoice_qc/validator.py:261-282 | appends exactly the duplicate warning; a failing lookup adds nothing |
| Validator.InvoiceValidator.ValidateBatch | invoice_qc/validator.py:62-99 | the results are the invoices' reports in order, and the summary is their summary |
| Validator.InvoiceValidator.ValidateAndCount | invoice_qc/validator.py:75-81 | one loop step extends the results by the next report and keeps the error counts equal to the counts over all results |
| Validator.InvoiceValidator.CountErrors | invoice_qc/validator.py:79-81 | the loop over one report's errors leaves the counts of all errors seen so far, these included |
| Batch.Validations | invoice_qc/validator.py:75-77 | there is one report per invoice, each the invoice's own report |
| Batch.Increment | invoice_qc/validator.py:81 | incrementing adds the key, raises its count by one and leaves all other counts unchanged |
| Batch.ValidCount | invoice_qc/validator.py:84 | the valid count is at most the number of results |
| Batch.ValidationsStep | invoice_qc/validator.py:75-77 | validating one more invoice appends its report |
| Batch.ErrorCountsSnoc | invoice_qc/validator.py:80-81 | counting one more error increments its count |
| Batch.AllErrorsSnoc | invoice_qc/validator.py:80 | the errors of one more result are appended |
| Batch.Summarize | invoice_qc/validator.py:84-92 | the summary's total is the number of results, and its valid and invalid counts are non-negative and add up to the total |
| BatchProperties.ErrorCountsAreOccurrences | invoice_qc/validator.py:79-81 | each finding's count is its number of occurrences, and the keys are exactly the findings that occur (keyed by finding, not by message text) |
| BatchProperties.TotalRemove | invoice_qc/validator.py:79-81 | the total of a count map is any one key's count plus the total of the others |
| BatchProperties.TotalIncrement | invoice_qc/validator.py:81 | one increment raises the total of the counts by one |
| BatchProperties.CountsAddUp | invoice_qc/validator.py:79-81 | the counts add up to the number of errors in the batch |
| BatchProperties.AllErrorsMembership | invoice_qc/validator.py:80 | an error is counted iff some result has it |
| BatchProperties.ValidCountExtremes | invoice_qc/validator.py:84 | all are valid iff every result is valid; none are valid iff no result is |
| BatchProperties.ValidCountAppend | invoice_qc/validator.py:84 | the valid count of a concatenation is the sum of the counts |
| BatchProperties.SummaryConsistent | invoice_qc/validator.py:84-92 | total is the number of results, valid + invalid = total, invalid >= 0, the rate is within 0..100, and the error counts are the occurrence counts |
| BatchProperties.SameVerdictsSameValidCount | invoice_qc/validator.py:84 | results with the same verdicts have the same valid count |
| BatchProperties.SameVerdictsSameErrors | invoice_qc/validator.py:80 | results with the same errors give the same error list |
| BatchProperties.SameVerdictsSameSummary | invoice_qc/validator.py:84-92 | results with the same verdicts and errors give the same summary |
| BatchProperties.SummaryIgnoresDuplicateLookup | invoice_qc/validator.py:62-99 | the batch summary does not depend on the duplicate lookup |
| BatchProperties.ValidInvoiceCounted | invoice_qc/validator.py:84 | every invoice counts as valid iff none of them has a validation error |
| Amounts.NormalizeAmount | invoice_qc/extractor.py:242-263 | the cleaned amount contains no comma |
| Amounts.NormalizeKeepsDigits | invoice_qc/extractor.py:242-263 | normalising keeps every character other than the separators, in order |
| Amounts.NormalizeSwapInvariant | invoice_qc/extractor.py:245-252 | with both separators present, German and English notation of the same digits normalise alike |
| Amounts.GroupedAmount | invoice_qc/extractor.py:245-252 | `1.234,56` and `1,234.56` both become `1234.56` |
| Amounts.CommaDecimal | invoice_qc/extractor.py:253-258 | a single comma before exactly two digits is a decimal point |
| Amounts.CommaThousands | invoice_qc/extractor.py:259-261 | a single comma before three digits is a thousands separator |
| Amounts.CommasBecomePoints | invoice_qc/extractor.py:253-258 | two commas before two final digits both become points |
| Amounts.TwoPointsUnreadable | invoice_qc/extractor.py:265-267 | a numeral with two points does not convert |
| Amounts.AmbiguousCommasDropped | invoice_qc/extractor.py:253-267 | `1,234,56` is dropped as unreadable |
| Amounts.PointValue | invoice_qc/extractor.py:265 | a numeral with one point reads as its digits shifted by the fraction's length |
| Amounts.CentsValue | invoice_qc/extractor.py:265 | digits, a point and two digits read as the digits divided by 100 |
| Amounts.ParsedAmounts | invoice_qc/extractor.py:242-267 | no more amounts are kept than found |
| Amounts.ParsedAmountsMembership | invoice_qc/extractor.py:242-267 | a value is kept iff some found amount normalises to a numeral of that value |
| Amounts.ParsedAmountsCount | invoice_qc/extractor.py:242-267 | every amount is kept iff every one normalises to a readable numeral |
| Amounts.Insert | invoice_qc/extractor.py:271 | inserting into a descending list keeps it descending and adds exactly the element |
| Amounts.SortDescending | invoice_qc/extractor.py:271 | the sorted list is descending and a permutation of the input |
| Amounts.AssignRoles | invoice_qc/extractor.py:272-277 | each role is one of the sorted amounts; net is set only with gross and tax only with net; over a descending list net <= gross and tax <= net |
| Amounts.MaxIsUnique | invoice_qc/extractor.py:271 | a collection of amounts has one largest value, so each role is determined |
| Amounts.HeadIsMax | invoice_qc/extractor.py:271-273 | the head of a descending list is its largest element, and the rest is what remains |
| Amounts.SecondIsMax | invoice_qc/extractor.py:274-275 | the second of a descending list is the largest once the first is taken out |
| Amounts.ThirdIsMax | invoice_qc/extractor.py:276-277 | the third of a descending list is the largest once the first two are taken out |
| Amounts.RankedSorted | invoice_qc/extractor.py:270-277 | the first three of any descending arrangement of the amounts rank them |
| Amounts.RankedOrder | invoice_qc/extractor.py:270-277 | ranked roles are among the amounts, with gross >= net >= tax |
| Amounts.RolesOfAmounts | invoice_qc/extractor.py:269-277 | gross, net and tax are set iff there are at least 1, 2, 3 amounts; gross is the largest amount, net the largest once gross is taken out, tax the largest once gross and net are taken out |
| DateParsing.FieldValue | invoice_qc/extractor.py:296 | a `%d` field reads as 1..31 and a `%m` field as 1..12 |
| DateParsing.Fields | invoice_qc/extractor.py:296 | splitting at the separator gives three parts that rebuild the text, the first two without separator |
| DateParsing.Reading | invoice_qc/extractor.py:296 | a date is read only from fields that match `%d`, `%m` and `%Y` |
| DateParsing.Strptime | invoice_qc/extractor.py:296 | a format matches only a text of 8 to 10 characters that holds its separator |
| DateParsing.FirstReading | invoice_qc/extractor.py:294-301 | there is no reading iff no format matches |
| DateParsing.FormatsListed | invoice_qc/extractor.py:287-292 | the formats are `%d.%m.%Y`, `%d/%m/%Y`, `%m/%d/%Y`, `%Y-%m-%d`, in that order |
| DateParsing.FirstReadingIsFirst | invoice_qc/extractor.py:294-299 | the reading is that of the first format that matches |
| DateParsing.FormatOrder | invoice_qc/extractor.py:287-301 | the four formats are tried in the listed order |
| DateParsing.ParsedDateIsIso | invoice_qc/extractor.py:297 | every parsed date is ISO text that `fromisoformat` reads back to the same text |
| DateParsing.ParseDate | invoice_qc/extractor.py:282-301 | the loop returns the first format's reading in ISO form, or nothing; the result is ISO text |
| DateParsing.ParsedDate | invoice_qc/extractor.py:282-301 | a parsed date is ten characters: four digits, `-`, two digits, `-`, two digits |
| DateParsing.DottedDate | invoice_qc/extractor.py:288 | `DD.MM.YYYY` is read day first |
| DateParsing.SlashDate | invoice_qc/extractor.py:289-290 | `A/B/YYYY` is read day first, and month first only when that fails |
| DateParsing.IsoDate | invoice_qc/extractor.py:291 | `YYYY-MM-DD` is read year first |
| DateParsing.IsoDateReadBack | invoice_qc/extractor.py:282-301 | an ISO date parses to itself |
| DateParsing.PaddedDottedDate | invoice_qc/extractor.py:288 | a zero-padded `DD.MM.YYYY` of a date parses to that date |
| DateParsing.SlashDateMonthFirst | invoice_qc/extractor.py:290 | `MM/DD/YYYY` with a day above 12 parses to the intended date |
| DateParsing.SlashDateDayFirst | invoice_qc/extractor.py:289 | `DD/MM/YYYY` parses to the intended date, even when the day is 12 or less |
| Extractor.Found.FirstTwoDates | invoice_qc/extractor.py:201 | the dates used are the first two found, or all of them when fewer |
| Extractor.DetectCurrency | invoice_qc/extractor.py:209-217 | a detected currency has its symbol or code in the text |
| Extractor.DetectCurrencyFirstMarked | invoice_qc/extractor.py:209-217 | no currency is detected iff the text has no marker; otherwise the currency is the first of EUR, USD, GBP, INR whose marker occurs |
| Extractor.CodeDetected | invoice_qc/extractor.py:209-217 | a text holding a currency's code and no earlier currency's marker gets that currency |
| Extractor.Dedupe | invoice_qc/extractor.py:230 | removing duplicates keeps exactly the same names, each once |
| Extractor.StripAll | invoice_qc/extractor.py:231 | stripping keeps one name per match |
| Extractor.LongNames | invoice_qc/extractor.py:231 | a name is kept iff it is longer than five characters |
| Extractor.CleanedMembership | invoice_qc/extractor.py:229-231 | every match whose stripped form is longer than five characters is kept, stripped; every kept name is such a stripped match |
| Extractor.LongNamesDistinct | invoice_qc/extractor.py:231 | filtering keeps distinct names distinct |
| Extractor.CompaniesDistinct | invoice_qc/extractor.py:229-231 | for stripped matches the company names are distinct, longer than five characters and among the matches |
| Extractor.Companies | invoice_qc/extractor.py:229-231 | every company name kept is longer than five characters |
| Extractor.DateReadings | invoice_qc/extractor.py:201-202 | there is one reading per date |
| Extractor.ExtractWithRegex | invoice_qc/extractor.py:164-280 | the record filled step by step is the extraction function's record |
| Extractor.FillNumber | invoice_qc/extractor.py:180-187 | the record gets the number found, if any |
| Extractor.FillDates | invoice_qc/extractor.py:201-207 | the loop sets the invoice date from the first date and the due date from the second, where each parses |
| Extractor.SetDate | invoice_qc/extractor.py:203-207 | a parsed date is stored under the key of its position |
| Extractor.FillCurrency | invoice_qc/extractor.py:209-217 | the record gets the detected currency's code, if any |
| Extractor.FillCompanies | invoice_qc/extractor.py:233-235 | the record gets the first two companies as seller and buyer |
| Extractor.ParseAmounts | invoice_qc/extractor.py:240-267 | the loop keeps the values of the readable amounts in order |
| Extractor.FillAmounts | invoice_qc/extractor.py:269-277 | the record gets the roles of the amounts sorted in descending order |
| Extractor.FillRoles | invoice_qc/extractor.py:272-277 | the record gets the gross, net and tax of a sorted list |
| Extractor.EmptyInvoice | invoice_qc/extractor.py:303-322 | the empty invoice holds the given source file, and every field other than currency and source file is falsy |
| ExtractorProperties.EmptyInvoiceFields | invoice_qc/extractor.py:303-322 | the empty invoice has currency USD, no line items, the given source file, and no required field, due date or tax ID |
| ExtractorProperties.EmptyInvoiceAdmissible | invoice_qc/extractor.py:303-322 | the validator handles the empty invoice without raising |
| ExtractorProperties.EmptyInvoiceReport | invoice_qc/extractor.py:303-322 | the empty invoice is invalid, named after its source file, has exactly a missing-field error for each required field but currency, and exactly the four missing-field warnings |
| ExtractorProperties.UnfilledReport | invoice_qc/extractor.py:303-322 | the same report holds for any record with the empty invoice's fields |
| ExtractorProperties.UnfilledErrors | invoice_qc/validator.py:101-122 | an unfilled record's errors are exactly the missing required fields other than currency |
| ExtractorProperties.UnfilledWarnings | invoice_qc/validator.py:247-259 | an unfilled record gets exactly the four missing-field warnings |
| ExtractorProperties.UnfilledRulesPass | invoice_qc/validator.py:124-235 | an unfilled record has no format or business-rule errors |
| ExtractorProperties.UnfilledAdmissible | invoice_qc/extractor.py:303-322 | the validator handles an unfilled record without raising |
| ExtractorProperties.NoNegativeAmounts | invoice_qc/validator.py:217-222 | absent amounts yield no negative-amount errors |
| ExtractorProperties.WithNumberGet | invoice_qc/extractor.py:180-187 | setting the number changes only `invoice_number` |
| ExtractorProperties.WithDatesGet | invoice_qc/extractor.py:201-207 | setting dates changes only the invoice and due dates that parsed |
| ExtractorProperties.WithCurrencyGet | invoice_qc/extractor.py:209-217 | setting the currency changes only `currency` |
| ExtractorProperties.WithCompaniesGet | invoice_qc/extractor.py:233-235 | with companies, seller is the first and buyer the second or `None`; other fields are unchanged |
| ExtractorProperties.WithRolesGet | invoice_qc/extractor.py:270-277 | setting roles changes only the amounts present |
| ExtractorProperties.ThroughStages | invoice_qc/extractor.py:164-280 | the extracted record is the empty invoice passed through number, dates, currency, companies and amounts |
| ExtractorProperties.EmptyInvoiceGet | invoice_qc/extractor.py:303-322 | every field of the empty invoice is its default |
| ExtractorProperties.ExtractedGet | invoice_qc/extractor.py:164-280 | each field of the extracted record is the value derived from what was found, or the empty invoice's default |
| ExtractorProperties.Extraction | invoice_qc/extractor.py:164-280 | the extracted record holds field by field what was found |
| ExtractorProperties.FieldsHold | invoice_qc/extractor.py:164-280 | a record equal to the derived values field by field satisfies each named field's value |
| ExtractorProperties.NumberAndDatesHold | invoice_qc/extractor.py:180-207 | number and dates are the derived text values |
| ExtractorProperties.DefaultsHold | invoice_qc/extractor.py:303-322 | line items, source file and tax IDs keep their defaults |
| ExtractorProperties.PartiesHold | invoice_qc/extractor.py:233-235 | seller and buyer are the first and second company, or `None` |
| ExtractorProperties.CurrencyHolds | invoice_qc/extractor.py:209-217 | currency is the detected code or USD |
| ExtractorProperties.AmountsHold | invoice_qc/extractor.py:270-277 | the amounts are the derived roles, or `None` |
| ExtractorProperties.FilledDates | invoice_qc/extractor.py:196-207 | the invoice and due dates are the parses of the first and second dates found |
| ExtractorProperties.FilledDatesIso | invoice_qc/extractor.py:297 | both extracted dates are ISO text |
| ExtractorProperties.CodeAccepted | invoice_qc/validator.py:165-169 | every currency's code is upper case and allowed |
| ExtractorProperties.CurrencyHeld | invoice_qc/extractor.py:209-217 | the extracted currency is the detected code or USD, names a currency, and passes the currency check |
| ExtractorProperties.PartiesHeld | invoice_qc/extractor.py:233-235 | seller is set iff a company was found, buyer iff two were; both are among the companies, and buyer differs from seller |
| ExtractorProperties.AmountRolesRanked | invoice_qc/extractor.py:269-277 | the roles of the found amounts rank their values: gross the largest, net the largest of the rest, tax the largest once both are taken out |
| ExtractorProperties.AmountsHeld | invoice_qc/extractor.py:269-277 | gross, net and tax are set iff there are at least 1, 2, 3 values; gross is the largest value, net the largest of the rest and tax the largest once both are taken out |
| ExtractorProperties.HeldAdmissible | invoice_qc/extractor.py:164-280 | the validator handles every extracted record without raising |
| ExtractorProperties.HeldFormatErrors | invoice_qc/validator.py:124-169 | an extracted record's format errors are exactly a future invoice date and a due date before the invoice date, each when it happens |
| ExtractorProperties.HeldQuietRules | invoice_qc/validator.py:171-235 | an extracted record has no tax ID or business-rule warnings |
| ExtractorProperties.QuietWarnings | invoice_qc/validator.py:237-282 | with those rules quiet, the missing-field warnings decide which of the four warnings appear |
| ExtractorProperties.IsoTextFilled | invoice_qc/extractor.py:297 | an ISO date text has ten characters |
| ExtractorProperties.HeldMissingFields | invoice_qc/validator.py:247-259 | an extracted record is warned about a missing due date iff none was found, and always about tax IDs and line items |
| ExtractorProperties.HeldWarnings | invoice_qc/validator.py:237-259 | the tax-ID and line-item warnings always appear, and the due-date warning appears iff no due date was found |
| ExtractorProperties.HeldWithoutNumber | invoice_qc/validator.py:36-38 | without an invoice number the record is named `UNKNOWN_`, missing its number, and invalid |
| ExtractorProperties.ExtractedDates | invoice_qc/extractor.py:196-207 | the extracted dates are the ISO parses of the first and second dates found, or `None` |
| ExtractorProperties.ExtractedCurrency | invoice_qc/extractor.py:209-217 | the extracted currency is the detected code or USD and passes the currency check |
| ExtractorProperties.ExtractedParties | invoice_qc/extractor.py:219-235 | seller is set iff a company was found and buyer iff two were; both are among the matches, buyer differs from seller, and tax IDs stay `None` |
| ExtractorProperties.ExtractedAmounts | invoice_qc/extractor.py:237-277 | gross, net and tax are set iff at least 1, 2, 3 amounts were readable; gross is the largest reading, net the largest of the rest and tax the largest once both are taken out |
| ExtractorProperties.HeldChecks | invoice_qc/validator.py:124-259 | an extracted record is handled without raising, has only date format errors, and has the three missing-field warnings |
| ExtractorProperties.ExtractionChecks | invoice_qc/extractor.py:164-280 | the validator handles every regex extraction; its only possible format errors are the two date errors; it is always warned about tax IDs and line items |
| ExtractorProperties.ExtractionWithoutNumber | invoice_qc/extractor.py:180-187 | an extraction that found no invoice number is invalid, reports the missing number and is named `UNKNOWN_` |

## Left out

- The database: `check_duplicate` is a parameter of the validator, a function returning a `Result<bool>`. An `Err` stands for an exception, which the validator logs and ignores.
- The CLI, the HTTP API, `config.py` and the logger are not part of this model.
- The AI extraction path, PDF text extraction, the JSON handling and `extract_batch` are left out, because they are I/O and calls into other services.
- The regex searches of `_extract_with_regex` are left out. Their results (invoice number, date matches, company matches, amount matches) are the inputs of the extractor model (`Extractor.Found`).
- Message text: findings are datatype values. Rendering them as strings is left out.
- BatchProperties.ErrorCountsAreOccurrences: the source keys `error_counts` by message text; the model keys it by finding. The two keyings can disagree in both directions:
  - two findings can print the same message: an `invoice_date` of int `5` and one of string `"5"` both print `Invalid invoice_date format: 5`, one key with count 2 in the source and two keys with count 1 in the model;
  - one finding can print two messages: `Decimal` keeps a numeral's exponent and an int prints without a point, so `net_total` given as `"-5.00"`, `"-5.0"` or `-5` prints `-5.00`, `-5.0` or `-5`, three keys in the source and the single key `NegativeAmount("net_total", -5.0)` in the model.
- `validation_timestamp` (`datetime.now`) is left out. `date.today()` is a parameter of the validation functions.
- `float()` and `Decimal` are modelled as exact rationals, so binary rounding of extracted amounts is not modelled.
- Models.ValidationSummary.ValidationRate: the rate is the exact quotient `valid / total * 100`, not a binary float; the source's `1 / 3 * 100` is `33.33333333333333`, so `rate * total == valid * 100` holds in the model but not always in the source.
- Decimal arithmetic is exact in the model. Python's default decimal context rounds each sum and product to 28 significant digits, so amounts beyond that precision may compare differently in the source.
- Records.ToDecimal: `Decimal` is modelled for ASCII digits only; the other Unicode decimal digits it accepts are read as invalid. Strings naming an infinity or a NaN are not converted (see `Validate` above).
- Decimals.ParseDecimal: `float`'s white space, exponents, underscores and `inf`/`nan` names are not modelled; the amounts the extractor's pattern finds hold only digits, points and commas, so these never reach it. The pattern's `\d` also matches non-ASCII decimal digits, which `float` reads; the model treats such an amount as unreadable and drops it.
- Validator.InvoiceValidator.Validate: inputs on which the source raises an uncaught exception, and amounts the model cannot represent, are excluded by `Rules.Admissible`. These are:
  - a truthy non-string currency or tax ID;
  - an amount or line-item amount that `Decimal(str(...))` rejects (`InvalidOperation` is not among the exceptions `_to_decimal` catches);
  - an amount that is a string naming an infinity or a NaN, which `Decimal` reads but the model's exact rationals cannot hold;
  - line items that are not iterable;
  - dates of types the model does not order.
- Rules.DateOperand: `fromisoformat` is modelled only for the `YYYY-MM-DD` form. The other ISO forms Python accepts are read as unparseable.
- DateParsing.ParseDate: `strptime` is modelled only with ASCII digits. It does not model the Unicode digits that Python's regular expressions accept.
- RuleProperties.TaxIdRule: `isalnum` is modelled only on ASCII letters and digits. The source also accepts other Unicode letters and digits.
- Models.ValidatedInvoice: pydantic's type coercion of strings to dates and numbers is not modelled. The fields arrive already typed. Because the field validators run after type validation, the string branch of `validate_dates` is never reached, and a lower-case currency is rejected by the enum before `validate_currency_uppercase` runs.
- ExtractorProperties.ExtractedParties: requires the company matches to be already stripped of surrounding blanks. The matches of the source's pattern start with a capital letter and end with the indicator, so they are.
- `ValidationSummary.model_dump` and `ValidationResult.model_dump` are not modelled beyond the field values (`Models.ValidationResult.Dump`).
