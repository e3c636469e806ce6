/**
 * `InvoiceValidator` (invoice_qc/validator.py): the five checks append to
 * the result's error and warning lists in place, `validate` sets the verdict
 * from the errors, and `validate_batch` collects the results and counts the
 * errors. Each method is proved to do what the functions of the `Rules` and
 * `Batch` modules say.
 */
module Validator {
  import opened Common
  import opened Text
  import opened Calendar
  import opened Decimals
  import opened Records
  import opened Models
  import opened Rules
  import opened Batch

  class InvoiceValidator {
    /** The duplicate lookup of the database the validator was given. */
    const duplicates: DuplicateOracle
    const highAmountThreshold: real

    constructor (duplicates: DuplicateOracle)
      ensures this.duplicates == duplicates
      ensures highAmountThreshold == HighAmountThreshold
    {
      this.duplicates := duplicates;
      highAmountThreshold := 1000000.00;
    }

    /** `validate`: the five checks in order, then the verdict. */
    method Validate(invoice: Record, today: ValidDate) returns (result: ValidationResult)
      requires Admissible(invoice)
      requires highAmountThreshold == HighAmountThreshold
      ensures fresh(result)
      ensures result.Dump() == Validation(invoice, today, duplicates)
    {
      var invoiceNumber := Get(invoice, "invoice_number");
      var invoiceId;
      if invoiceNumber.Null? || (invoiceNumber.Str? && Strip(invoiceNumber.s) == []) {
        if invoiceNumber.Str? { StripEmptyIffBlank(invoiceNumber.s); }
        invoiceId := if "source_file" in invoice then UnknownFrom(invoice["source_file"]) else UnknownNoFile;
      } else {
        if invoiceNumber.Str? { StripEmptyIffBlank(invoiceNumber.s); }
        invoiceId := Number(invoiceNumber);
      }
      result := new ValidationResult(invoiceId, true);
      assert invoiceId == InvoiceIdOf(invoice);
      CheckRequiredFields(invoice, result);
      assert result.errors == RequiredFieldErrors(invoice, RequiredFields);
      CheckFormats(invoice, today, result);
      assert result.warnings == TaxIdWarnings(invoice);
      CheckBusinessRules(invoice, result);
      assert result.errors == ValidationErrors(invoice, today);
      assert result.warnings == TaxIdWarnings(invoice) + BusinessWarnings(invoice);
      CheckAnomalies(invoice, result);
      CheckDuplicates(invoice, result);
      assert result.warnings == ValidationWarnings(invoice, duplicates);
      result.isValid := |result.errors| == 0;
    }

    /** `_check_required_fields`. */
    method CheckRequiredFields(invoice: Record, result: ValidationResult)
      modifies result
      ensures result.errors == old(result.errors) + RequiredFieldErrors(invoice, RequiredFields)
      ensures result.warnings == old(result.warnings)
      ensures result.invoiceId == old(result.invoiceId) && result.isValid == old(result.isValid)
    {
      var requiredFields := RequiredFields;
      for i := 0 to |requiredFields|
        invariant result.errors == old(result.errors) + RequiredFieldErrors(invoice, requiredFields[..i])
        invariant result.warnings == old(result.warnings)
        invariant result.invoiceId == old(result.invoiceId) && result.isValid == old(result.isValid)
      {
        assert requiredFields[..i + 1][..i] == requiredFields[..i];
        var field := requiredFields[i];
        CheckRequiredField(field, Get(invoice, field), result);
      }
      assert requiredFields[..|requiredFields|] == requiredFields;
    }

    /** One field of `_check_required_fields`. */
    method CheckRequiredField(field: string, value: Value, result: ValidationResult)
      modifies result
      ensures result.errors == old(result.errors) + match RequiredFieldFinding(field, value) case Some(f) => [f] case None => []
      ensures result.warnings == old(result.warnings)
      ensures result.invoiceId == old(result.invoiceId) && result.isValid == old(result.isValid)
    {
      if value.Str? {
        StripEmptyIffBlank(value.s);
      }
      if value.Null? {
        result.errors := result.errors + [MissingRequiredField(field)];
      } else if value.Str? && Strip(value.s) == [] {
        result.errors := result.errors + [EmptyRequiredField(field)];
      } else if value.Num? && value.r < 0.0 {
        result.errors := result.errors + [NegativeRequiredField(field)];
      }
    }

    /** `_check_formats`: dates and currency give errors, tax IDs warnings. */
    method CheckFormats(invoice: Record, today: ValidDate, result: ValidationResult)
      requires TextOrFalsy(Get(invoice, "currency"))
      requires TextOrFalsy(Get(invoice, "seller_tax_id")) && TextOrFalsy(Get(invoice, "buyer_tax_id"))
      modifies result
      ensures result.errors == old(result.errors) + FormatErrors(invoice, today)
      ensures result.warnings == old(result.warnings) + TaxIdWarnings(invoice)
      ensures result.invoiceId == old(result.invoiceId) && result.isValid == old(result.isValid)
    {
      CheckInvoiceDate(invoice, today, result);
      CheckDueDate(invoice, result);
      CheckCurrency(invoice, result);
      CheckTaxId(Seller, Get(invoice, "seller_tax_id"), result);
      CheckTaxId(Buyer, Get(invoice, "buyer_tax_id"), result);
    }

    /** The invoice-date section of `_check_formats`. */
    method CheckInvoiceDate(invoice: Record, today: ValidDate, result: ValidationResult)
      modifies result
      ensures result.errors == old(result.errors) + InvoiceDateErrors(invoice, today)
      ensures result.warnings == old(result.warnings)
      ensures result.invoiceId == old(result.invoiceId) && result.isValid == old(result.isValid)
    {
      var invoiceDate := Get(invoice, "invoice_date");
      if Truthy(invoiceDate) {
        var parsedDate := DateOperand(invoiceDate);
        if parsedDate.None? {
          result.errors := result.errors + [InvalidInvoiceDate(invoiceDate)];
        } else {
          var future := Less(DateOp(today), parsedDate.value);
          if future.None? {
            result.errors := result.errors + [InvalidInvoiceDate(invoiceDate)];
          } else if future.value {
            result.errors := result.errors + [InvoiceDateInFuture];
          }
        }
      }
    }

    /** The due-date section of `_check_formats`. */
    method CheckDueDate(invoice: Record, result: ValidationResult)
      modifies result
      ensures result.errors == old(result.errors) + DueDateErrors(invoice)
      ensures result.warnings == old(result.warnings)
      ensures result.invoiceId == old(result.invoiceId) && result.isValid == old(result.isValid)
    {
      var invoiceDate := Get(invoice, "invoice_date");
      var dueDate := Get(invoice, "due_date");
      if Truthy(dueDate) && Truthy(invoiceDate) {
        var parsedDue := DateOperand(dueDate);
        var parsedInvoice := DateOperand(invoiceDate);
        if parsedDue.None? || parsedInvoice.None? {
          result.errors := result.errors + [InvalidDueDate(dueDate)];
        } else {
          var before := Less(parsedDue.value, parsedInvoice.value);
          if before.None? {
            result.errors := result.errors + [InvalidDueDate(dueDate)];
          } else if before.value {
            result.errors := result.errors + [DueBeforeInvoiceDate];
          }
        }
      }
    }

    /** The currency section of `_check_formats`. */
    method CheckCurrency(invoice: Record, result: ValidationResult)
      requires TextOrFalsy(Get(invoice, "currency"))
      modifies result
      ensures result.errors == old(result.errors) + CurrencyErrors(invoice)
      ensures result.warnings == old(result.warnings)
      ensures result.invoiceId == old(result.invoiceId) && result.isValid == old(result.isValid)
    {
      var currency := Get(invoice, "currency");
      var allowedCurrencies := AllowedCurrencies;
      if Truthy(currency) && Upper(currency.s) !in allowedCurrencies {
        result.errors := result.errors + [InvalidCurrency(currency)];
      }
    }

    /** The tax-ID section of `_check_formats`, for one party. */
    method CheckTaxId(party: Party, taxId: Value, result: ValidationResult)
      requires TextOrFalsy(taxId)
      modifies result
      ensures result.errors == old(result.errors)
      ensures result.warnings == old(result.warnings) + TaxIdWarning(party, taxId)
      ensures result.invoiceId == old(result.invoiceId) && result.isValid == old(result.isValid)
    {
      if Truthy(taxId) {
        if !IsAlnum(Remove(Remove(taxId.s, '-'), ' ')) {
          result.warnings := result.warnings + [TaxIdFormat(party, taxId)];
        }
      }
    }

    /**
     * `_check_business_rules`: the totals and negative-amount rules give
     * errors, the line-item rules warnings.
     */
    method CheckBusinessRules(invoice: Record, result: ValidationResult)
      requires Admissible(invoice)
      modifies result
      ensures result.errors == old(result.errors) + BusinessErrors(invoice)
      ensures result.warnings == old(result.warnings) + BusinessWarnings(invoice)
      ensures result.invoiceId == old(result.invoiceId) && result.isValid == old(result.isValid)
    {
      ghost var warnings := result.warnings;
      CheckTotals(invoice, result);
      CheckLineItemsSum(invoice, result);
      ghost var sumWarnings := result.warnings;
      CheckNegativeAmounts(invoice, result);
      CheckLineItems(invoice, result);
      assert result.warnings == sumWarnings + ItemWarnings(Items(LineItemsValue(invoice)));
      assert sumWarnings == warnings + LineSumWarnings(invoice);
    }

    /** Rule 1 of `_check_business_rules`: net + tax against gross. */
    method CheckTotals(invoice: Record, result: ValidationResult)
      requires Convertible(Get(invoice, "net_total")) && Convertible(Get(invoice, "tax_amount")) && Convertible(Get(invoice, "gross_total"))
      modifies result
      ensures result.errors == old(result.errors) + TotalsErrors(invoice)
      ensures result.warnings == old(result.warnings)
      ensures result.invoiceId == old(result.invoiceId) && result.isValid == old(result.isValid)
    {
      var netTotal := ToDecimal(Get(invoice, "net_total"));
      var taxAmount := ToDecimal(Get(invoice, "tax_amount"));
      var grossTotal := ToDecimal(Get(invoice, "gross_total"));
      if netTotal.Some? && taxAmount.Some? && grossTotal.Some? {
        var expectedGross := netTotal.value + taxAmount.value;
        if Abs(expectedGross - grossTotal.value) > Tolerance {
          result.errors := result.errors + [TotalMismatch(netTotal.value, taxAmount.value, grossTotal.value, expectedGross)];
        }
      }
    }

    /** Rule 2 of `_check_business_rules`: the line totals against the net total. */
    method CheckLineItemsSum(invoice: Record, result: ValidationResult)
      requires Admissible(invoice)
      modifies result
      ensures result.errors == old(result.errors)
      ensures result.warnings == old(result.warnings) + LineSumWarnings(invoice)
      ensures result.invoiceId == old(result.invoiceId) && result.isValid == old(result.isValid)
    {
      var netTotal := ToDecimal(Get(invoice, "net_total"));
      var lineItems := LineItemsValue(invoice);
      if Truthy(lineItems) && netTotal.Some? {
        var items := Items(lineItems);
        assert forall item :: item in items ==> Convertible(Get(item, "line_total"));
        var lineItemsSum := 0.0;
        for i := 0 to |items|
          invariant lineItemsSum == LineTotalsSum(items[..i])
        {
          assert items[..i + 1][..i] == items[..i];
          assert items[i] in items;
          var itemTotal := ToDecimal(Get(items[i], "line_total"));
          if NonZero(itemTotal) {
            lineItemsSum := lineItemsSum + itemTotal.value;
          }
        }
        assert items[..|items|] == items;
        if Abs(lineItemsSum - netTotal.value) > Tolerance {
          result.warnings := result.warnings + [LineItemsSumMismatch(lineItemsSum, netTotal.value)];
        }
      }
    }

    /** Rule 3 of `_check_business_rules`: each amount below zero. */
    method CheckNegativeAmounts(invoice: Record, result: ValidationResult)
      requires Convertible(Get(invoice, "net_total")) && Convertible(Get(invoice, "tax_amount")) && Convertible(Get(invoice, "gross_total"))
      modifies result
      ensures result.errors == old(result.errors) + NegativeAmountErrors(invoice, AmountFields)
      ensures result.warnings == old(result.warnings)
      ensures result.invoiceId == old(result.invoiceId) && result.isValid == old(result.isValid)
    {
      var amountFields := AmountFields;
      for i := 0 to |amountFields|
        invariant result.errors == old(result.errors) + NegativeAmountErrors(invoice, amountFields[..i])
        invariant result.warnings == old(result.warnings)
        invariant result.invoiceId == old(result.invoiceId) && result.isValid == old(result.isValid)
      {
        var field := amountFields[i];
        assert amountFields[..i + 1][..i] == amountFields[..i];
        var value := ToDecimal(Get(invoice, field));
        if value.Some? && value.value < 0.0 {
          result.errors := result.errors + [NegativeAmount(field, value.value)];
        }
      }
      assert amountFields[..|amountFields|] == amountFields;
    }

    /** Rule 4 of `_check_business_rules`: each item's quantity times unit price against its total. */
    method CheckLineItems(invoice: Record, result: ValidationResult)
      requires Admissible(invoice)
      modifies result
      ensures result.errors == old(result.errors)
      ensures result.warnings == old(result.warnings) + ItemWarnings(Items(LineItemsValue(invoice)))
      ensures result.invoiceId == old(result.invoiceId) && result.isValid == old(result.isValid)
    {
      var items := Items(LineItemsValue(invoice));
      for idx := 0 to |items|
        invariant result.errors == old(result.errors)
        invariant result.warnings == old(result.warnings) + ItemWarnings(items[..idx])
        invariant result.invoiceId == old(result.invoiceId) && result.isValid == old(result.isValid)
      {
        assert items[..idx + 1][..idx] == items[..idx];
        assert items[idx] in items;
        CheckLineItem(items[idx], idx + 1, result);
      }
      assert items[..|items|] == items;
    }

    /** The body of rule 4's loop, for the item at 1-based `position`. */
    method CheckLineItem(item: Record, position: nat, result: ValidationResult)
      requires ItemConvertible(item)
      modifies result
      ensures result.errors == old(result.errors)
      ensures result.warnings == old(result.warnings) + if ItemMismatch(item) then [LineItemMismatch(position)] else []
      ensures result.invoiceId == old(result.invoiceId) && result.isValid == old(result.isValid)
    {
      var quantity := Get(item, "quantity");
      var unitPrice := ToDecimal(Get(item, "unit_price"));
      var lineTotal := ToDecimal(Get(item, "line_total"));
      if Truthy(quantity) && NonZero(unitPrice) && NonZero(lineTotal) {
        var expected := QuantityValue(quantity).value * unitPrice.value;
        if Abs(expected - lineTotal.value) > Tolerance {
          result.warnings := result.warnings + [LineItemMismatch(position)];
        }
      }
    }

    /** `_check_anomalies`: warnings only. */
    method CheckAnomalies(invoice: Record, result: ValidationResult)
      requires Convertible(Get(invoice, "gross_total"))
      requires highAmountThreshold == HighAmountThreshold
      modifies result
      ensures result.errors == old(result.errors)
      ensures result.warnings == old(result.warnings) + AnomalyWarnings(invoice)
      ensures result.invoiceId == old(result.invoiceId) && result.isValid == old(result.isValid)
    {
      CheckHighGross(invoice, result);
      CheckExpectedFields(invoice, result);
    }

    /** The unusually-high-amount section of `_check_anomalies`. */
    method CheckHighGross(invoice: Record, result: ValidationResult)
      requires Convertible(Get(invoice, "gross_total"))
      requires highAmountThreshold == HighAmountThreshold
      modifies result
      ensures result.errors == old(result.errors)
      ensures result.warnings == old(result.warnings) + HighGrossWarnings(invoice)
      ensures result.invoiceId == old(result.invoiceId) && result.isValid == old(result.isValid)
    {
      var grossTotal := ToDecimal(Get(invoice, "gross_total"));
      if NonZero(grossTotal) && grossTotal.value > highAmountThreshold {
        result.warnings := result.warnings + [UnusuallyHighGross(grossTotal.value, highAmountThreshold)];
      }
    }

    /** The missing-but-expected-fields section of `_check_anomalies`. */
    method CheckExpectedFields(invoice: Record, result: ValidationResult)
      modifies result
      ensures result.errors == old(result.errors)
      ensures result.warnings == old(result.warnings) + MissingFieldWarnings(invoice)
      ensures result.invoiceId == old(result.invoiceId) && result.isValid == old(result.isValid)
    {
      if !Truthy(Get(invoice, "due_date")) {
        result.warnings := result.warnings + [DueDateMissing];
      }
      if !Truthy(Get(invoice, "seller_tax_id")) {
        result.warnings := result.warnings + [SellerTaxIdMissing];
      }
      if !Truthy(Get(invoice, "buyer_tax_id")) {
        result.warnings := result.warnings + [BuyerTaxIdMissing];
      }
      if !Truthy(Get(invoice, "line_items")) {
        result.warnings := result.warnings + [NoLineItems];
      }
    }

    /** `_check_duplicates`: a hit is a warning; a failed lookup is swallowed. */
    method CheckDuplicates(invoice: Record, result: ValidationResult)
      modifies result
      ensures result.errors == old(result.errors)
      ensures result.warnings == old(result.warnings) + DuplicateWarnings(invoice, duplicates)
      ensures result.invoiceId == old(result.invoiceId) && result.isValid == old(result.isValid)
    {
      var invoiceNumber := Get(invoice, "invoice_number");
      var sellerName := Get(invoice, "seller_name");
      var invoiceDate := Get(invoice, "invoice_date");
      if !(Truthy(invoiceNumber) && Truthy(sellerName) && Truthy(invoiceDate)) {
        return;
      }
      invoiceDate := DateArgument(invoiceDate);
      var isDuplicate := duplicates(invoiceNumber, sellerName, invoiceDate);
      match isDuplicate {
        case Ok(hit) =>
          if hit {
            result.warnings := result.warnings + [DuplicateInvoice(invoiceNumber, sellerName, invoiceDate)];
          }
        case Err(_) =>
      }
    }

    /**
     * `validate_batch`: the reports in input order, each error counted once
     * per occurrence, and the summary.
     */
    method ValidateBatch(invoices: seq<Record>, today: ValidDate) returns (summary: ValidationSummary, results: seq<Report>)
      requires forall i :: 0 <= i < |invoices| ==> Admissible(invoices[i])
      requires highAmountThreshold == HighAmountThreshold
      ensures results == Validations(invoices, today, duplicates)
      ensures summary == Summarize(results)
    {
      results := [];
      var errorCounts: map<Finding, nat> := map[];
      for k := 0 to |invoices|
        invariant results == Validations(invoices[..k], today, duplicates)
        invariant errorCounts == ErrorCounts(AllErrors(results))
      {
        results, errorCounts := ValidateAndCount(invoices, k, today, results, errorCounts);
      }
      assert invoices[..|invoices|] == invoices;

      var validCount := ValidCount(results);
      summary := ValidationSummary(|results|, validCount, |results| - validCount, errorCounts);
    }

    /** The body of `validate_batch`'s loop: validate the next invoice, keep its result, count its errors. */
    method ValidateAndCount(invoices: seq<Record>, k: nat, today: ValidDate, results: seq<Report>, errorCounts: map<Finding, nat>)
      returns (results': seq<Report>, errorCounts': map<Finding, nat>)
      requires forall i :: 0 <= i < |invoices| ==> Admissible(invoices[i])
      requires k < |invoices|
      requires highAmountThreshold == HighAmountThreshold
      requires results == Validations(invoices[..k], today, duplicates)
      requires errorCounts == ErrorCounts(AllErrors(results))
      ensures results' == Validations(invoices[..k + 1], today, duplicates)
      ensures errorCounts' == ErrorCounts(AllErrors(results'))
    {
      ValidationsStep(invoices, k, today, duplicates);
      var result := Validate(invoices[k], today);
      AllErrorsSnoc(results, result.Dump());
      results' := results + [result.Dump()];
      errorCounts' := CountErrors(errorCounts, result.errors, AllErrors(results));
    }

    /** The inner loop of `validate_batch`: `error_counts[error] += 1` for each error in turn. */
    static method CountErrors(errorCounts: map<Finding, nat>, errors: seq<Finding>, ghost counted: seq<Finding>)
      returns (counts: map<Finding, nat>)
      requires errorCounts == ErrorCounts(counted)
      ensures counts == ErrorCounts(counted + errors)
    {
      counts := errorCounts;
      assert counted + errors[..0] == counted;
      for j := 0 to |errors|
        invariant counts == ErrorCounts(counted + errors[..j])
      {
        var error := errors[j];
        PrefixSnoc(counted, errors, j);
        ErrorCountsSnoc(counted + errors[..j], error);
        counts := counts[error := (if error in counts then counts[error] else 0) + 1];
      }
      assert errors[..|errors|] == errors;
    }
  }

  /** Counting one more error of the current report. */
  lemma PrefixSnoc(counted: seq<Finding>, errors: seq<Finding>, j: nat)
    requires j < |errors|
    ensures counted + errors[..j + 1] == (counted + errors[..j]) + [errors[j]]
  {
    assert errors[..j + 1] == errors[..j] + [errors[j]];
  }
}
