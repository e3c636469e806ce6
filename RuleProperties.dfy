/**
 * What the checks of invoice_qc/validator.py promise, proved about the
 * functions of `Rules`: which findings each rule reports and when, their
 * boundaries, and how the rule engine relates to the `Invoice` and
 * `LineItem` models.
 */
module RuleProperties {
  import opened Common
  import opened Text
  import opened Calendar
  import opened Decimals
  import opened Records
  import opened Models
  import opened Rules

  // --------------------------------------------------------------- identifier

  /**
   * The text of `invoice_id`: the number when it is a non-blank string; for a
   * `None` or blank number, `"UNKNOWN_"` and the source file, `"UNKNOWN_None"`
   * for a `None` source file, `"UNKNOWN_NO_FILE"` without one.
   */
  lemma InvoiceIdText(rec: Record)
    ensures Get(rec, "invoice_number").Str? && !IsBlank(Get(rec, "invoice_number").s) ==>
      InvoiceIdOf(rec).Text() == Some(Get(rec, "invoice_number").s)
    ensures var n := Get(rec, "invoice_number"); n.Null? || (n.Str? && IsBlank(n.s)) ==>
      && ("source_file" in rec && rec["source_file"].Str? ==> InvoiceIdOf(rec).Text() == Some("UNKNOWN_" + rec["source_file"].s))
      && ("source_file" in rec && rec["source_file"].Null? ==> InvoiceIdOf(rec).Text() == Some("UNKNOWN_None"))
      && ("source_file" !in rec ==> InvoiceIdOf(rec).Text() == Some("UNKNOWN_NO_FILE"))
  {
  }

  // ----------------------------------------------------------- required fields

  /**
   * `_check_required_fields` reports exactly the absent or `None` fields,
   * the blank strings and the negative numbers among `fields`, and nothing else.
   */
  lemma {:induction false} RequiredFieldErrorsExact(rec: Record, fields: seq<string>)
    ensures forall f :: MissingRequiredField(f) in RequiredFieldErrors(rec, fields) <==> f in fields && Get(rec, f).Null?
    ensures forall f :: EmptyRequiredField(f) in RequiredFieldErrors(rec, fields) <==> f in fields && Get(rec, f).Str? && IsBlank(Get(rec, f).s)
    ensures forall f :: NegativeRequiredField(f) in RequiredFieldErrors(rec, fields) <==> f in fields && Get(rec, f).Num? && Get(rec, f).r < 0.0
    ensures forall e :: e in RequiredFieldErrors(rec, fields) ==> e.MissingRequiredField? || e.EmptyRequiredField? || e.NegativeRequiredField?
    decreases |fields|
  {
    if fields != [] {
      var init, last := fields[..|fields| - 1], fields[|fields| - 1];
      RequiredFieldErrorsExact(rec, init);
      assert fields == init + [last];
      assert forall f :: f in fields <==> f in init || f == last;
    }
  }

  /** An absent or `None` required field is an error, so the invoice is invalid. */
  lemma MissingRequiredFieldInvalidates(rec: Record, today: ValidDate, duplicates: DuplicateOracle, field: string)
    requires Admissible(rec)
    requires field in RequiredFields && Get(rec, field).Null?
    ensures MissingRequiredField(field) in Validation(rec, today, duplicates).errors
    ensures !Validation(rec, today, duplicates).isValid
  {
    RequiredFieldErrorsExact(rec, RequiredFields);
  }

  // -------------------------------------------------------------------- dates

  /** A date field holding `d`, as a `date` object or as its ISO text. */
  predicate Denotes(v: Value, d: ValidDate) {
    v == PyDate(d) || v == Str(IsoFormat(d))
  }

  /** A field denoting a date is truthy and compares as that date. */
  lemma DenotedOperand(v: Value, d: ValidDate)
    requires Denotes(v, d)
    ensures Truthy(v) && DateOperand(v) == Some(DateOp(d))
  {
    IsoFormatRoundTrip(d);
  }

  /** An invoice date after `today` is an error; today or any earlier date is not. */
  lemma InvoiceDateRule(rec: Record, today: ValidDate, d: ValidDate)
    requires Denotes(Get(rec, "invoice_date"), d)
    ensures InvoiceDateErrors(rec, today) == if Before(today, d) then [InvoiceDateInFuture] else []
  {
    DenotedOperand(Get(rec, "invoice_date"), d);
  }

  /** A due date before the invoice date is an error; the same day or later is not. */
  lemma DueDateRule(rec: Record, due: ValidDate, inv: ValidDate)
    requires Denotes(Get(rec, "due_date"), due) && Denotes(Get(rec, "invoice_date"), inv)
    ensures DueDateErrors(rec) == if Before(due, inv) then [DueBeforeInvoiceDate] else []
  {
    DenotedOperand(Get(rec, "due_date"), due);
    DenotedOperand(Get(rec, "invoice_date"), inv);
  }

  /**
   * The rule engine and the `Invoice` model agree on the due date: the
   * engine reports no due-date error exactly when the model's due-date
   * validator accepts the pair.
   */
  lemma DueDateRuleAgreesWithModel(rec: Record, dueDate: Option<ValidDate>, invoiceDate: ValidDate)
    requires Denotes(Get(rec, "invoice_date"), invoiceDate)
    requires dueDate.Some? ==> Denotes(Get(rec, "due_date"), dueDate.value)
    requires dueDate.None? ==> Get(rec, "due_date") == Null
    ensures DueDateErrors(rec) == [] <==> DueDateNotBeforeInvoiceDate(dueDate, invoiceDate)
  {
    if dueDate.Some? {
      DueDateRule(rec, dueDate.value, invoiceDate);
    }
  }

  /**
   * An invoice date that is not ISO text is reported twice when a due date
   * is given: once as an invalid invoice date and once, by the due-date
   * check that also parses it, as an invalid due date.
   */
  lemma UnparseableInvoiceDateReportedTwice(rec: Record, today: ValidDate)
    requires Get(rec, "invoice_date").Str? && Get(rec, "invoice_date").s != []
    requires FromIsoFormat(Get(rec, "invoice_date").s).None?
    requires Truthy(Get(rec, "due_date"))
    ensures InvoiceDateErrors(rec, today) + DueDateErrors(rec) == [InvalidInvoiceDate(Get(rec, "invoice_date")), InvalidDueDate(Get(rec, "due_date"))]
  {
  }

  // ------------------------------------------------------ currency and tax IDs

  /**
   * A non-empty currency string passes exactly when its upper-cased text is
   * the code of a `CurrencyEnum` member.
   */
  lemma CurrencyRule(rec: Record)
    requires Get(rec, "currency").Str? && Get(rec, "currency").s != []
    ensures CurrencyErrors(rec) == [] <==> CurrencyFromCode(Upper(Get(rec, "currency").s)).Some?
  {
  }

  /**
   * A lower-case code passes the rule engine, which upper-cases it, though
   * `CurrencyEnum` itself has no member with that value.
   */
  lemma LowerCaseCurrencyExample(rec: Record)
    requires Get(rec, "currency") == Str("eur")
    ensures CurrencyErrors(rec) == []
    ensures CurrencyFromCode("eur").None?
  {
    assert Upper("eur") == "EUR";
  }

  /** `s.replace(c, '')` keeps exactly the characters of `s` other than `c`. */
  lemma {:induction false} RemoveMembership(s: string, c: char)
    ensures forall d :: d in Remove(s, c) <==> d in s && d != c
    decreases |s|
  {
    if s != [] {
      var init := s[..|s| - 1];
      RemoveMembership(init, c);
      assert s == init + [s[|s| - 1]];
    }
  }

  /** A character `isalnum` accepts, or one of the two separators the check removes. */
  predicate TaxIdChar(ch: char) {
    IsAsciiLetter(ch) || IsDigit(ch) || ch == '-' || ch == ' '
  }

  /** A tax ID of letters, digits, dashes and spaces, with at least one letter or digit. */
  predicate AcceptableTaxId(s: string) {
    (forall ch :: ch in s ==> TaxIdChar(ch)) && (exists ch :: ch in s && (IsAsciiLetter(ch) || IsDigit(ch)))
  }

  /** A non-empty tax ID is accepted exactly when it is acceptable; otherwise it gets one warning. */
  lemma TaxIdRule(party: Party, s: string)
    requires s != []
    ensures TaxIdWarning(party, Str(s)) == [] <==> AcceptableTaxId(s)
    ensures TaxIdWarning(party, Str(s)) != [] ==> TaxIdWarning(party, Str(s)) == [TaxIdFormat(party, Str(s))]
  {
    TaxIdWarningOfText(party, s);
    TaxIdWarningIsSingle(party, s);
    AlnumIffAcceptable(s);
  }

  lemma TaxIdWarningOfText(party: Party, s: string)
    requires s != []
    ensures TaxIdWarning(party, Str(s)) == [] <==> IsAlnum(Remove(Remove(s, '-'), ' '))
  {
    assert Truthy(Str(s));
    if !IsAlnum(Remove(Remove(s, '-'), ' ')) {
      assert TaxIdWarning(party, Str(s)) == [TaxIdFormat(party, Str(s))];
    }
  }

  lemma TaxIdWarningIsSingle(party: Party, s: string)
    requires s != []
    ensures TaxIdWarning(party, Str(s)) != [] ==> TaxIdWarning(party, Str(s)) == [TaxIdFormat(party, Str(s))]
  {
  }

  /** What is left after removing dashes and spaces is alphanumeric exactly when the tax ID is acceptable. */
  lemma AlnumIffAcceptable(s: string)
    ensures IsAlnum(Remove(Remove(s, '-'), ' ')) <==> AcceptableTaxId(s)
  {
    var y := Remove(Remove(s, '-'), ' ');
    RemoveMembership(s, '-');
    RemoveMembership(Remove(s, '-'), ' ');
    if IsAlnum(y) {
      AlnumRemainder(s, y);
    }
    if AcceptableTaxId(s) {
      AlnumFromCharacters(s, y);
    }
  }

  /** When what is left is alphanumeric, every character was allowed and one was a letter or digit. */
  lemma AlnumRemainder(s: string, y: string)
    requires forall ch :: ch in y <==> ch in s && ch != '-' && ch != ' '
    requires IsAlnum(y)
    ensures forall ch :: ch in s ==> TaxIdChar(ch)
    ensures exists ch :: ch in s && (IsAsciiLetter(ch) || IsDigit(ch))
  {
    forall ch | ch in s
      ensures TaxIdChar(ch)
    {
      if ch != '-' && ch != ' ' {
        assert ch in y;
      }
    }
    assert y[0] in s;
  }

  /** When every character is allowed and one is a letter or digit, what is left is alphanumeric. */
  lemma AlnumFromCharacters(s: string, y: string)
    requires forall ch :: ch in y <==> ch in s && ch != '-' && ch != ' '
    requires forall ch :: ch in s ==> TaxIdChar(ch)
    requires exists ch :: ch in s && (IsAsciiLetter(ch) || IsDigit(ch))
    ensures IsAlnum(y)
  {
    var ch :| ch in s && (IsAsciiLetter(ch) || IsDigit(ch));
    assert ch in y;
    forall i | 0 <= i < |y|
      ensures IsAsciiLetter(y[i]) || IsDigit(y[i])
    {
      assert y[i] in s;
    }
  }

  // ----------------------------------------------------------- business rules

  /**
   * Rule 1: with all three amounts converted (numbers or numerals alike), an
   * error exactly when net plus tax is more than 0.01 off gross.
   */
  lemma TotalsRule(rec: Record, net: real, tax: real, gross: real)
    requires Convertible(Get(rec, "net_total")) && Convertible(Get(rec, "tax_amount")) && Convertible(Get(rec, "gross_total"))
    requires ToDecimal(Get(rec, "net_total")) == Some(net) && ToDecimal(Get(rec, "tax_amount")) == Some(tax)
    requires ToDecimal(Get(rec, "gross_total")) == Some(gross)
    ensures TotalsErrors(rec) == [] <==> Abs(net + tax - gross) <= Tolerance
    ensures TotalsErrors(rec) != [] ==> TotalsErrors(rec) == [TotalMismatch(net, tax, gross, net + tax)]
  {
  }

  /** Rule 1 is skipped when any of the three amounts is absent. */
  lemma TotalsRuleNeedsAllAmounts(rec: Record)
    requires Convertible(Get(rec, "net_total")) && Convertible(Get(rec, "tax_amount")) && Convertible(Get(rec, "gross_total"))
    requires Get(rec, "net_total").Null? || Get(rec, "tax_amount").Null? || Get(rec, "gross_total").Null?
    ensures TotalsErrors(rec) == []
  {
  }

  /** The tolerance boundary: 100.00 + 19.00 against 119.01 passes, against 119.02 fails. */
  lemma TotalsToleranceBoundary(rec: Record)
    requires Get(rec, "net_total") == Num(100.00) && Get(rec, "tax_amount") == Num(19.00)
    ensures Get(rec, "gross_total") == Num(119.01) ==> TotalsErrors(rec) == []
    ensures Get(rec, "gross_total") == Num(119.02) ==> TotalsErrors(rec) == [TotalMismatch(100.00, 19.00, 119.02, 119.00)]
  {
  }

  /** Rule 3 reports exactly the negative converted amounts among `fields`, and nothing else. */
  lemma {:induction false} NegativeAmountErrorsExact(rec: Record, fields: seq<string>)
    requires forall f :: f in fields ==> Convertible(Get(rec, f))
    ensures forall f, x :: NegativeAmount(f, x) in NegativeAmountErrors(rec, fields) <==> f in fields && Convertible(Get(rec, f)) && ToDecimal(Get(rec, f)) == Some(x) && x < 0.0
    ensures forall e :: e in NegativeAmountErrors(rec, fields) ==> e.NegativeAmount?
    decreases |fields|
  {
    if fields != [] {
      var init, last := fields[..|fields| - 1], fields[|fields| - 1];
      assert forall f :: f in init ==> f in fields;
      NegativeAmountErrorsExact(rec, init);
      assert forall f :: f in fields <==> f in init || f == last;
    }
  }

  /**
   * A negative number in an amount field is reported twice, by the
   * required-field check and by rule 3, and makes the invoice invalid.
   */
  lemma NegativeNumberReportedTwice(rec: Record, today: ValidDate, duplicates: DuplicateOracle, field: string, r: real)
    requires Admissible(rec)
    requires field in AmountFields && Get(rec, field) == Num(r) && r < 0.0
    ensures NegativeRequiredField(field) in Validation(rec, today, duplicates).errors
    ensures NegativeAmount(field, r) in Validation(rec, today, duplicates).errors
    ensures !Validation(rec, today, duplicates).isValid
  {
    RequiredFieldErrorsExact(rec, RequiredFields);
    NegativeAmountErrorsExact(rec, AmountFields);
  }

  /**
   * A negative amount given as text escapes the required-field check
   * (which inspects numbers only); rule 3 alone reports it.
   */
  lemma NegativeTextReportedOnce(rec: Record, today: ValidDate, duplicates: DuplicateOracle, field: string, x: real)
    requires Admissible(rec)
    requires field in AmountFields && Get(rec, field).Str? && ReadDecimal(Get(rec, field).s) == Finite(x) && x < 0.0
    ensures NegativeRequiredField(field) !in Validation(rec, today, duplicates).errors
    ensures NegativeAmount(field, x) in Validation(rec, today, duplicates).errors
  {
    NegativeTextFindings(rec, today, field, x);
    assert Validation(rec, today, duplicates).errors
      == (RequiredFieldErrors(rec, RequiredFields) + FormatErrors(rec, today)) + (TotalsErrors(rec) + NegativeAmountErrors(rec, AmountFields));
  }

  /** The findings of each check for an amount given as negative text. */
  lemma NegativeTextFindings(rec: Record, today: ValidDate, field: string, x: real)
    requires TextOrFalsy(Get(rec, "currency"))
    requires forall f :: f in AmountFields ==> Convertible(Get(rec, f))
    requires field in AmountFields && Get(rec, field).Str? && ReadDecimal(Get(rec, field).s) == Finite(x) && x < 0.0
    ensures NegativeRequiredField(field) !in RequiredFieldErrors(rec, RequiredFields) + FormatErrors(rec, today)
    ensures NegativeRequiredField(field) !in TotalsErrors(rec) + NegativeAmountErrors(rec, AmountFields)
    ensures NegativeAmount(field, x) in NegativeAmountErrors(rec, AmountFields)
  {
    TextNotNegativeRequired(rec, field);
    FormatErrorKinds(rec, today);
    NegativeAmountErrorsExact(rec, AmountFields);
  }

  /** The required-field check never reports a text value as a negative number. */
  lemma TextNotNegativeRequired(rec: Record, field: string)
    requires Get(rec, field).Str?
    ensures NegativeRequiredField(field) !in RequiredFieldErrors(rec, RequiredFields)
  {
    RequiredFieldErrorsExact(rec, RequiredFields);
  }

  /** The running sum of rule 2 is additive over a split of the items. */
  lemma {:induction false} LineTotalsSumAppend(a: seq<Record>, b: seq<Record>)
    requires forall item :: item in a + b ==> Convertible(Get(item, "line_total"))
    ensures LineTotalsSum(a + b) == LineTotalsSum(a) + LineTotalsSum(b)
    decreases |b|
  {
    if b == [] {
      assert a + b == a;
    } else {
      var init := b[..|b| - 1];
      assert (a + b)[..|a + b| - 1] == a + init;
      LineTotalsSumAppend(a, init);
    }
  }

  /** A line item whose total is `None` or zero adds nothing to the sum of rule 2, wherever it stands. */
  lemma LineTotalIgnored(a: seq<Record>, item: Record, b: seq<Record>)
    requires forall x :: x in a + [item] + b ==> Convertible(Get(x, "line_total"))
    requires !NonZero(ToDecimal(Get(item, "line_total")))
    ensures LineTotalsSum(a + [item] + b) == LineTotalsSum(a + b)
  {
    LineTotalsSumAppend(a + [item], b);
    LineTotalsSumAppend(a, b);
    assert (a + [item])[..|a + [item]| - 1] == a;
  }

  /** A line item with a non-zero total adds exactly that total, wherever it stands. */
  lemma LineTotalCounted(a: seq<Record>, item: Record, b: seq<Record>, t: real)
    requires forall x :: x in a + [item] + b ==> Convertible(Get(x, "line_total"))
    requires ToDecimal(Get(item, "line_total")) == Some(t) && t != 0.0
    ensures LineTotalsSum(a + [item] + b) == LineTotalsSum(a + b) + t
  {
    LineTotalsSumAppend(a + [item], b);
    LineTotalsSumAppend(a, b);
    assert (a + [item])[..|a + [item]| - 1] == a;
  }

  /**
   * Rule 2: with the net total converted, a warning exactly when line items
   * are present (truthy) and the sum of their truthy line totals is more
   * than 0.01 off the net total; it carries the sum and the net total.
   */
  lemma LineSumRule(rec: Record, net: real)
    requires Admissible(rec)
    requires ToDecimal(Get(rec, "net_total")) == Some(net)
    ensures LineSumWarnings(rec) != [] <==> Truthy(Get(rec, "line_items")) && Abs(LineTotalsSum(Items(LineItemsValue(rec))) - net) > Tolerance
    ensures LineSumWarnings(rec) != [] ==> LineSumWarnings(rec) == [LineItemsSumMismatch(LineTotalsSum(Items(LineItemsValue(rec))), net)]
  {
  }

  /** Rule 2 is skipped when the net total is absent, whatever the line items. */
  lemma LineSumNeedsNet(rec: Record)
    requires Admissible(rec)
    requires Get(rec, "net_total").Null?
    ensures LineSumWarnings(rec) == []
  {
  }

  /** The tolerance boundary of rule 2: a gap of exactly 0.01 passes, one of 0.02 is reported. */
  lemma LineSumToleranceBoundary(rec: Record, net: real)
    requires Admissible(rec) && Truthy(Get(rec, "line_items"))
    requires ToDecimal(Get(rec, "net_total")) == Some(net)
    ensures LineTotalsSum(Items(LineItemsValue(rec))) == net + 0.01 ==> LineSumWarnings(rec) == []
    ensures LineTotalsSum(Items(LineItemsValue(rec))) == net - 0.02 ==> LineSumWarnings(rec) == [LineItemsSumMismatch(net - 0.02, net)]
  {
  }

  /**
   * Rule 4 reports position `k` (1-based) exactly when the `k`-th item's
   * quantity times unit price misses its line total, and nothing else.
   */
  lemma {:induction false} ItemWarningsExact(items: seq<Record>)
    requires forall item :: item in items ==> ItemConvertible(item)
    ensures forall k: nat :: LineItemMismatch(k) in ItemWarnings(items) <==> 1 <= k <= |items| && ItemMismatch(items[k - 1])
    ensures forall e :: e in ItemWarnings(items) ==> e.LineItemMismatch?
    decreases |items|
  {
    if items != [] {
      var init := items[..|items| - 1];
      assert forall item :: item in init ==> item in items;
      ItemWarningsExact(init);
      assert forall i :: 0 <= i < |init| ==> init[i] == items[i];
    }
  }

  /** A line item as a record: what `LineItem.model_dump()` gives. */
  function ItemRecord(item: LineItemData): Record {
    map["description" := Str(item.description), "quantity" := Num(item.quantity as real),
        "unit_price" := Num(item.unitPrice), "line_total" := Num(item.lineTotal)]
  }

  /**
   * Every line item the `LineItem` model accepts passes rule 4: the model
   * settles the line total within 0.01 of quantity times unit price.
   */
  lemma ValidatedItemPassesRuleFour(description: string, quantity: int, unitPrice: real, lineTotal: real)
    requires LineItemBounds(quantity, unitPrice, lineTotal)
    ensures ItemConvertible(ItemRecord(ValidatedLineItem(description, quantity, unitPrice, lineTotal).value))
    ensures !ItemMismatch(ItemRecord(ValidatedLineItem(description, quantity, unitPrice, lineTotal).value))
  {
    ValidatedLineItemInvariant(description, quantity, unitPrice, lineTotal);
    SettledItemPassesRuleFour(ValidatedLineItem(description, quantity, unitPrice, lineTotal).value);
  }

  /** An item whose line total is within 0.01 of quantity times unit price passes rule 4. */
  lemma SettledItemPassesRuleFour(d: LineItemData)
    requires Abs(d.lineTotal - Expected(d.quantity, d.unitPrice)) <= 0.01
    ensures ItemConvertible(ItemRecord(d))
    ensures !ItemMismatch(ItemRecord(d))
  {
    var r := ItemRecord(d);
    assert Get(r, "quantity") == Num(d.quantity as real);
    assert Get(r, "unit_price") == Num(d.unitPrice);
    assert Get(r, "line_total") == Num(d.lineTotal);
  }

  // -------------------------------------------------- anomalies and duplicates

  /**
   * A converted gross total (number or numeral) is flagged exactly when it is
   * strictly above 1,000,000.00, and the warning carries the amount.
   */
  lemma HighGrossRule(rec: Record, gross: real)
    requires Convertible(Get(rec, "gross_total")) && ToDecimal(Get(rec, "gross_total")) == Some(gross)
    ensures HighGrossWarnings(rec) != [] <==> gross > 1000000.00
    ensures HighGrossWarnings(rec) != [] ==> HighGrossWarnings(rec) == [UnusuallyHighGross(gross, 1000000.00)]
  {
  }

  /** The duplicate lookup runs only for a truthy number, seller and date; a failed lookup adds nothing. */
  lemma DuplicateRule(rec: Record, duplicates: DuplicateOracle)
    ensures DuplicateWarnings(rec, duplicates) != [] ==> Truthy(Get(rec, "invoice_number")) && Truthy(Get(rec, "seller_name")) && Truthy(Get(rec, "invoice_date"))
    ensures DuplicateWarnings(rec, duplicates) != [] ==> duplicates(Get(rec, "invoice_number"), Get(rec, "seller_name"), DateArgument(Get(rec, "invoice_date"))) == Ok(true)
    ensures |DuplicateWarnings(rec, duplicates)| <= 1
  {
  }

  /** Conversely, a lookup that answers `True` for a truthy number, seller and date is reported. */
  lemma DuplicateReported(rec: Record, duplicates: DuplicateOracle)
    requires Truthy(Get(rec, "invoice_number")) && Truthy(Get(rec, "seller_name")) && Truthy(Get(rec, "invoice_date"))
    requires duplicates(Get(rec, "invoice_number"), Get(rec, "seller_name"), DateArgument(Get(rec, "invoice_date"))) == Ok(true)
    ensures DuplicateWarnings(rec, duplicates) == [DuplicateInvoice(Get(rec, "invoice_number"), Get(rec, "seller_name"), DateArgument(Get(rec, "invoice_date")))]
  {
  }

  // ----------------------------------------------------------------- validate

  /** The duplicate lookup only adds warnings: errors and verdict do not depend on it. */
  lemma VerdictIgnoresDuplicateLookup(rec: Record, today: ValidDate, d1: DuplicateOracle, d2: DuplicateOracle)
    requires Admissible(rec)
    ensures Validation(rec, today, d1).errors == Validation(rec, today, d2).errors
    ensures Validation(rec, today, d1).isValid == Validation(rec, today, d2).isValid
  {
  }

  /** A finding reporting a missing expected field. */
  predicate MissingField(w: Finding) {
    w.DueDateMissing? || w.SellerTaxIdMissing? || w.BuyerTaxIdMissing? || w.NoLineItems?
  }

  /** Around the expected-field warnings, other warnings do not change which fields are reported. */
  lemma MissingFieldsAmong(rec: Record, before: seq<Finding>, after: seq<Finding>)
    requires forall w :: w in before ==> !MissingField(w)
    requires forall w :: w in after ==> !MissingField(w)
    ensures DueDateMissing in before + MissingFieldWarnings(rec) + after <==> !Truthy(Get(rec, "due_date"))
    ensures SellerTaxIdMissing in before + MissingFieldWarnings(rec) + after <==> !Truthy(Get(rec, "seller_tax_id"))
    ensures BuyerTaxIdMissing in before + MissingFieldWarnings(rec) + after <==> !Truthy(Get(rec, "buyer_tax_id"))
    ensures NoLineItems in before + MissingFieldWarnings(rec) + after <==> !Truthy(Get(rec, "line_items"))
  {
  }

  /** The warnings of `validate`, in the order the checks append them. */
  lemma WarningsInOrder(rec: Record, today: ValidDate, duplicates: DuplicateOracle)
    requires Admissible(rec)
    ensures Validation(rec, today, duplicates).warnings
      == TaxIdWarnings(rec) + LineSumWarnings(rec) + ItemWarnings(Items(LineItemsValue(rec))) + HighGrossWarnings(rec)
         + MissingFieldWarnings(rec) + DuplicateWarnings(rec, duplicates)
  {
    var business, anomalies := BusinessWarnings(rec), AnomalyWarnings(rec);
    assert business == LineSumWarnings(rec) + ItemWarnings(Items(LineItemsValue(rec)));
    assert anomalies == HighGrossWarnings(rec) + MissingFieldWarnings(rec);
    Regroup(TaxIdWarnings(rec), LineSumWarnings(rec), ItemWarnings(Items(LineItemsValue(rec))), HighGrossWarnings(rec),
      MissingFieldWarnings(rec), DuplicateWarnings(rec, duplicates));
  }

  /** Concatenation regrouped: the shape of the warnings of `validate`. */
  lemma Regroup<T>(a: seq<T>, b: seq<T>, c: seq<T>, d: seq<T>, e: seq<T>, f: seq<T>)
    ensures a + (b + c) + (d + e) + f == a + b + c + d + e + f
  {
  }

  /**
   * Each expected field is reported missing in the warnings of `validate`
   * exactly when it is falsy: no other check produces these warnings.
   */
  lemma MissingFieldsReported(rec: Record, today: ValidDate, duplicates: DuplicateOracle)
    requires Admissible(rec)
    ensures DueDateMissing in Validation(rec, today, duplicates).warnings <==> !Truthy(Get(rec, "due_date"))
    ensures SellerTaxIdMissing in Validation(rec, today, duplicates).warnings <==> !Truthy(Get(rec, "seller_tax_id"))
    ensures BuyerTaxIdMissing in Validation(rec, today, duplicates).warnings <==> !Truthy(Get(rec, "buyer_tax_id"))
    ensures NoLineItems in Validation(rec, today, duplicates).warnings <==> !Truthy(Get(rec, "line_items"))
  {
    var taxIds, sum, items, high := TaxIdWarnings(rec), LineSumWarnings(rec), ItemWarnings(Items(LineItemsValue(rec))), HighGrossWarnings(rec);
    ItemWarningsExact(Items(LineItemsValue(rec)));
    assert forall w :: w in items ==> !MissingField(w);
    assert forall w :: w in taxIds + sum ==> !MissingField(w);
    var before := taxIds + sum + items + high;
    assert forall w :: w in before ==> !MissingField(w);
    MissingFieldsAmong(rec, before, DuplicateWarnings(rec, duplicates));
    WarningsInOrder(rec, today, duplicates);
  }

  /** `_check_formats` reports only date and currency errors. */
  lemma FormatErrorKinds(rec: Record, today: ValidDate)
    requires TextOrFalsy(Get(rec, "currency"))
    ensures forall e :: e in FormatErrors(rec, today) ==>
      e.InvoiceDateInFuture? || e.InvalidInvoiceDate? || e.DueBeforeInvoiceDate? || e.InvalidDueDate? || e.InvalidCurrency?
  {
  }

  /** Every error is one of the error kinds; warnings never make an invoice invalid. */
  lemma ErrorKinds(rec: Record, today: ValidDate, duplicates: DuplicateOracle)
    requires Admissible(rec)
    ensures forall e :: e in Validation(rec, today, duplicates).errors ==>
      || e.MissingRequiredField? || e.EmptyRequiredField? || e.NegativeRequiredField?
      || e.InvoiceDateInFuture? || e.InvalidInvoiceDate? || e.DueBeforeInvoiceDate? || e.InvalidDueDate?
      || e.InvalidCurrency? || e.TotalMismatch? || e.NegativeAmount?
  {
    RequiredFieldErrorsExact(rec, RequiredFields);
    FormatErrorKinds(rec, today);
    NegativeAmountErrorsExact(rec, AmountFields);
    assert Validation(rec, today, duplicates).errors == RequiredFieldErrors(rec, RequiredFields) + FormatErrors(rec, today) + (TotalsErrors(rec) + NegativeAmountErrors(rec, AmountFields));
  }
}
