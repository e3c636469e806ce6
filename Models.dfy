/**
 * The value objects of invoice_qc/models.py: the currency enumeration, line
 * items with their bounds, rounding and total correction, the invoice with
 * its field constraints and due-date rule, and the validation report shapes
 * (`ValidationResult`, `ValidationSummary`).
 */
module Models {
  import opened Common
  import opened Text
  import opened Calendar
  import opened Decimals
  import opened Records

  // ---------------------------------------------------------------- currency

  /** `CurrencyEnum`. */
  datatype Currency = EUR | USD | INR | GBP {
    /** The enumeration value, the code the member stands for. */
    function Code(): string {
      match this
      case EUR => "EUR"
      case USD => "USD"
      case INR => "INR"
      case GBP => "GBP"
    }
  }

  /** `CurrencyEnum(s)`: the member whose value is exactly `s`. */
  function CurrencyFromCode(s: string): Option<Currency> {
    if s == "EUR" then Some(EUR)
    else if s == "USD" then Some(USD)
    else if s == "INR" then Some(INR)
    else if s == "GBP" then Some(GBP)
    else None
  }

  /** Code and lookup are inverse: a member is found by its own code and by no other text. */
  lemma CurrencyCodeRoundTrip(c: Currency, s: string)
    ensures CurrencyFromCode(c.Code()) == Some(c)
    ensures CurrencyFromCode(s) == Some(c) <==> s == c.Code()
  {
  }

  // --------------------------------------------------------------- line items

  datatype LineItemData = LineItemData(description: string, quantity: int, unitPrice: real, lineTotal: real)

  /** The `Field` bounds of `LineItem`: quantity > 0, unit_price >= 0, line_total >= 0. */
  predicate LineItemBounds(quantity: int, unitPrice: real, lineTotal: real) {
    quantity > 0 && unitPrice >= 0.0 && lineTotal >= 0.0
  }

  /**
   * The line total `validate_line_total` leaves, given the expected total
   * (quantity times unit price): the stated total when within 0.01 of it,
   * otherwise the expected total rounded to cents.
   */
  function SettledLineTotal(expected: real, lineTotal: real): (r: real)
    ensures Abs(lineTotal - expected) <= 0.01 ==> r == lineTotal
    ensures Abs(lineTotal - expected) > 0.01 ==> IsCents(r) && Abs(r - expected) <= 0.005
  {
    if Abs(lineTotal - expected) > 0.01 then Round2(expected) else lineTotal
  }

  /**
   * After settling, the line total is within 0.01 of an expected total that
   * has two places, has two places itself, and is non-negative when both
   * totals are.
   */
  lemma SettledLineTotalProperties(expected: real, lineTotal: real)
    requires IsCents(expected) && IsCents(lineTotal)
    ensures Abs(SettledLineTotal(expected, lineTotal) - expected) <= 0.01
    ensures IsCents(SettledLineTotal(expected, lineTotal))
    ensures expected >= 0.0 && lineTotal >= 0.0 ==> SettledLineTotal(expected, lineTotal) >= 0.0
  {
    Round2OfCents(expected);
  }

  /** The expected line total: quantity times unit price. */
  function Expected(quantity: int, unitPrice: real): real {
    quantity as real * unitPrice
  }

  /** A whole number of units at a price with two places costs an amount with two places. */
  lemma ExpectedCents(quantity: int, unitPrice: real)
    requires IsCents(unitPrice) && quantity >= 0 && unitPrice >= 0.0
    ensures IsCents(Expected(quantity, unitPrice)) && Expected(quantity, unitPrice) >= 0.0
  {
    CentsTimesWhole(quantity, unitPrice);
  }

  lemma RoundedNonNegative(x: real)
    requires x >= 0.0
    ensures Round2(x) >= 0.0
  {
    var r := Round2(x);
    assert (r * 100.0).Floor as real == r * 100.0;
    assert r * 100.0 >= -0.5;
  }

  /**
   * `LineItem(...)`: `None` when a bound is violated (pydantic's
   * `ValidationError`); otherwise `validate_decimal_places` rounds both
   * amounts to cents and `validate_line_total` settles the line total
   * against quantity times the rounded unit price.
   */
  function ValidatedLineItem(description: string, quantity: int, unitPrice: real, lineTotal: real): (r: Option<LineItemData>)
    ensures r.Some? <==> LineItemBounds(quantity, unitPrice, lineTotal)
  {
    if !LineItemBounds(quantity, unitPrice, lineTotal) then None
    else
      var price := Round2(unitPrice);
      Some(LineItemData(description, quantity, price, SettledLineTotal(Expected(quantity, price), Round2(lineTotal))))
  }

  /**
   * What a constructed line item guarantees: its fields are those given,
   * amounts rounded; both amounts have two places and are non-negative; and
   * the line total is within 0.01 of quantity times unit price.
   */
  lemma ValidatedLineItemInvariant(description: string, quantity: int, unitPrice: real, lineTotal: real)
    requires LineItemBounds(quantity, unitPrice, lineTotal)
    ensures var item := ValidatedLineItem(description, quantity, unitPrice, lineTotal).value;
      && item.description == description && item.quantity == quantity
      && item.unitPrice == Round2(unitPrice)
      && IsCents(item.unitPrice) && IsCents(item.lineTotal)
      && item.unitPrice >= 0.0 && item.lineTotal >= 0.0
      && Abs(item.lineTotal - Expected(quantity, item.unitPrice)) <= 0.01
  {
    var price, total := Round2(unitPrice), Round2(lineTotal);
    RoundedNonNegative(unitPrice);
    RoundedNonNegative(lineTotal);
    ExpectedCents(quantity, price);
    SettledLineTotalProperties(Expected(quantity, price), total);
  }

  /** The documented example: 5 at 20.00 with a stated total of 99.00 is corrected to 100.00. */
  lemma LineTotalCorrectionExample()
    ensures ValidatedLineItem("Product B", 5, 20.00, 99.00) == Some(LineItemData("Product B", 5, 20.00, 100.00))
  {
    Round2OfCents(20.00);
    Round2OfCents(99.00);
    Round2OfCents(100.00);
  }

  /** A total within the tolerance is kept as stated: 3 at 10.00 stated as 30.01 stays 30.01. */
  lemma LineTotalWithinToleranceExample()
    ensures ValidatedLineItem("Product A", 3, 10.00, 30.01) == Some(LineItemData("Product A", 3, 10.00, 30.01))
  {
    Round2OfCents(10.00);
    Round2OfCents(30.01);
  }

  /** A line item object; `validate_line_total` overwrites `line_total` in place. */
  class LineItem {
    var description: string
    var quantity: int
    var unitPrice: real
    var lineTotal: real

    function Data(): LineItemData
      reads this
    {
      LineItemData(description, quantity, unitPrice, lineTotal)
    }

    /** Field validation: the bounds hold and `validate_decimal_places` has rounded both amounts. */
    constructor Fields(description: string, quantity: int, unitPrice: real, lineTotal: real)
      requires LineItemBounds(quantity, unitPrice, lineTotal)
      ensures this.description == description && this.quantity == quantity
      ensures this.unitPrice == Round2(unitPrice) && this.lineTotal == Round2(lineTotal)
    {
      this.description := description;
      this.quantity := quantity;
      this.unitPrice := Round2(unitPrice);
      this.lineTotal := Round2(lineTotal);
    }

    /** `validate_line_total`: replaces an out-of-tolerance total by the rounded product. */
    method ValidateLineTotal()
      requires quantity >= 0 && unitPrice >= 0.0 && IsCents(unitPrice) && IsCents(lineTotal)
      modifies this`lineTotal
      ensures lineTotal == SettledLineTotal(Expected(quantity, unitPrice), old(lineTotal))
      ensures Abs(lineTotal - Expected(quantity, unitPrice)) <= 0.01
    {
      var expected := Expected(quantity, unitPrice);
      ExpectedCents(quantity, unitPrice);
      SettledLineTotalProperties(expected, lineTotal);
      if Abs(lineTotal - expected) > 0.01 {
        lineTotal := Round2(expected);
      }
    }

    /** `LineItem(description=..., quantity=..., ...)`: `null` where pydantic raises. */
    static method Create(description: string, quantity: int, unitPrice: real, lineTotal: real) returns (item: LineItem?)
      ensures (item != null) == ValidatedLineItem(description, quantity, unitPrice, lineTotal).Some?
      ensures item != null ==> fresh(item) && item.Data() == ValidatedLineItem(description, quantity, unitPrice, lineTotal).value
    {
      if !LineItemBounds(quantity, unitPrice, lineTotal) {
        return null;
      }
      item := new LineItem.Fields(description, quantity, unitPrice, lineTotal);
      RoundedNonNegative(unitPrice);
      item.ValidateLineTotal();
    }
  }

  // ------------------------------------------------------------------ invoice

  /** The arguments given to `Invoice(...)`, dates already parsed by pydantic. */
  datatype InvoiceFields = InvoiceFields(
    invoiceNumber: string,
    invoiceDate: ValidDate,
    dueDate: Option<ValidDate>,
    sellerName: string,
    sellerAddress: Option<string>,
    sellerTaxId: Option<string>,
    buyerName: string,
    buyerAddress: Option<string>,
    buyerTaxId: Option<string>,
    currency: string,
    netTotal: real,
    taxRate: Option<real>,
    taxAmount: real,
    grossTotal: real,
    lineItems: seq<LineItemData>)

  /** An `Invoice` that passed validation. */
  datatype Invoice = Invoice(
    invoiceNumber: string,
    invoiceDate: ValidDate,
    dueDate: Option<ValidDate>,
    sellerName: string,
    sellerAddress: Option<string>,
    sellerTaxId: Option<string>,
    buyerName: string,
    buyerAddress: Option<string>,
    buyerTaxId: Option<string>,
    currency: Currency,
    netTotal: real,
    taxRate: Option<real>,
    taxAmount: real,
    grossTotal: real,
    lineItems: seq<LineItemData>)

  /** Every nested line item passes `LineItem` validation. */
  function ValidatedLineItems(items: seq<LineItemData>): (r: Option<seq<LineItemData>>)
    ensures r.Some? <==> forall i :: 0 <= i < |items| ==> ValidatedLineItem(items[i].description, items[i].quantity, items[i].unitPrice, items[i].lineTotal).Some?
    ensures r.Some? ==> |r.value| == |items|
    ensures r.Some? ==> forall i :: 0 <= i < |items| ==> Some(r.value[i]) == ValidatedLineItem(items[i].description, items[i].quantity, items[i].unitPrice, items[i].lineTotal)
    decreases |items|
  {
    if items == [] then Some([])
    else
      var last := items[|items| - 1];
      match (ValidatedLineItems(items[..|items| - 1]), ValidatedLineItem(last.description, last.quantity, last.unitPrice, last.lineTotal))
      case (Some(init), Some(item)) => Some(init + [item])
      case _ => None
  }

  /** The field-level constraints of `Invoice` (`Field(...)` and `validate_amounts_non_negative`). */
  predicate InvoiceFieldConstraints(f: InvoiceFields) {
    && |f.invoiceNumber| >= 1 && |f.sellerName| >= 1 && |f.buyerName| >= 1
    && CurrencyFromCode(f.currency).Some?
    && f.netTotal >= 0.0 && f.taxAmount >= 0.0 && f.grossTotal >= 0.0
    && (f.taxRate.Some? ==> 0.0 <= f.taxRate.value <= 100.0)
    && ValidatedLineItems(f.lineItems).Some?
  }

  /** `validate_due_date_after_invoice_date`: equal dates are allowed. */
  predicate DueDateNotBeforeInvoiceDate(dueDate: Option<ValidDate>, invoiceDate: ValidDate) {
    dueDate.Some? ==> !Before(dueDate.value, invoiceDate)
  }

  /**
   * `Invoice(...)`: `None` where pydantic raises. Field constraints are
   * checked first; the model validator on the due date runs only after
   * them. Accepted amounts are rounded to cents.
   */
  function ValidatedInvoice(f: InvoiceFields): (r: Option<Invoice>)
    ensures r.Some? <==> InvoiceFieldConstraints(f) && DueDateNotBeforeInvoiceDate(f.dueDate, f.invoiceDate)
  {
    if !InvoiceFieldConstraints(f) then None
    else
      var inv := Invoice(f.invoiceNumber, f.invoiceDate, f.dueDate, f.sellerName, f.sellerAddress, f.sellerTaxId,
                         f.buyerName, f.buyerAddress, f.buyerTaxId, CurrencyFromCode(f.currency).value,
                         Round2(f.netTotal), f.taxRate, Round2(f.taxAmount), Round2(f.grossTotal),
                         ValidatedLineItems(f.lineItems).value);
      if !DueDateNotBeforeInvoiceDate(inv.dueDate, inv.invoiceDate) then None else Some(inv)
  }

  /**
   * What a constructed invoice guarantees: the three amounts have two places,
   * are within half a cent of those given and are non-negative; the currency
   * is the member named by the code; every other field is as given, each line
   * item validated.
   */
  lemma ValidatedInvoiceInvariant(f: InvoiceFields)
    requires InvoiceFieldConstraints(f) && DueDateNotBeforeInvoiceDate(f.dueDate, f.invoiceDate)
    ensures var inv := ValidatedInvoice(f).value;
      && IsCents(inv.netTotal) && IsCents(inv.taxAmount) && IsCents(inv.grossTotal)
      && Abs(inv.netTotal - f.netTotal) <= 0.005 && Abs(inv.taxAmount - f.taxAmount) <= 0.005
      && Abs(inv.grossTotal - f.grossTotal) <= 0.005
      && inv.netTotal >= 0.0 && inv.taxAmount >= 0.0 && inv.grossTotal >= 0.0
      && inv.currency.Code() == f.currency
      && inv.invoiceNumber == f.invoiceNumber && inv.invoiceDate == f.invoiceDate && inv.dueDate == f.dueDate
      && inv.sellerName == f.sellerName && inv.sellerAddress == f.sellerAddress && inv.sellerTaxId == f.sellerTaxId
      && inv.buyerName == f.buyerName && inv.buyerAddress == f.buyerAddress && inv.buyerTaxId == f.buyerTaxId
      && inv.taxRate == f.taxRate
      && |inv.lineItems| == |f.lineItems|
      && forall i :: 0 <= i < |f.lineItems| ==>
           Some(inv.lineItems[i]) == ValidatedLineItem(f.lineItems[i].description, f.lineItems[i].quantity, f.lineItems[i].unitPrice, f.lineItems[i].lineTotal)
  {
    RoundedNonNegative(f.netTotal);
    RoundedNonNegative(f.taxAmount);
    RoundedNonNegative(f.grossTotal);
    CurrencyCodeRoundTrip(CurrencyFromCode(f.currency).value, f.currency);
  }

  // -------------------------------------------------------- validation report

  datatype Party = Seller | Buyer

  /**
   * One error or warning message of the rule engine, by its template and the
   * values it interpolates. The text of a message is a function of this value.
   */
  datatype Finding =
    | MissingRequiredField(field: string)
    | EmptyRequiredField(field: string)
    | NegativeRequiredField(field: string)
    | InvoiceDateInFuture
    | InvalidInvoiceDate(invoiceDate: Value)
    | DueBeforeInvoiceDate
    | InvalidDueDate(dueDate: Value)
    | InvalidCurrency(currency: Value)
    | TaxIdFormat(party: Party, taxId: Value)
    | TotalMismatch(net: real, tax: real, gross: real, expected: real)
    | LineItemsSumMismatch(sum: real, net: real)
    | NegativeAmount(amountField: string, amount: real)
    | LineItemMismatch(index: nat)
    | UnusuallyHighGross(gross: real, threshold: real)
    | DueDateMissing
    | SellerTaxIdMissing
    | BuyerTaxIdMissing
    | NoLineItems
    | DuplicateInvoice(number: Value, seller: Value, date: Value)

  /**
   * `ValidationResult.invoice_id`: `str(invoice_number)`, or
   * `"UNKNOWN_" + str(source_file)`, or `"UNKNOWN_NO_FILE"`.
   */
  datatype InvoiceId = Number(number: Value) | UnknownFrom(sourceFile: Value) | UnknownNoFile {
    /** The identifier's text where `str()` of the value is fixed by the value alone. */
    function Text(): (t: Option<string>)
      ensures UnknownNoFile? ==> t == Some("UNKNOWN_NO_FILE")
      ensures UnknownFrom? && sourceFile.Str? ==> t == Some("UNKNOWN_" + sourceFile.s)
      ensures UnknownFrom? && sourceFile.Null? ==> t == Some("UNKNOWN_None")
      ensures Number? && number.Str? ==> t == Some(number.s)
    {
      assert "UNKNOWN_" + "None" == "UNKNOWN_None";
      match this
      case Number(v) => StrOf(v)
      case UnknownFrom(v) =>
        (match StrOf(v)
         case Some(s) => Some("UNKNOWN_" + s)
         case None => None)
      case UnknownNoFile => Some("UNKNOWN_NO_FILE")
    }
  }

  /** `str(v)` for strings, `None`, booleans and dates. */
  function StrOf(v: Value): Option<string> {
    match v
    case Str(s) => Some(s)
    case Null => Some("None")
    case Bool(b) => Some(if b then "True" else "False")
    case PyDate(d) => Some(IsoFormat(d))
    case _ => None
  }

  /** `ValidationResult.model_dump()`: the result as a value. */
  datatype Report = Report(invoiceId: InvoiceId, isValid: bool, errors: seq<Finding>, warnings: seq<Finding>)

  /** `ValidationResult`: the checks append to `errors` and `warnings` in place. */
  class ValidationResult {
    var invoiceId: InvoiceId
    var isValid: bool
    var errors: seq<Finding>
    var warnings: seq<Finding>

    /** `errors` and `warnings` default to empty lists. */
    constructor (invoiceId: InvoiceId, isValid: bool)
      ensures this.invoiceId == invoiceId && this.isValid == isValid
      ensures errors == [] && warnings == []
    {
      this.invoiceId := invoiceId;
      this.isValid := isValid;
      errors := [];
      warnings := [];
    }

    function Dump(): Report
      reads this
    {
      Report(invoiceId, isValid, errors, warnings)
    }
  }

  /** `ValidationSummary` (the timestamp is left out). */
  datatype ValidationSummary = ValidationSummary(
    totalInvoices: int,
    validInvoices: int,
    invalidInvoices: int,
    errorCounts: map<Finding, nat>)
  {
    /** `validation_rate`: the percentage of valid invoices, 0 for an empty batch. */
    function ValidationRate(): (rate: real)
      ensures totalInvoices == 0 ==> rate == 0.0
      ensures totalInvoices != 0 ==> rate * totalInvoices as real == validInvoices as real * 100.0
      ensures 0 <= validInvoices <= totalInvoices ==> 0.0 <= rate <= 100.0
    {
      if totalInvoices == 0 then 0.0
      else validInvoices as real / totalInvoices as real * 100.0
    }
  }
}
