/**
 * What each check of `InvoiceValidator` (invoice_qc/validator.py) adds to a
 * validation result, as functions of the invoice record, the current date
 * and the duplicate lookup. The methods of the `Validator` module are proved
 * to append exactly these findings.
 */
module Rules {
  import opened Common
  import opened Text
  import opened Calendar
  import opened Decimals
  import opened Records
  import opened Models

  // ---------------------------------------------------------------- constants

  /** The fields `_check_required_fields` checks, in its order. */
  const RequiredFields: seq<string> :=
    ["invoice_number", "invoice_date", "seller_name", "buyer_name", "currency", "net_total", "tax_amount", "gross_total"]

  /** The currencies `_check_formats` accepts after upper-casing. */
  const AllowedCurrencies: seq<string> := ["EUR", "USD", "INR", "GBP"]

  /** The amounts the negative-amount rule inspects, in its order. */
  const AmountFields: seq<string> := ["net_total", "tax_amount", "gross_total"]

  /** The tolerance of every amount comparison. */
  const Tolerance: real := 0.01

  /** `high_amount_threshold`, set by the validator's constructor. */
  const HighAmountThreshold: real := 1000000.00

  /**
   * The duplicate lookup `Database.check_duplicate(number, seller, date)`:
   * `Err` where it raises.
   */
  type DuplicateOracle = (Value, Value, Value) -> Result<bool>

  // ------------------------------------------------------ records handled

  /** A value a string method is called on when truthy. */
  predicate TextOrFalsy(v: Value) {
    !Truthy(v) || v.Str?
  }

  /** `line_items` as read by the business rules: an absent key reads as `[]`. */
  function LineItemsValue(rec: Record): (v: Value)
    ensures "line_items" !in rec ==> v == List([])
  {
    if "line_items" in rec then rec["line_items"] else List([])
  }

  /**
   * The values the line-item loops iterate without raising: a list of
   * dictionaries, or an empty string or dictionary (whose elements would be
   * strings without `.get`).
   */
  predicate ItemsIterable(v: Value) {
    || (v.List? && forall i :: 0 <= i < |v.items| ==> v.items[i].Dict?)
    || v == Str("")
    || v == Dict(map[])
  }

  /** The line items the loops visit. */
  function Items(v: Value): (items: seq<Record>)
    requires ItemsIterable(v)
    ensures v.List? ==> |items| == |v.items| && forall i :: 0 <= i < |items| ==> items[i] == v.items[i].fields
    ensures !v.List? ==> items == []
  {
    if v.List? then seq(|v.items|, i requires 0 <= i < |v.items| => v.items[i].fields) else []
  }

  /** A converted amount that is truthy: present and not zero. */
  predicate NonZero(d: Option<real>) {
    d.Some? && d.value != 0.0
  }

  /**
   * A line item the business rules handle without raising: both amounts
   * convert, and the quantity converts whenever the per-item check computes
   * with it.
   */
  predicate ItemConvertible(item: Record) {
    && Convertible(Get(item, "unit_price"))
    && Convertible(Get(item, "line_total"))
    && (Truthy(Get(item, "quantity")) && NonZero(ToDecimal(Get(item, "unit_price"))) && NonZero(ToDecimal(Get(item, "line_total")))
        ==> QuantityValue(Get(item, "quantity")).Some?)
  }

  /**
   * Dates whose ordering the model determines: `Other` objects and a pair
   * of lists (compared element by element in Python) are left open.
   */
  predicate DatesOrderable(rec: Record) {
    && !Get(rec, "invoice_date").Other? && !Get(rec, "due_date").Other?
    && !(Get(rec, "invoice_date").List? && Get(rec, "due_date").List?)
  }

  /**
   * The records `validate` handles: it raises on a truthy non-string
   * currency or tax ID, on an amount `_to_decimal` cannot convert, and on
   * line items it cannot iterate. Amounts that read as an infinity or a NaN
   * are excluded too: exact rationals cannot hold them.
   */
  predicate Admissible(rec: Record) {
    && TextOrFalsy(Get(rec, "currency"))
    && TextOrFalsy(Get(rec, "seller_tax_id"))
    && TextOrFalsy(Get(rec, "buyer_tax_id"))
    && Convertible(Get(rec, "net_total"))
    && Convertible(Get(rec, "tax_amount"))
    && Convertible(Get(rec, "gross_total"))
    && ItemsIterable(LineItemsValue(rec))
    && (forall item :: item in Items(LineItemsValue(rec)) ==> ItemConvertible(item))
    && DatesOrderable(rec)
  }

  // --------------------------------------------------------------- identifier

  /**
   * `invoice_id`: the invoice number, unless it is `None` or a blank string;
   * then the source file, or the `NO_FILE` marker when that key is absent.
   */
  function InvoiceIdOf(rec: Record): (id: InvoiceId)
    ensures id.Number? <==> !Get(rec, "invoice_number").Null? && !(Get(rec, "invoice_number").Str? && IsBlank(Get(rec, "invoice_number").s))
    ensures id.Number? ==> id.number == Get(rec, "invoice_number")
    ensures id.UnknownFrom? <==> !id.Number? && "source_file" in rec
    ensures id.UnknownFrom? ==> id.sourceFile == rec["source_file"]
  {
    var n := Get(rec, "invoice_number");
    if n.Null? || (n.Str? && IsBlank(n.s)) then
      if "source_file" in rec then UnknownFrom(rec["source_file"]) else UnknownNoFile
    else Number(n)
  }

  // ----------------------------------------------------------- required fields

  /** The finding for one required field's value, if any. */
  function RequiredFieldFinding(field: string, v: Value): Option<Finding> {
    if v.Null? then Some(MissingRequiredField(field))
    else if v.Str? && IsBlank(v.s) then Some(EmptyRequiredField(field))
    else if v.Num? && v.r < 0.0 then Some(NegativeRequiredField(field))
    else None
  }

  /** `_check_required_fields` over `fields`, in order. */
  function RequiredFieldErrors(rec: Record, fields: seq<string>): (errs: seq<Finding>)
    ensures |errs| <= |fields|
    decreases |fields|
  {
    if fields == [] then []
    else
      var field := fields[|fields| - 1];
      RequiredFieldErrors(rec, fields[..|fields| - 1])
        + match RequiredFieldFinding(field, Get(rec, field)) case Some(f) => [f] case None => []
  }

  // -------------------------------------------------------------------- dates

  /** A date operand after the string case is parsed. */
  datatype Operand = DateOp(d: ValidDate) | NumberOp(x: real) | Unordered

  /**
   * A date field as `_check_formats` compares it: strings go through
   * `datetime.fromisoformat` (`None` where that raises `ValueError`), other
   * values are compared as they are.
   */
  function DateOperand(v: Value): (op: Option<Operand>)
    ensures op.None? <==> v.Str? && FromIsoFormat(v.s).None?
  {
    match v
    case Str(s) =>
      (match FromIsoFormat(s)
       case Some(d) => Some(DateOp(d))
       case None => None)
    case PyDate(d) => Some(DateOp(d))
    case Num(r) => Some(NumberOp(r))
    case Bool(b) => Some(NumberOp(if b then 1.0 else 0.0))
    case _ => Some(Unordered)
  }

  /** `a < b`, `None` where Python raises `TypeError`. */
  function Less(a: Operand, b: Operand): Option<bool> {
    if a.DateOp? && b.DateOp? then Some(Before(a.d, b.d))
    else if a.NumberOp? && b.NumberOp? then Some(a.x < b.x)
    else None
  }

  /** The invoice-date part of `_check_formats`. */
  function InvoiceDateErrors(rec: Record, today: ValidDate): seq<Finding> {
    var v := Get(rec, "invoice_date");
    if !Truthy(v) then []
    else
      match DateOperand(v)
      case None => [InvalidInvoiceDate(v)]
      case Some(op) =>
        (match Less(DateOp(today), op)
         case None => [InvalidInvoiceDate(v)]
         case Some(future) => if future then [InvoiceDateInFuture] else [])
  }

  /**
   * The due-date part of `_check_formats`: only when both dates are truthy;
   * a failure to parse either date is reported against the due date.
   */
  function DueDateErrors(rec: Record): seq<Finding> {
    var due, inv := Get(rec, "due_date"), Get(rec, "invoice_date");
    if !(Truthy(due) && Truthy(inv)) then []
    else
      match (DateOperand(due), DateOperand(inv))
      case (Some(d), Some(i)) =>
        (match Less(d, i)
         case None => [InvalidDueDate(due)]
         case Some(before) => if before then [DueBeforeInvoiceDate] else [])
      case _ => [InvalidDueDate(due)]
  }

  // ------------------------------------------------------ currency and tax IDs

  /** The currency part of `_check_formats`. */
  function CurrencyErrors(rec: Record): seq<Finding>
    requires TextOrFalsy(Get(rec, "currency"))
  {
    var c := Get(rec, "currency");
    if Truthy(c) && Upper(c.s) !in AllowedCurrencies then [InvalidCurrency(c)] else []
  }

  /** One tax ID's warning: truthy, and not alphanumeric once `-` and spaces are removed. */
  function TaxIdWarning(party: Party, v: Value): seq<Finding>
    requires TextOrFalsy(v)
  {
    if Truthy(v) && !IsAlnum(Remove(Remove(v.s, '-'), ' ')) then [TaxIdFormat(party, v)] else []
  }

  /** The tax-ID part of `_check_formats`: seller, then buyer. */
  function TaxIdWarnings(rec: Record): seq<Finding>
    requires TextOrFalsy(Get(rec, "seller_tax_id")) && TextOrFalsy(Get(rec, "buyer_tax_id"))
  {
    TaxIdWarning(Seller, Get(rec, "seller_tax_id")) + TaxIdWarning(Buyer, Get(rec, "buyer_tax_id"))
  }

  /** The errors `_check_formats` appends. */
  function FormatErrors(rec: Record, today: ValidDate): seq<Finding>
    requires TextOrFalsy(Get(rec, "currency"))
  {
    InvoiceDateErrors(rec, today) + DueDateErrors(rec) + CurrencyErrors(rec)
  }

  // ----------------------------------------------------------- business rules

  /** Rule 1: net + tax must equal gross within the tolerance. */
  function TotalsErrors(rec: Record): seq<Finding>
    requires Convertible(Get(rec, "net_total")) && Convertible(Get(rec, "tax_amount")) && Convertible(Get(rec, "gross_total"))
  {
    match (ToDecimal(Get(rec, "net_total")), ToDecimal(Get(rec, "tax_amount")), ToDecimal(Get(rec, "gross_total")))
    case (Some(net), Some(tax), Some(gross)) =>
      if Abs(net + tax - gross) > Tolerance then [TotalMismatch(net, tax, gross, net + tax)] else []
    case _ => []
  }

  /** Rule 3 over `fields`, in order: a converted amount below zero. */
  function NegativeAmountErrors(rec: Record, fields: seq<string>): seq<Finding>
    requires forall f :: f in fields ==> Convertible(Get(rec, f))
    decreases |fields|
  {
    if fields == [] then []
    else
      var field := fields[|fields| - 1];
      var d := ToDecimal(Get(rec, field));
      NegativeAmountErrors(rec, fields[..|fields| - 1])
        + if d.Some? && d.value < 0.0 then [NegativeAmount(field, d.value)] else []
  }

  /** The errors `_check_business_rules` appends: rule 1, then rule 3. */
  function BusinessErrors(rec: Record): seq<Finding>
    requires Convertible(Get(rec, "net_total")) && Convertible(Get(rec, "tax_amount")) && Convertible(Get(rec, "gross_total"))
  {
    TotalsErrors(rec) + NegativeAmountErrors(rec, AmountFields)
  }

  /** Rule 2's running sum: the truthy converted line totals of `items`. */
  function LineTotalsSum(items: seq<Record>): real
    requires forall item :: item in items ==> Convertible(Get(item, "line_total"))
    decreases |items|
  {
    if items == [] then 0.0
    else
      var t := ToDecimal(Get(items[|items| - 1], "line_total"));
      LineTotalsSum(items[..|items| - 1]) + if NonZero(t) then t.value else 0.0
  }

  /** Rule 2: non-empty line items whose totals do not add up to the net total. */
  function LineSumWarnings(rec: Record): seq<Finding>
    requires Admissible(rec)
  {
    var v := LineItemsValue(rec);
    var net := ToDecimal(Get(rec, "net_total"));
    if Truthy(v) && net.Some? then
      var sum := LineTotalsSum(Items(v));
      if Abs(sum - net.value) > Tolerance then [LineItemsSumMismatch(sum, net.value)] else []
    else []
  }

  /**
   * Rule 4 for one item: quantity, unit price and line total all truthy, and
   * quantity times unit price off the line total by more than the tolerance.
   */
  predicate ItemMismatch(item: Record)
    requires ItemConvertible(item)
  {
    var q := Get(item, "quantity");
    var price, total := ToDecimal(Get(item, "unit_price")), ToDecimal(Get(item, "line_total"));
    Truthy(q) && NonZero(price) && NonZero(total)
    && Abs(QuantityValue(q).value * price.value - total.value) > Tolerance
  }

  /** Rule 4 over `items`, with 1-based positions. */
  function ItemWarnings(items: seq<Record>): (ws: seq<Finding>)
    requires forall item :: item in items ==> ItemConvertible(item)
    ensures |ws| <= |items|
    decreases |items|
  {
    if items == [] then []
    else
      ItemWarnings(items[..|items| - 1])
        + if ItemMismatch(items[|items| - 1]) then [LineItemMismatch(|items|)] else []
  }

  /** The warnings `_check_business_rules` appends: rule 2, then rule 4. */
  function BusinessWarnings(rec: Record): seq<Finding>
    requires Admissible(rec)
  {
    LineSumWarnings(rec) + ItemWarnings(Items(LineItemsValue(rec)))
  }

  // -------------------------------------------------- anomalies and duplicates

  /** The high-amount part of `_check_anomalies`: a truthy gross total above the threshold. */
  function HighGrossWarnings(rec: Record): seq<Finding>
    requires Convertible(Get(rec, "gross_total"))
  {
    var gross := ToDecimal(Get(rec, "gross_total"));
    if NonZero(gross) && gross.value > HighAmountThreshold then [UnusuallyHighGross(gross.value, HighAmountThreshold)] else []
  }

  /** The expected-field part of `_check_anomalies`: one warning per falsy field, in order. */
  function MissingFieldWarnings(rec: Record): seq<Finding> {
    (if !Truthy(Get(rec, "due_date")) then [DueDateMissing] else [])
    + (if !Truthy(Get(rec, "seller_tax_id")) then [SellerTaxIdMissing] else [])
    + (if !Truthy(Get(rec, "buyer_tax_id")) then [BuyerTaxIdMissing] else [])
    + (if !Truthy(Get(rec, "line_items")) then [NoLineItems] else [])
  }

  /** `_check_anomalies`. */
  function AnomalyWarnings(rec: Record): seq<Finding>
    requires Convertible(Get(rec, "gross_total"))
  {
    HighGrossWarnings(rec) + MissingFieldWarnings(rec)
  }

  /** The invoice date as handed to the lookup: `str()` of a non-string. */
  function DateArgument(v: Value): Value {
    if v.Str? then v
    else match StrOf(v) case Some(t) => Str(t) case None => v
  }

  /**
   * `_check_duplicates`: the lookup runs only when number, seller and date
   * are all truthy; a hit is a warning and a failed lookup adds nothing.
   */
  function DuplicateWarnings(rec: Record, duplicates: DuplicateOracle): seq<Finding> {
    var n, s, d := Get(rec, "invoice_number"), Get(rec, "seller_name"), Get(rec, "invoice_date");
    if !(Truthy(n) && Truthy(s) && Truthy(d)) then []
    else if duplicates(n, s, DateArgument(d)) == Ok(true) then [DuplicateInvoice(n, s, DateArgument(d))]
    else []
  }

  // ----------------------------------------------------------------- validate

  /** All errors of `validate`: required fields, formats, business rules. */
  function ValidationErrors(rec: Record, today: ValidDate): seq<Finding>
    requires Admissible(rec)
  {
    RequiredFieldErrors(rec, RequiredFields) + FormatErrors(rec, today) + BusinessErrors(rec)
  }

  /** All warnings of `validate`: formats, business rules, anomalies, duplicates. */
  function ValidationWarnings(rec: Record, duplicates: DuplicateOracle): seq<Finding>
    requires Admissible(rec)
  {
    TaxIdWarnings(rec) + BusinessWarnings(rec) + AnomalyWarnings(rec) + DuplicateWarnings(rec, duplicates)
  }

  /** `validate(invoice).model_dump()`: valid exactly when there is no error. */
  function Validation(rec: Record, today: ValidDate, duplicates: DuplicateOracle): (r: Report)
    requires Admissible(rec)
    ensures r.isValid <==> r.errors == []
    ensures r.invoiceId == InvoiceIdOf(rec)
  {
    var errors := ValidationErrors(rec, today);
    Report(InvoiceIdOf(rec), errors == [], errors, ValidationWarnings(rec, duplicates))
  }
}
