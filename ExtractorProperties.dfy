/**
 * What the regex fallback of invoice_qc/extractor.py hands to the validator:
 * the fields it fills and from what, that the validator handles every such
 * record, which findings it can and cannot draw, and the amounts' order.
 */
module ExtractorProperties {
  import opened Common
  import opened Text
  import opened Calendar
  import opened Records
  import opened Models
  import opened Rules
  import opened RuleProperties
  import opened Amounts
  import opened DateParsing
  import opened Extractor

  // ------------------------------------------------------------ empty invoice

  /** The fields of the empty invoice the validator reads. */
  lemma EmptyInvoiceFields(filename: string)
    ensures Get(EmptyInvoice(filename), "currency") == Str("USD")
    ensures Get(EmptyInvoice(filename), "line_items") == List([]) && "line_items" in EmptyInvoice(filename)
    ensures "source_file" in EmptyInvoice(filename) && EmptyInvoice(filename)["source_file"] == Str(filename)
    ensures forall f :: f in RequiredFields && f != "currency" ==> Get(EmptyInvoice(filename), f) == Null
    ensures Get(EmptyInvoice(filename), "due_date") == Null
    ensures Get(EmptyInvoice(filename), "seller_tax_id") == Null && Get(EmptyInvoice(filename), "buyer_tax_id") == Null
  {
  }

  /** The fields of a record with nothing filled in but a valid currency and no line items. */
  predicate Unfilled(rec: Record) {
    && Get(rec, "currency") == Str("USD")
    && Get(rec, "line_items") == List([]) && "line_items" in rec
    && (forall f :: f in RequiredFields && f != "currency" ==> Get(rec, f) == Null)
    && Get(rec, "due_date") == Null
    && Get(rec, "seller_tax_id") == Null && Get(rec, "buyer_tax_id") == Null
  }

  lemma EmptyInvoiceAdmissible(filename: string)
    ensures Admissible(EmptyInvoice(filename))
  {
    EmptyInvoiceFields(filename);
    UnfilledAdmissible(EmptyInvoice(filename));
  }

  lemma UnfilledAdmissible(rec: Record)
    requires Unfilled(rec)
    ensures Admissible(rec)
  {
    assert "net_total" in RequiredFields && "tax_amount" in RequiredFields && "gross_total" in RequiredFields;
    assert Items(LineItemsValue(rec)) == [];
  }

  /** A record with nothing filled in has no format error and breaks no business rule. */
  lemma UnfilledRulesPass(rec: Record, today: ValidDate)
    requires Unfilled(rec)
    ensures Admissible(rec)
    ensures FormatErrors(rec, today) == [] && BusinessErrors(rec) == []
  {
    UnfilledAdmissible(rec);
    assert "invoice_date" in RequiredFields;
    assert Upper("USD") == "USD";
    assert FormatErrors(rec, today) == [];
    assert "net_total" in RequiredFields && "tax_amount" in RequiredFields && "gross_total" in RequiredFields;
    NoNegativeAmounts(rec, AmountFields);
  }

  /** A record with nothing filled in has exactly the missing required fields as errors. */
  lemma UnfilledErrors(rec: Record, today: ValidDate)
    requires Unfilled(rec)
    ensures Admissible(rec)
    ensures forall e :: e in ValidationErrors(rec, today) <==> e.MissingRequiredField? && e.field in RequiredFields && e.field != "currency"
  {
    UnfilledRulesPass(rec, today);
    assert ValidationErrors(rec, today) == RequiredFieldErrors(rec, RequiredFields);
    UnfilledRequiredErrors(rec);
  }

  /** The required-field check of a record with nothing filled in: one missing field for each but currency. */
  lemma UnfilledRequiredErrors(rec: Record)
    requires Unfilled(rec)
    ensures forall e :: e in RequiredFieldErrors(rec, RequiredFields) <==> e.MissingRequiredField? && e.field in RequiredFields && e.field != "currency"
  {
    RequiredFieldErrorsExact(rec, RequiredFields);
    UnfilledNotEmpty(rec);
  }

  /** No required field of a record with nothing filled in is empty or negative. */
  lemma UnfilledNotEmpty(rec: Record)
    requires Unfilled(rec)
    ensures forall f :: f in RequiredFields ==> !(Get(rec, f).Str? && IsBlank(Get(rec, f).s))
    ensures forall f :: f in RequiredFields ==> !(Get(rec, f).Num? && Get(rec, f).r < 0.0)
  {
    assert !IsBlank("USD") by {
      assert !IsSpace("USD"[0]);
    }
    forall f | f in RequiredFields
      ensures Get(rec, f) == Null || Get(rec, f) == Str("USD")
    {
    }
  }

  /** A record with nothing filled in is invalid, reported under its source file, with the four missing-field warnings. */
  lemma UnfilledReport(rec: Record, today: ValidDate, duplicates: DuplicateOracle)
    requires Unfilled(rec) && "source_file" in rec
    ensures Admissible(rec)
    ensures Validation(rec, today, duplicates).invoiceId == UnknownFrom(rec["source_file"])
    ensures !Validation(rec, today, duplicates).isValid
    ensures forall e :: e in Validation(rec, today, duplicates).errors <==>
      e.MissingRequiredField? && e.field in RequiredFields && e.field != "currency"
    ensures Validation(rec, today, duplicates).warnings == [DueDateMissing, SellerTaxIdMissing, BuyerTaxIdMissing, NoLineItems]
  {
    UnfilledErrors(rec, today);
    UnfilledWarnings(rec, duplicates);
    assert "invoice_number" in RequiredFields;
    assert MissingRequiredField("invoice_number") in ValidationErrors(rec, today);
  }

  /** No amount converts, so none is negative. */
  lemma {:induction false} NoNegativeAmounts(rec: Record, fields: seq<string>)
    requires forall f :: f in fields ==> Get(rec, f) == Null
    ensures NegativeAmountErrors(rec, fields) == []
    decreases |fields|
  {
    if fields != [] {
      NoNegativeAmounts(rec, fields[..|fields| - 1]);
    }
  }

  /** A record with nothing filled in draws no tax-ID, line-item, high-amount or duplicate warning. */
  lemma UnfilledQuietWarnings(rec: Record, duplicates: DuplicateOracle)
    requires Unfilled(rec)
    ensures Admissible(rec)
    ensures TaxIdWarnings(rec) == [] && BusinessWarnings(rec) == []
    ensures HighGrossWarnings(rec) == [] && DuplicateWarnings(rec, duplicates) == []
  {
    UnfilledAdmissible(rec);
    assert "invoice_number" in RequiredFields && "gross_total" in RequiredFields && "net_total" in RequiredFields;
    assert Items(LineItemsValue(rec)) == [];
  }

  /** A record with nothing filled in draws the four missing-field warnings and no other. */
  lemma UnfilledWarnings(rec: Record, duplicates: DuplicateOracle)
    requires Unfilled(rec)
    ensures Admissible(rec)
    ensures ValidationWarnings(rec, duplicates) == [DueDateMissing, SellerTaxIdMissing, BuyerTaxIdMissing, NoLineItems]
  {
    UnfilledQuietWarnings(rec, duplicates);
    var missing := MissingFieldWarnings(rec);
    assert missing == [DueDateMissing, SellerTaxIdMissing, BuyerTaxIdMissing, NoLineItems];
    assert AnomalyWarnings(rec) == HighGrossWarnings(rec) + missing;
    WarningsFrom(TaxIdWarnings(rec), BusinessWarnings(rec), HighGrossWarnings(rec), missing, DuplicateWarnings(rec, duplicates));
  }

  /**
   * The empty invoice is validated without raising and is invalid: its
   * errors are exactly the missing required fields, all but the currency;
   * it is reported under its source file, and it draws the four
   * missing-field warnings.
   */
  lemma EmptyInvoiceReport(filename: string, today: ValidDate, duplicates: DuplicateOracle)
    ensures Admissible(EmptyInvoice(filename))
    ensures Validation(EmptyInvoice(filename), today, duplicates).invoiceId == UnknownFrom(Str(filename))
    ensures !Validation(EmptyInvoice(filename), today, duplicates).isValid
    ensures forall e :: e in Validation(EmptyInvoice(filename), today, duplicates).errors <==>
      e.MissingRequiredField? && e.field in RequiredFields && e.field != "currency"
    ensures Validation(EmptyInvoice(filename), today, duplicates).warnings == [DueDateMissing, SellerTaxIdMissing, BuyerTaxIdMissing, NoLineItems]
  {
    EmptyInvoiceFields(filename);
    assert Unfilled(EmptyInvoice(filename));
    UnfilledReport(EmptyInvoice(filename), today, duplicates);
  }

  // ------------------------------------------------------- the regex fallback

  /** Filling a date changes only its key. */
  lemma WithDatesGet(rec: Record, readings: seq<Option<string>>, n: nat, k: string)
    requires n <= |readings| && n <= 2
    ensures Get(WithDates(rec, readings, n), k) ==
      if k == "invoice_date" && n >= 1 && readings[0].Some? then Str(readings[0].value)
      else if k == "due_date" && n == 2 && readings[1].Some? then Str(readings[1].value)
      else Get(rec, k)
    ensures k in rec ==> k in WithDates(rec, readings, n)
  {
  }

  lemma WithNumberGet(rec: Record, number: Option<string>, k: string)
    ensures Get(WithNumber(rec, number), k) == if k == "invoice_number" && number.Some? then Str(number.value) else Get(rec, k)
    ensures k in rec ==> k in WithNumber(rec, number)
  {
  }

  lemma WithCurrencyGet(rec: Record, currency: Currency?, k: string)
    ensures Get(WithCurrency(rec, currency), k) == if k == "currency" && currency.Some? then Str(currency.value.Code()) else Get(rec, k)
    ensures k in rec ==> k in WithCurrency(rec, currency)
  {
  }

  lemma WithCompaniesGet(rec: Record, companies: seq<string>, k: string)
    ensures Get(WithCompanies(rec, companies), k) ==
      if k == "seller_name" && |companies| >= 1 then Str(companies[0])
      else if k == "buyer_name" && |companies| >= 1 then (if |companies| >= 2 then Str(companies[1]) else Null)
      else Get(rec, k)
    ensures k in rec ==> k in WithCompanies(rec, companies)
  {
  }

  lemma WithRolesGet(rec: Record, roles: Roles, k: string)
    ensures Get(WithRoles(rec, roles), k) ==
      if k == "gross_total" && roles.gross.Some? then Num(roles.gross.value)
      else if k == "net_total" && roles.net.Some? then Num(roles.net.value)
      else if k == "tax_amount" && roles.tax.Some? then Num(roles.tax.value)
      else Get(rec, k)
    ensures k in rec ==> k in WithRoles(rec, roles)
  {
  }

  /** A field of the extraction, through every stage that can fill one. */
  lemma ThroughStages(text: string, found: Found, k: string)
    ensures
      var numbered := WithNumber(EmptyInvoice(""), found.invoiceNumber);
      var dates := found.FirstTwoDates();
      var dated := WithDates(numbered, DateReadings(dates), |dates|);
      var priced := WithCurrency(dated, DetectCurrency(text));
      var named := WithCompanies(priced, Companies(found.companies));
      && Get(RegexExtraction(text, found), k) == Get(WithRoles(named, AmountRoles(found.amounts)), k)
      && Get(named, k) == Get(WithCompanies(priced, Companies(found.companies)), k)
  {
  }

  /** What the empty invoice holds under each key. */
  function Default(k: string): Value {
    if k == "currency" then Str("USD")
    else if k == "line_items" then List([])
    else if k == "source_file" then Str("")
    else Null
  }

  lemma EmptyInvoiceGet(k: string)
    ensures Get(EmptyInvoice(""), k) == Default(k)
    ensures "line_items" in EmptyInvoice("") && "source_file" in EmptyInvoice("")
  {
  }

  /**
   * What each step of the fallback found, in the form it writes it into the
   * invoice. This is not a second extraction: it names the values
   * `RegexExtraction` computes so that the proofs below can speak of them
   * without unfolding its chain of record updates, which is what keeps them
   * within the verifier's budget.
   */
  datatype Filled = Filled(
    number: Option<string>,
    invoiceDate: Option<string>,
    dueDate: Option<string>,
    currency: Currency?,
    companies: seq<string>,
    roles: Roles)

  /**
   * The steps' findings for a text and what the patterns found in it; the
   * same calls `RegexExtraction` makes, gathered in one value for the proofs.
   */
  function FilledFrom(text: string, found: Found): Filled {
    var dates := found.FirstTwoDates();
    var readings := DateReadings(dates);
    Filled(
      found.invoiceNumber,
      if |dates| >= 1 then readings[0] else None,
      if |dates| == 2 then readings[1] else None,
      DetectCurrency(text),
      Companies(found.companies),
      AmountRoles(found.amounts))
  }

  /**
   * A field-by-field account of the fallback's invoice: each key holds what
   * the last step that writes it wrote, or else the empty invoice's value.
   * `Extraction` proves `RegexExtraction` agrees with it at every key; it
   * exists only so that the lemmas about single fields need not re-run the
   * whole chain of updates.
   */
  function FieldOf(p: Filled, k: string): Value {
    if k == "gross_total" && p.roles.gross.Some? then Num(p.roles.gross.value)
    else if k == "net_total" && p.roles.net.Some? then Num(p.roles.net.value)
    else if k == "tax_amount" && p.roles.tax.Some? then Num(p.roles.tax.value)
    else if k == "seller_name" && |p.companies| >= 1 then Str(p.companies[0])
    else if k == "buyer_name" && |p.companies| >= 1 then (if |p.companies| >= 2 then Str(p.companies[1]) else Null)
    else if k == "currency" && p.currency.Some? then Str(p.currency.value.Code())
    else if k == "invoice_date" && p.invoiceDate.Some? then Str(p.invoiceDate.value)
    else if k == "due_date" && p.dueDate.Some? then Str(p.dueDate.value)
    else if k == "invoice_number" && p.number.Some? then Str(p.number.value)
    else Default(k)
  }

  /** The record holds, key by key, what the steps found. */
  ghost predicate FieldByField(rec: Record, p: Filled) {
    && "line_items" in rec && "source_file" in rec
    && forall k :: Get(rec, k) == FieldOf(p, k)
  }

  /** An optional text as a field: `None` when absent. */
  function TextField(t: Option<string>): Value {
    match t
    case Some(s) => Str(s)
    case None => Null
  }

  /** An optional amount as a field: `None` when absent. */
  function AmountField(x: Option<real>): Value {
    match x
    case Some(r) => Num(r)
    case None => Null
  }

  /**
   * The fields the validator reads, as the steps' findings fill them: the
   * account above read at those keys only, so that the validation lemmas
   * work from eleven equations rather than the whole record (a proof-cost
   * device, derived from `FieldByField` by `FieldsHold`).
   */
  predicate Holds(rec: Record, p: Filled) {
    && Get(rec, "invoice_number") == TextField(p.number)
    && Get(rec, "invoice_date") == TextField(p.invoiceDate)
    && Get(rec, "due_date") == TextField(p.dueDate)
    && Get(rec, "seller_name") == (if |p.companies| >= 1 then Str(p.companies[0]) else Null)
    && Get(rec, "buyer_name") == (if |p.companies| >= 2 then Str(p.companies[1]) else Null)
    && Get(rec, "seller_tax_id") == Null && Get(rec, "buyer_tax_id") == Null
    && Get(rec, "currency") == Str(if p.currency.Some? then p.currency.value.Code() else "USD")
    && Get(rec, "gross_total") == AmountField(p.roles.gross)
    && Get(rec, "net_total") == AmountField(p.roles.net)
    && Get(rec, "tax_amount") == AmountField(p.roles.tax)
    && "line_items" in rec && Get(rec, "line_items") == List([])
    && "source_file" in rec && rec["source_file"] == Str("")
  }

  /** The field-by-field account, read at the keys the validator looks at. */
  lemma FieldsHold(rec: Record, p: Filled)
    requires FieldByField(rec, p)
    ensures Holds(rec, p)
  {
    NumberAndDatesHold(rec, p);
    DefaultsHold(rec, p);
    PartiesHold(rec, p);
    CurrencyHolds(rec, p);
    AmountsHold(rec, p);
  }

  lemma NumberAndDatesHold(rec: Record, p: Filled)
    requires FieldByField(rec, p)
    ensures Get(rec, "invoice_number") == TextField(p.number)
    ensures Get(rec, "invoice_date") == TextField(p.invoiceDate)
    ensures Get(rec, "due_date") == TextField(p.dueDate)
  {
    assert Get(rec, "invoice_number") == FieldOf(p, "invoice_number");
    assert Get(rec, "invoice_date") == FieldOf(p, "invoice_date");
    assert Get(rec, "due_date") == FieldOf(p, "due_date");
  }

  lemma DefaultsHold(rec: Record, p: Filled)
    requires FieldByField(rec, p)
    ensures Get(rec, "line_items") == List([]) && rec["source_file"] == Str("")
    ensures Get(rec, "seller_tax_id") == Null && Get(rec, "buyer_tax_id") == Null
  {
    assert Get(rec, "line_items") == FieldOf(p, "line_items");
    assert Get(rec, "source_file") == FieldOf(p, "source_file");
    assert Get(rec, "seller_tax_id") == FieldOf(p, "seller_tax_id");
    assert Get(rec, "buyer_tax_id") == FieldOf(p, "buyer_tax_id");
  }

  lemma PartiesHold(rec: Record, p: Filled)
    requires FieldByField(rec, p)
    ensures Get(rec, "seller_name") == (if |p.companies| >= 1 then Str(p.companies[0]) else Null)
    ensures Get(rec, "buyer_name") == (if |p.companies| >= 2 then Str(p.companies[1]) else Null)
  {
    assert Get(rec, "seller_name") == FieldOf(p, "seller_name");
    assert Get(rec, "buyer_name") == FieldOf(p, "buyer_name");
  }

  lemma CurrencyHolds(rec: Record, p: Filled)
    requires FieldByField(rec, p)
    ensures Get(rec, "currency") == Str(if p.currency.Some? then p.currency.value.Code() else "USD")
  {
    assert Get(rec, "currency") == FieldOf(p, "currency");
  }

  lemma AmountsHold(rec: Record, p: Filled)
    requires FieldByField(rec, p)
    ensures Get(rec, "gross_total") == AmountField(p.roles.gross)
    ensures Get(rec, "net_total") == AmountField(p.roles.net)
    ensures Get(rec, "tax_amount") == AmountField(p.roles.tax)
  {
    assert Get(rec, "gross_total") == FieldOf(p, "gross_total");
    assert Get(rec, "net_total") == FieldOf(p, "net_total");
    assert Get(rec, "tax_amount") == FieldOf(p, "tax_amount");
  }

  /** Each field of the extraction, by the last stage that fills it. */
  lemma ExtractedGet(text: string, found: Found, k: string)
    ensures Get(RegexExtraction(text, found), k) == FieldOf(FilledFrom(text, found), k)
    ensures k in EmptyInvoice("") ==> k in RegexExtraction(text, found)
  {
    var numbered := WithNumber(EmptyInvoice(""), found.invoiceNumber);
    var dates := found.FirstTwoDates();
    var dated := WithDates(numbered, DateReadings(dates), |dates|);
    var priced := WithCurrency(dated, DetectCurrency(text));
    var named := WithCompanies(priced, Companies(found.companies));
    ThroughStages(text, found, k);
    EmptyInvoiceGet(k);
    WithRolesGet(named, AmountRoles(found.amounts), k);
    WithCompaniesGet(priced, Companies(found.companies), k);
    WithCurrencyGet(dated, DetectCurrency(text), k);
    WithDatesGet(numbered, DateReadings(dates), |dates|, k);
    WithNumberGet(EmptyInvoice(""), found.invoiceNumber, k);
  }

  /** The step-by-step extraction agrees with the field-by-field account on every key. */
  lemma Extraction(text: string, found: Found)
    ensures FieldByField(RegexExtraction(text, found), FilledFrom(text, found))
    ensures Holds(RegexExtraction(text, found), FilledFrom(text, found))
  {
    forall k
      ensures Get(RegexExtraction(text, found), k) == FieldOf(FilledFrom(text, found), k)
    {
      ExtractedGet(text, found, k);
    }
    EmptyInvoiceGet("line_items");
    ExtractedGet(text, found, "line_items");
    ExtractedGet(text, found, "source_file");
    FieldsHold(RegexExtraction(text, found), FilledFrom(text, found));
  }

  // ------------------------------------------------------------ what was found

  /**
   * The invoice date is the reading of the first date found, and the due
   * date that of the second; a first date that does not parse leaves the
   * invoice date empty rather than passing the role on.
   */
  lemma FilledDates(text: string, found: Found)
    ensures FilledFrom(text, found).invoiceDate ==
      if |found.DatesFound()| >= 1 then ParsedDate(found.DatesFound()[0]) else None
    ensures FilledFrom(text, found).dueDate ==
      if |found.DatesFound()| >= 2 then ParsedDate(found.DatesFound()[1]) else None
  {
    var dates := found.FirstTwoDates();
    if |dates| >= 1 {
      assert dates[0] == found.DatesFound()[0];
      assert DateReadings(dates)[0] == ParsedDate(dates[0]);
    }
    if |dates| == 2 {
      assert dates[1] == found.DatesFound()[1];
      assert DateReadings(dates)[1] == ParsedDate(dates[1]);
    }
  }

  /** Text a date reading wrote: ISO text that `date.fromisoformat` reads back. */
  predicate IsoText?(t: Option<string>) {
    t.Some? ==> FromIsoFormat(t.value).Some? && IsoFormat(FromIsoFormat(t.value).value) == t.value
  }

  /** Both dates the fallback fills are ISO text. */
  lemma FilledDatesIso(text: string, found: Found)
    ensures IsoText?(FilledFrom(text, found).invoiceDate) && IsoText?(FilledFrom(text, found).dueDate)
  {
    FilledDates(text, found);
    if |found.DatesFound()| >= 1 {
      ParsedDateIsIso(found.DatesFound()[0]);
    }
    if |found.DatesFound()| >= 2 {
      ParsedDateIsIso(found.DatesFound()[1]);
    }
  }

  /** Each currency code is upper case and one the rule engine accepts. */
  lemma CodeAccepted(c: Currency)
    ensures Upper(c.Code()) == c.Code() && c.Code() in AllowedCurrencies
  {
    match c
    case EUR => assert Upper("EUR") == "EUR";
    case USD => assert Upper("USD") == "USD";
    case INR => assert Upper("INR") == "INR";
    case GBP => assert Upper("GBP") == "GBP";
  }

  // ------------------------------------------------- what the invoice holds

  /**
   * The currency is the detected one, USD when none is detected; it is
   * always the code of a `CurrencyEnum` member, so the currency check passes.
   */
  lemma CurrencyHeld(rec: Record, p: Filled, text: string)
    requires Holds(rec, p) && p.currency == DetectCurrency(text)
    ensures Get(rec, "currency") == Str(if DetectCurrency(text).Some? then DetectCurrency(text).value.Code() else "USD")
    ensures CurrencyFromCode(Get(rec, "currency").s).Some?
    ensures CurrencyErrors(rec) == []
  {
    var c := if p.currency.Some? then p.currency.value else USD;
    assert Get(rec, "currency") == Str(c.Code());
    CodeAccepted(c);
    CurrencyCodeRoundTrip(c, c.Code());
  }

  /**
   * The seller is the first company kept and the buyer the second: both
   * filled exactly when that many companies were kept, and never the same
   * name when the companies are distinct.
   */
  lemma PartiesHeld(rec: Record, p: Filled)
    requires Holds(rec, p)
    requires forall i, j :: 0 <= i < j < |p.companies| ==> p.companies[i] != p.companies[j]
    ensures Get(rec, "seller_name").Str? <==> |p.companies| >= 1
    ensures Get(rec, "buyer_name").Str? <==> |p.companies| >= 2
    ensures Get(rec, "seller_name").Str? ==> Get(rec, "seller_name").s in p.companies
    ensures Get(rec, "buyer_name").Str? ==> Get(rec, "buyer_name").s in p.companies && Get(rec, "buyer_name") != Get(rec, "seller_name")
  {
  }

  /** The fallback's roles rank the amounts it read. */
  lemma AmountRolesRanked(amounts: seq<string>)
    ensures Ranked(AmountRoles(amounts), ParsedAmounts(amounts))
  {
    RolesOfAmounts(ParsedAmounts(amounts));
  }

  /**
   * The gross total is the largest reading, the net total the next and the
   * tax the third, so gross >= net >= tax; a total is filled exactly when
   * that many amounts were read, and is otherwise empty.
   */
  lemma AmountsHeld(rec: Record, p: Filled, values: seq<real>)
    requires Holds(rec, p) && Ranked(p.roles, values)
    ensures Get(rec, "gross_total").Num? <==> |values| >= 1
    ensures Get(rec, "net_total").Num? <==> |values| >= 2
    ensures Get(rec, "tax_amount").Num? <==> |values| >= 3
    ensures Get(rec, "gross_total").Num? ==> IsMaxOf(Get(rec, "gross_total").r, multiset(values))
    ensures Get(rec, "net_total").Num? ==>
      IsMaxOf(Get(rec, "net_total").r, multiset(values) - multiset{Get(rec, "gross_total").r})
    ensures Get(rec, "tax_amount").Num? ==>
      IsMaxOf(Get(rec, "tax_amount").r, multiset(values) - multiset{Get(rec, "gross_total").r, Get(rec, "net_total").r})
    ensures Get(rec, "net_total").Num? ==>
      Get(rec, "net_total").r in values && Get(rec, "net_total").r <= Get(rec, "gross_total").r
    ensures Get(rec, "tax_amount").Num? ==>
      Get(rec, "tax_amount").r in values && Get(rec, "tax_amount").r <= Get(rec, "net_total").r
    ensures forall k :: k in AmountFields ==> Get(rec, k) == Null || Get(rec, k).Num?
  {
    RankedOrder(p.roles, values);
  }

  /** The date a date field's ISO text stands for. */
  function DateOf(t: Option<string>): ValidDate
    requires t.Some? && IsoText?(t)
  {
    FromIsoFormat(t.value).value
  }

  /** The fallback's invoice is one `validate` handles without raising. */
  lemma HeldAdmissible(rec: Record, p: Filled)
    requires Holds(rec, p)
    ensures Admissible(rec)
  {
    assert Items(LineItemsValue(rec)) == [];
  }

  /**
   * The only format errors the fallback's invoice can draw are a future
   * invoice date and a due date before the invoice date: its dates are ISO
   * text and its currency is always accepted.
   */
  lemma HeldFormatErrors(rec: Record, p: Filled, today: ValidDate)
    requires Holds(rec, p) && IsoText?(p.invoiceDate) && IsoText?(p.dueDate)
    ensures FormatErrors(rec, today) ==
      (if p.invoiceDate.Some? && Before(today, DateOf(p.invoiceDate)) then [InvoiceDateInFuture] else [])
      + (if p.invoiceDate.Some? && p.dueDate.Some? && Before(DateOf(p.dueDate), DateOf(p.invoiceDate)) then [DueBeforeInvoiceDate] else [])
  {
    var c := if p.currency.Some? then p.currency.value else USD;
    CodeAccepted(c);
    assert CurrencyErrors(rec) == [];
    if p.invoiceDate.Some? {
      assert Denotes(Get(rec, "invoice_date"), DateOf(p.invoiceDate));
      InvoiceDateRule(rec, today, DateOf(p.invoiceDate));
      if p.dueDate.Some? {
        assert Denotes(Get(rec, "due_date"), DateOf(p.dueDate));
        DueDateRule(rec, DateOf(p.dueDate), DateOf(p.invoiceDate));
      }
    }
  }

  /** Neither tax ID nor any line item of the fallback's invoice draws a warning. */
  lemma HeldQuietRules(rec: Record, p: Filled)
    requires Holds(rec, p)
    ensures Admissible(rec)
    ensures TaxIdWarnings(rec) == [] && BusinessWarnings(rec) == []
  {
    HeldAdmissible(rec, p);
    assert Items(LineItemsValue(rec)) == [];
  }

  /** The warnings of a record whose tax IDs and line items draw none: the anomalies and the duplicate. */
  lemma QuietWarnings(rec: Record, duplicates: DuplicateOracle, noDue: bool)
    requires Admissible(rec) && TaxIdWarnings(rec) == [] && BusinessWarnings(rec) == []
    requires MissingFieldWarnings(rec) == (if noDue then [DueDateMissing] else []) + [SellerTaxIdMissing, BuyerTaxIdMissing, NoLineItems]
    ensures SellerTaxIdMissing in ValidationWarnings(rec, duplicates)
    ensures BuyerTaxIdMissing in ValidationWarnings(rec, duplicates)
    ensures NoLineItems in ValidationWarnings(rec, duplicates)
    ensures DueDateMissing in ValidationWarnings(rec, duplicates) <==> noDue
  {
    var high, missing, duplicate := HighGrossWarnings(rec), MissingFieldWarnings(rec), DuplicateWarnings(rec, duplicates);
    assert AnomalyWarnings(rec) == high + missing;
    WarningsFrom(TaxIdWarnings(rec), BusinessWarnings(rec), high, missing, duplicate);
    assert DueDateMissing !in high && DueDateMissing !in duplicate;
  }

  /** A warning of `validate` on quiet tax IDs and line items is an anomaly or a duplicate. */
  lemma WarningsFrom(taxIds: seq<Finding>, business: seq<Finding>, high: seq<Finding>, missing: seq<Finding>, duplicate: seq<Finding>)
    requires taxIds == [] && business == []
    ensures forall w :: w in taxIds + business + (high + missing) + duplicate <==> w in high || w in missing || w in duplicate
    ensures high == [] && duplicate == [] ==> taxIds + business + (high + missing) + duplicate == missing
  {
  }

  /** ISO text is never empty, so a date field holding it is truthy. */
  lemma IsoTextFilled(t: Option<string>)
    requires t.Some? && IsoText?(t)
    ensures |t.value| == 10
  {
    assert |IsoFormat(FromIsoFormat(t.value).value)| == 10;
  }

  /** The expected-field warnings of the fallback's invoice. */
  lemma HeldMissingFields(rec: Record, p: Filled)
    requires Holds(rec, p) && IsoText?(p.dueDate)
    ensures MissingFieldWarnings(rec) ==
      (if p.dueDate.None? then [DueDateMissing] else []) + [SellerTaxIdMissing, BuyerTaxIdMissing, NoLineItems]
  {
    if p.dueDate.Some? {
      IsoTextFilled(p.dueDate);
    }
  }

  /**
   * Both tax IDs and the line items are always reported missing, and the
   * due date exactly when no second date was read.
   */
  lemma HeldWarnings(rec: Record, p: Filled, duplicates: DuplicateOracle)
    requires Holds(rec, p) && IsoText?(p.dueDate)
    ensures Admissible(rec)
    ensures SellerTaxIdMissing in ValidationWarnings(rec, duplicates)
    ensures BuyerTaxIdMissing in ValidationWarnings(rec, duplicates)
    ensures NoLineItems in ValidationWarnings(rec, duplicates)
    ensures DueDateMissing in ValidationWarnings(rec, duplicates) <==> p.dueDate.None?
  {
    HeldQuietRules(rec, p);
    HeldMissingFields(rec, p);
    QuietWarnings(rec, duplicates, p.dueDate.None?);
    assert DueDateMissing !in DuplicateWarnings(rec, duplicates);
  }

  /**
   * Without an invoice number the fallback's invoice is invalid and is
   * reported under the empty source file it was built with.
   */
  lemma HeldWithoutNumber(rec: Record, p: Filled, today: ValidDate, duplicates: DuplicateOracle)
    requires Holds(rec, p) && p.number.None?
    ensures Admissible(rec)
    ensures Validation(rec, today, duplicates).invoiceId == UnknownFrom(Str(""))
    ensures MissingRequiredField("invoice_number") in Validation(rec, today, duplicates).errors
    ensures !Validation(rec, today, duplicates).isValid
  {
    HeldAdmissible(rec, p);
    assert "invoice_number" in RequiredFields;
    MissingRequiredFieldInvalidates(rec, today, duplicates, "invoice_number");
  }

  // ------------------------------------------------------- the whole fallback

  /**
   * The invoice date is the first date found, and the due date the second,
   * each only when `_parse_date` reads it; a first date that does not parse
   * leaves the invoice date empty rather than passing the role on.
   */
  lemma ExtractedDates(text: string, found: Found)
    ensures Get(RegexExtraction(text, found), "invoice_date") ==
      TextField(if |found.DatesFound()| >= 1 then ParsedDate(found.DatesFound()[0]) else None)
    ensures Get(RegexExtraction(text, found), "due_date") ==
      TextField(if |found.DatesFound()| >= 2 then ParsedDate(found.DatesFound()[1]) else None)
  {
    Extraction(text, found);
    FilledDates(text, found);
  }

  /** The fallback's currency is the detected one, or USD, and always passes the currency check. */
  lemma ExtractedCurrency(text: string, found: Found)
    ensures Get(RegexExtraction(text, found), "currency") ==
      Str(if DetectCurrency(text).Some? then DetectCurrency(text).value.Code() else "USD")
    ensures CurrencyErrors(RegexExtraction(text, found)) == []
  {
    Extraction(text, found);
    CurrencyHeld(RegexExtraction(text, found), FilledFrom(text, found), text);
  }

  /**
   * On company matches without surrounding blanks, the fallback's seller
   * and buyer are distinct matches, filled when that many companies were
   * kept; it never fills a tax ID.
   */
  lemma ExtractedParties(text: string, found: Found)
    requires forall i :: 0 <= i < |found.companies| ==> Strip(found.companies[i]) == found.companies[i]
    ensures Get(RegexExtraction(text, found), "seller_name").Str? <==> |Companies(found.companies)| >= 1
    ensures Get(RegexExtraction(text, found), "buyer_name").Str? <==> |Companies(found.companies)| >= 2
    ensures Get(RegexExtraction(text, found), "seller_name").Str? ==> Get(RegexExtraction(text, found), "seller_name").s in found.companies
    ensures Get(RegexExtraction(text, found), "buyer_name").Str? ==>
      && Get(RegexExtraction(text, found), "buyer_name").s in found.companies
      && Get(RegexExtraction(text, found), "buyer_name") != Get(RegexExtraction(text, found), "seller_name")
    ensures Get(RegexExtraction(text, found), "seller_tax_id") == Null && Get(RegexExtraction(text, found), "buyer_tax_id") == Null
  {
    Extraction(text, found);
    CompaniesDistinct(found.companies);
    PartiesHeld(RegexExtraction(text, found), FilledFrom(text, found));
  }

  /**
   * The fallback's amounts: the gross total is the largest amount read, the
   * net total the next and the tax the third.
   */
  lemma ExtractedAmounts(text: string, found: Found)
    ensures Get(RegexExtraction(text, found), "gross_total").Num? <==> |ParsedAmounts(found.amounts)| >= 1
    ensures Get(RegexExtraction(text, found), "net_total").Num? <==> |ParsedAmounts(found.amounts)| >= 2
    ensures Get(RegexExtraction(text, found), "tax_amount").Num? <==> |ParsedAmounts(found.amounts)| >= 3
    ensures Get(RegexExtraction(text, found), "gross_total").Num? ==>
      IsMaxOf(Get(RegexExtraction(text, found), "gross_total").r, multiset(ParsedAmounts(found.amounts)))
    ensures Get(RegexExtraction(text, found), "net_total").Num? ==>
      IsMaxOf(Get(RegexExtraction(text, found), "net_total").r,
        multiset(ParsedAmounts(found.amounts)) - multiset{Get(RegexExtraction(text, found), "gross_total").r})
    ensures Get(RegexExtraction(text, found), "tax_amount").Num? ==>
      IsMaxOf(Get(RegexExtraction(text, found), "tax_amount").r,
        multiset(ParsedAmounts(found.amounts))
          - multiset{Get(RegexExtraction(text, found), "gross_total").r, Get(RegexExtraction(text, found), "net_total").r})
    ensures Get(RegexExtraction(text, found), "net_total").Num? ==>
      Get(RegexExtraction(text, found), "net_total").r <= Get(RegexExtraction(text, found), "gross_total").r
    ensures Get(RegexExtraction(text, found), "tax_amount").Num? ==>
      Get(RegexExtraction(text, found), "tax_amount").r <= Get(RegexExtraction(text, found), "net_total").r
  {
    Extraction(text, found);
    AmountRolesRanked(found.amounts);
    AmountsHeld(RegexExtraction(text, found), FilledFrom(text, found), ParsedAmounts(found.amounts));
  }

  /**
   * A record holding what the steps found is validated without raising; its
   * only possible format errors are a future invoice date and a due date
   * before the invoice date, and it always draws the missing tax-ID and
   * line-item warnings.
   */
  lemma HeldChecks(rec: Record, p: Filled, today: ValidDate, duplicates: DuplicateOracle)
    requires Holds(rec, p) && IsoText?(p.invoiceDate) && IsoText?(p.dueDate)
    ensures Admissible(rec)
    ensures forall f :: f in FormatErrors(rec, today) ==> f == InvoiceDateInFuture || f == DueBeforeInvoiceDate
    ensures SellerTaxIdMissing in ValidationWarnings(rec, duplicates)
    ensures BuyerTaxIdMissing in ValidationWarnings(rec, duplicates)
    ensures NoLineItems in ValidationWarnings(rec, duplicates)
  {
    HeldAdmissible(rec, p);
    HeldFormatErrors(rec, p, today);
    OnlyDateErrors(FormatErrors(rec, today),
      p.invoiceDate.Some? && Before(today, DateOf(p.invoiceDate)),
      p.invoiceDate.Some? && p.dueDate.Some? && Before(DateOf(p.dueDate), DateOf(p.invoiceDate)));
    HeldWarnings(rec, p, duplicates);
  }

  /** Errors made of at most a future invoice date and a due date before it hold nothing else. */
  lemma OnlyDateErrors(errors: seq<Finding>, future: bool, dueFirst: bool)
    requires errors == (if future then [InvoiceDateInFuture] else []) + (if dueFirst then [DueBeforeInvoiceDate] else [])
    ensures forall f :: f in errors ==> f == InvoiceDateInFuture || f == DueBeforeInvoiceDate
  {
  }

  /**
   * Validating the fallback's invoice never raises; its only possible format
   * errors are a future invoice date and a due date before the invoice date;
   * it always draws the missing tax-ID and line-item warnings.
   */
  lemma ExtractionChecks(text: string, found: Found, today: ValidDate, duplicates: DuplicateOracle)
    ensures Admissible(RegexExtraction(text, found))
    ensures forall f :: f in FormatErrors(RegexExtraction(text, found), today) ==> f == InvoiceDateInFuture || f == DueBeforeInvoiceDate
    ensures SellerTaxIdMissing in ValidationWarnings(RegexExtraction(text, found), duplicates)
    ensures BuyerTaxIdMissing in ValidationWarnings(RegexExtraction(text, found), duplicates)
    ensures NoLineItems in ValidationWarnings(RegexExtraction(text, found), duplicates)
  {
    Extraction(text, found);
    FilledDatesIso(text, found);
    HeldChecks(RegexExtraction(text, found), FilledFrom(text, found), today, duplicates);
  }

  /**
   * When no number pattern matched, the fallback's invoice is invalid and
   * is reported under the empty file name it was built with.
   */
  lemma ExtractionWithoutNumber(text: string, found: Found, today: ValidDate, duplicates: DuplicateOracle)
    requires found.invoiceNumber.None?
    ensures Admissible(RegexExtraction(text, found))
    ensures !Validation(RegexExtraction(text, found), today, duplicates).isValid
    ensures MissingRequiredField("invoice_number") in Validation(RegexExtraction(text, found), today, duplicates).errors
    ensures Validation(RegexExtraction(text, found), today, duplicates).invoiceId == UnknownFrom(Str(""))
  {
    Extraction(text, found);
    HeldWithoutNumber(RegexExtraction(text, found), FilledFrom(text, found), today, duplicates);
  }
}
