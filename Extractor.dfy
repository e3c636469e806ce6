/**
 * The regex fallback of `InvoiceExtractor` (invoice_qc/extractor.py): the
 * empty invoice it starts from, and how `_extract_with_regex` fills it from
 * what its patterns found: the first two dates, the currency markers of the
 * text, the company names and the amounts, largest first. The pattern
 * searches themselves are the inputs of the model (`Found`).
 */
module Extractor {
  import opened Common
  import opened Text
  import opened Decimals
  import opened Records
  import opened Models
  import opened Amounts
  import opened DateParsing

  // ------------------------------------------------------------ empty invoice

  /**
   * `_empty_invoice(filename)`: every field of an invoice, `None` but the
   * currency (USD), the line items (none) and the source file.
   */
  function EmptyInvoice(filename: string): (r: Record)
    ensures "source_file" in r && r["source_file"] == Str(filename)
    ensures forall k :: k in r && Truthy(r[k]) ==> k == "currency" || k == "source_file"
  {
    map[
      "invoice_number" := Null, "invoice_date" := Null, "due_date" := Null,
      "seller_name" := Null, "seller_address" := Null, "seller_tax_id" := Null,
      "buyer_name" := Null, "buyer_address" := Null, "buyer_tax_id" := Null,
      "currency" := Str("USD"), "net_total" := Null, "tax_rate" := Null,
      "tax_amount" := Null, "gross_total" := Null, "line_items" := List([]),
      "source_file" := Str(filename)]
  }

  // ---------------------------------------------------------- what was found

  /**
   * What the patterns of `_extract_with_regex` found in the text: the invoice
   * number of the first pattern that matched, the dates of each date
   * pattern (`DD.MM.YYYY`, `DD/MM/YYYY`, `YYYY-MM-DD`) in text order, the
   * legal-entity names of all indicators, and the numerals ending in two
   * digits.
   */
  datatype Found = Found(
    invoiceNumber: Option<string>,
    dotted: seq<string>,
    slashed: seq<string>,
    iso: seq<string>,
    companies: seq<string>,
    amounts: seq<string>)
  {
    /** `dates_found`: the matches of the three date patterns, pattern by pattern. */
    function DatesFound(): seq<string> {
      dotted + slashed + iso
    }

    /** `dates_found[:2]`. */
    function FirstTwoDates(): (dates: seq<string>)
      ensures |dates| <= 2 && dates <= DatesFound()
      ensures |dates| == if |DatesFound()| < 2 then |DatesFound()| else 2
    {
      var all := DatesFound();
      if |all| < 2 then all else all[..2]
    }
  }

  // ----------------------------------------------------------------- currency

  const Euro: char := '\U{20AC}'
  const Pound: char := '\U{00A3}'
  const Rupee: char := '\U{20B9}'

  /**
   * The currency detection: the first currency whose symbol or code occurs
   * in the text, tried in the order EUR, USD, GBP, INR (`Rs` also marks
   * rupees); `None` leaves the default in place.
   */
  function DetectCurrency(text: string): (r: Currency?)
    ensures r.Some? ==> Marks(text, r.value)
  {
    if Euro in text || Contains(text, "EUR") then Some(EUR)
    else if '$' in text || Contains(text, "USD") then Some(USD)
    else if Pound in text || Contains(text, "GBP") then Some(GBP)
    else if Rupee in text || Contains(text, "INR") || Contains(text, "Rs") then Some(INR)
    else None
  }

  type Currency? = Option<Currency>

  /** The currencies in the order the detection tries them. */
  const DetectionOrder: seq<Currency> := [EUR, USD, GBP, INR]

  /** The text carries a sign of `c`: its symbol or its code, or `Rs` for rupees. */
  predicate Marks(text: string, c: Currency) {
    match c
    case EUR => Euro in text || Contains(text, c.Code())
    case USD => '$' in text || Contains(text, c.Code())
    case GBP => Pound in text || Contains(text, c.Code())
    case INR => Rupee in text || Contains(text, c.Code()) || Contains(text, "Rs")
  }

  /**
   * The detected currency is the first in the detection order that the text
   * marks; no currency is detected exactly when the text marks none.
   */
  lemma DetectCurrencyFirstMarked(text: string)
    ensures DetectCurrency(text).None? <==> forall i :: 0 <= i < |DetectionOrder| ==> !Marks(text, DetectionOrder[i])
    ensures forall i :: 0 <= i < |DetectionOrder| ==>
      (DetectCurrency(text) == Some(DetectionOrder[i]) <==>
        Marks(text, DetectionOrder[i]) && forall j :: 0 <= j < i ==> !Marks(text, DetectionOrder[j]))
  {
    assert DetectionOrder[0] == EUR && DetectionOrder[1] == USD && DetectionOrder[2] == GBP && DetectionOrder[3] == INR;
    assert Marks(text, EUR) == (Euro in text || Contains(text, "EUR"));
    assert Marks(text, USD) == ('$' in text || Contains(text, "USD"));
    assert Marks(text, GBP) == (Pound in text || Contains(text, "GBP"));
    assert Marks(text, INR) == (Rupee in text || Contains(text, "INR") || Contains(text, "Rs"));
  }

  /** A currency code written anywhere in the text is detected unless one tried earlier is marked too. */
  lemma CodeDetected(a: string, c: Currency, b: string)
    requires forall j :: 0 <= j < |DetectionOrder| && DetectionOrder[j] != c ==> !Marks(a + c.Code() + b, DetectionOrder[j])
    ensures DetectCurrency(a + c.Code() + b) == Some(c)
  {
    ContainsInfix(a, c.Code(), b);
    DetectCurrencyFirstMarked(a + c.Code() + b);
    assert Marks(a + c.Code() + b, c);
  }

  // ---------------------------------------------------------------- companies

  /** `list(dict.fromkeys(xs))`: the first occurrence of each name, in order. */
  function Dedupe(xs: seq<string>): (r: seq<string>)
    ensures forall x :: x in r <==> x in xs
    ensures forall i, j :: 0 <= i < j < |r| ==> r[i] != r[j]
    decreases |xs|
  {
    if xs == [] then []
    else
      var rest, last := Dedupe(xs[..|xs| - 1]), xs[|xs| - 1];
      assert forall x :: x in xs <==> x in xs[..|xs| - 1] || x == last by {
        assert xs == xs[..|xs| - 1] + [last];
      }
      if last in rest then rest else rest + [last]
  }

  /** Every name stripped of surrounding white space. */
  function StripAll(xs: seq<string>): (r: seq<string>)
    ensures |r| == |xs|
  {
    seq(|xs|, i requires 0 <= i < |xs| => Strip(xs[i]))
  }

  /** The names of more than five characters, in order. */
  function LongNames(ys: seq<string>): (r: seq<string>)
    ensures |r| <= |ys|
    ensures forall y :: y in r <==> y in ys && |y| > 5
    decreases |ys|
  {
    if ys == [] then []
    else
      var rest, last := LongNames(ys[..|ys| - 1]), ys[|ys| - 1];
      assert ys == ys[..|ys| - 1] + [last];
      if |last| > 5 then rest + [last] else rest
  }

  /** `[c.strip() for c in xs if len(c.strip()) > 5]`. */
  function Cleaned(xs: seq<string>): seq<string> {
    LongNames(StripAll(xs))
  }

  /** The company names the fallback keeps. */
  function Companies(matches: seq<string>): (r: seq<string>)
    ensures forall c :: c in r ==> |c| > 5
  {
    Cleaned(Dedupe(matches))
  }

  /** The clean-up keeps exactly the stripped names of more than five characters. */
  lemma CleanedMembership(xs: seq<string>)
    ensures forall x :: x in xs && |Strip(x)| > 5 ==> Strip(x) in Cleaned(xs)
    ensures forall c :: c in Cleaned(xs) ==> |c| > 5 && exists i :: 0 <= i < |xs| && c == Strip(xs[i])
  {
    var stripped := StripAll(xs);
    forall x | x in xs
      ensures Strip(x) in stripped
    {
      var i :| 0 <= i < |xs| && xs[i] == x;
      assert stripped[i] == Strip(x);
    }
    forall c | c in Cleaned(xs)
      ensures exists i :: 0 <= i < |xs| && c == Strip(xs[i])
    {
      var i :| 0 <= i < |stripped| && stripped[i] == c;
      assert c == Strip(xs[i]);
    }
  }

  /** Dropping the short names keeps distinct names distinct. */
  lemma {:induction false} LongNamesDistinct(ys: seq<string>)
    requires forall i, j :: 0 <= i < j < |ys| ==> ys[i] != ys[j]
    ensures forall i, j :: 0 <= i < j < |LongNames(ys)| ==> LongNames(ys)[i] != LongNames(ys)[j]
    decreases |ys|
  {
    if ys != [] {
      var init, last := ys[..|ys| - 1], ys[|ys| - 1];
      assert forall i :: 0 <= i < |init| ==> init[i] == ys[i];
      LongNamesDistinct(init);
      assert last !in init by {
        forall i | 0 <= i < |init|
          ensures init[i] != last
        {
          assert init[i] == ys[i];
        }
      }
    }
  }

  /**
   * On names that carry no surrounding blanks (as the company pattern, which
   * starts with a capital and ends with the indicator, finds them) the
   * clean-up only drops the short names, so the companies are distinct and
   * the seller is never also named the buyer.
   */
  lemma CompaniesDistinct(matches: seq<string>)
    requires forall i :: 0 <= i < |matches| ==> Strip(matches[i]) == matches[i]
    ensures forall i, j :: 0 <= i < j < |Companies(matches)| ==> Companies(matches)[i] != Companies(matches)[j]
    ensures forall c :: c in Companies(matches) ==> c in matches && |c| > 5
  {
    var d := Dedupe(matches);
    forall i | 0 <= i < |d|
      ensures Strip(d[i]) == d[i]
    {
      assert d[i] in matches;
    }
    assert StripAll(d) == d;
    LongNamesDistinct(d);
  }

  // -------------------------------------------------------- filling the record

  /** The invoice number, when a pattern matched. */
  function WithNumber(rec: Record, number: Option<string>): Record {
    match number
    case Some(n) => rec["invoice_number" := Str(n)]
    case None => rec
  }

  /** A parsed date fills its key; a date that does not parse leaves the record alone. */
  function WithDate(rec: Record, key: string, parsed: Option<string>): Record {
    match parsed
    case Some(iso) => rec[key := Str(iso)]
    case None => rec
  }

  /** The key the `i`-th of the first two dates fills. */
  function DateKey(i: nat): string {
    if i == 0 then "invoice_date" else "due_date"
  }

  /** `_parse_date` of each date. */
  function DateReadings(dates: seq<string>): (readings: seq<Option<string>>)
    ensures |readings| == |dates|
  {
    seq(|dates|, i requires 0 <= i < |dates| => ParsedDate(dates[i]))
  }

  /**
   * The loop over the first `n` of `dates_found[:2]`, given what
   * `_parse_date` made of each: the first date, when it parses, is the
   * invoice date and the second, when it parses, the due date.
   */
  function WithDates(rec: Record, readings: seq<Option<string>>, n: nat): Record
    requires n <= |readings| && n <= 2
  {
    if n == 0 then rec
    else WithDate(WithDates(rec, readings, n - 1), DateKey(n - 1), readings[n - 1])
  }

  function WithCurrency(rec: Record, currency: Currency?): Record {
    match currency
    case Some(c) => rec["currency" := Str(c.Code())]
    case None => rec
  }

  /** With at least one company, the first is the seller and the second, if any, the buyer. */
  function WithCompanies(rec: Record, companies: seq<string>): Record {
    if companies == [] then rec
    else rec["seller_name" := Str(companies[0])]["buyer_name" := if |companies| >= 2 then Str(companies[1]) else Null]
  }

  /** The amounts given a role, as floats. */
  function WithRoles(rec: Record, roles: Roles): Record {
    var withGross := if roles.gross.Some? then rec["gross_total" := Num(roles.gross.value)] else rec;
    var withNet := if roles.net.Some? then withGross["net_total" := Num(roles.net.value)] else withGross;
    if roles.tax.Some? then withNet["tax_amount" := Num(roles.tax.value)] else withNet
  }

  /** The roles of the amounts found: the largest three readings, largest first. */
  function AmountRoles(amounts: seq<string>): Roles {
    AssignRoles(SortDescending(ParsedAmounts(amounts)))
  }

  /** What `_extract_with_regex` returns for the text and what its patterns found there. */
  function RegexExtraction(text: string, found: Found): Record {
    var numbered := WithNumber(EmptyInvoice(""), found.invoiceNumber);
    var dates := found.FirstTwoDates();
    var dated := WithDates(numbered, DateReadings(dates), |dates|);
    var priced := WithCurrency(dated, DetectCurrency(text));
    WithRoles(WithCompanies(priced, Companies(found.companies)), AmountRoles(found.amounts))
  }

  /**
   * `_extract_with_regex`, step by step: fill the empty invoice with the
   * number, the first two dates, the currency and the companies, then read
   * every amount, sort the readings largest first and hand out the roles.
   */
  method ExtractWithRegex(text: string, found: Found) returns (invoice: Record)
    ensures invoice == RegexExtraction(text, found)
  {
    invoice := EmptyInvoice("");
    invoice := FillNumber(invoice, found.invoiceNumber);
    invoice := FillDates(invoice, found.FirstTwoDates());
    invoice := FillCurrency(invoice, DetectCurrency(text));
    invoice := FillCompanies(invoice, Companies(found.companies));
    var parsedAmounts := ParseAmounts(found.amounts);
    invoice := FillAmounts(invoice, parsedAmounts);
  }

  /** The amount step: when any amount was read, sort the readings largest first and hand out the roles. */
  method FillAmounts(invoice: Record, parsedAmounts: seq<real>) returns (updated: Record)
    ensures updated == WithRoles(invoice, AssignRoles(SortDescending(parsedAmounts)))
  {
    updated := invoice;
    if parsedAmounts != [] {
      var sorted := SortDescending(parsedAmounts);
      updated := FillRoles(updated, sorted);
    }
  }

  /** The number step: the number of the first pattern that matched, if any. */
  method FillNumber(invoice: Record, number: Option<string>) returns (updated: Record)
    ensures updated == WithNumber(invoice, number)
  {
    updated := invoice;
    if number.Some? {
      updated := updated["invoice_number" := Str(number.value)];
    }
  }

  /** The currency step: the detected currency replaces the default, if any. */
  method FillCurrency(invoice: Record, currency: Currency?) returns (updated: Record)
    ensures updated == WithCurrency(invoice, currency)
  {
    updated := invoice;
    if currency.Some? {
      updated := updated["currency" := Str(currency.value.Code())];
    }
  }

  /** The date loop of `_extract_with_regex` over `dates_found[:2]`. */
  method FillDates(rec: Record, dates: seq<string>) returns (invoice: Record)
    requires |dates| <= 2
    ensures invoice == WithDates(rec, DateReadings(dates), |dates|)
  {
    ghost var readings := DateReadings(dates);
    invoice := rec;
    for i := 0 to |dates|
      invariant invoice == WithDates(rec, readings, i)
    {
      var parsed := ParseDate(dates[i]);
      assert parsed == readings[i];
      invoice := SetDate(invoice, i, parsed);
    }
  }

  /** One pass of the date loop: `invoice['invoice_date']` or `invoice['due_date']` when the date parsed. */
  method SetDate(invoice: Record, i: nat, parsed: Option<string>) returns (updated: Record)
    requires i < 2
    ensures updated == WithDate(invoice, DateKey(i), parsed)
  {
    updated := invoice;
    if parsed.Some? {
      if i == 0 {
        updated := updated["invoice_date" := Str(parsed.value)];
      } else if i == 1 {
        updated := updated["due_date" := Str(parsed.value)];
      }
    }
  }

  /** The company step of `_extract_with_regex`: seller first, then buyer. */
  method FillCompanies(invoice: Record, companies: seq<string>) returns (updated: Record)
    ensures updated == WithCompanies(invoice, companies)
  {
    updated := invoice;
    if companies != [] {
      updated := updated["seller_name" := Str(companies[0])];
      updated := updated["buyer_name" := if |companies| >= 2 then Str(companies[1]) else Null];
    }
  }

  /** The amount loop of `_extract_with_regex`: the readings of the amounts that convert, in order. */
  method ParseAmounts(amounts: seq<string>) returns (parsedAmounts: seq<real>)
    ensures parsedAmounts == ParsedAmounts(amounts)
  {
    parsedAmounts := [];
    for k := 0 to |amounts|
      invariant parsedAmounts == ParsedAmounts(amounts[..k])
    {
      assert amounts[..k + 1][..k] == amounts[..k];
      var value := ParseDecimal(NormalizeAmount(amounts[k]));
      if value.Some? {
        parsedAmounts := parsedAmounts + [value.value];
      }
    }
    assert amounts[..|amounts|] == amounts;
  }

  /** The end of `_extract_with_regex`: the largest reading is the gross total, the next the net total, the third the tax. */
  method FillRoles(invoice: Record, sorted: seq<real>) returns (updated: Record)
    ensures updated == WithRoles(invoice, AssignRoles(sorted))
  {
    updated := invoice;
    if |sorted| >= 1 {
      updated := updated["gross_total" := Num(sorted[0])];
    }
    if |sorted| >= 2 {
      updated := updated["net_total" := Num(sorted[1])];
    }
    if |sorted| >= 3 {
      updated := updated["tax_amount" := Num(sorted[2])];
    }
  }
}
