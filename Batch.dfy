/**
 * What `InvoiceValidator.validate_batch` (invoice_qc/validator.py) returns:
 * the reports in input order, the count of each error across the batch, and
 * the summary built from them.
 */
module Batch {
  import opened Calendar
  import opened Records
  import opened Models
  import opened Rules

  /** `[validate(i) for i in invoices]`, as reports: one per invoice, in input order. */
  function Validations(invoices: seq<Record>, today: ValidDate, duplicates: DuplicateOracle): (results: seq<Report>)
    requires forall i :: 0 <= i < |invoices| ==> Admissible(invoices[i])
    ensures |results| == |invoices|
    ensures forall i :: 0 <= i < |invoices| ==> results[i] == Validation(invoices[i], today, duplicates)
  {
    seq(|invoices|, i requires 0 <= i < |invoices| => Validation(invoices[i], today, duplicates))
  }

  /** The errors of all reports, report by report. */
  function AllErrors(results: seq<Report>): seq<Finding>
    decreases |results|
  {
    if results == [] then []
    else AllErrors(results[..|results| - 1]) + results[|results| - 1].errors
  }

  /** `error_counts[e]` of a `defaultdict(int)`: 0 for a key never incremented. */
  function CountOf(counts: map<Finding, nat>, e: Finding): nat {
    if e in counts then counts[e] else 0
  }

  /** `error_counts[e] += 1`. */
  function Increment(counts: map<Finding, nat>, e: Finding): (r: map<Finding, nat>)
    ensures r.Keys == counts.Keys + {e}
    ensures CountOf(r, e) == CountOf(counts, e) + 1
    ensures forall x :: x != e ==> CountOf(r, x) == CountOf(counts, x)
  {
    counts[e := CountOf(counts, e) + 1]
  }

  /** The count map after incrementing once per element of `errs`, in order. */
  function ErrorCounts(errs: seq<Finding>): map<Finding, nat>
    decreases |errs|
  {
    if errs == [] then map[]
    else Increment(ErrorCounts(errs[..|errs| - 1]), errs[|errs| - 1])
  }

  /** `sum(1 for r in results if r.is_valid)`. */
  function ValidCount(results: seq<Report>): (n: nat)
    ensures n <= |results|
    decreases |results|
  {
    if results == [] then 0
    else ValidCount(results[..|results| - 1]) + if results[|results| - 1].isValid then 1 else 0
  }

  /** The `ValidationSummary` of a batch (its timestamp left out). */
  function Summarize(results: seq<Report>): (summary: ValidationSummary)
    ensures summary.totalInvoices == |results|
    ensures 0 <= summary.validInvoices && 0 <= summary.invalidInvoices
    ensures summary.validInvoices + summary.invalidInvoices == summary.totalInvoices
  {
    var valid := ValidCount(results);
    ValidationSummary(|results|, valid, |results| - valid, ErrorCounts(AllErrors(results)))
  }

  /** Validating one more invoice of the batch appends its report. */
  lemma ValidationsStep(invoices: seq<Record>, k: nat, today: ValidDate, duplicates: DuplicateOracle)
    requires forall i :: 0 <= i < |invoices| ==> Admissible(invoices[i])
    requires k < |invoices|
    ensures Validations(invoices[..k + 1], today, duplicates) == Validations(invoices[..k], today, duplicates) + [Validation(invoices[k], today, duplicates)]
  {
    var longer, shorter := Validations(invoices[..k + 1], today, duplicates), Validations(invoices[..k], today, duplicates);
    forall i | 0 <= i < k
      ensures longer[i] == shorter[i]
    {
      assert invoices[..k + 1][i] == invoices[..k][i];
    }
    assert invoices[..k + 1][k] == invoices[k];
    SnocOf(longer, shorter, Validation(invoices[k], today, duplicates));
  }

  /** A sequence that agrees with `shorter` and then holds `x` is `shorter + [x]`. */
  lemma SnocOf<T>(longer: seq<T>, shorter: seq<T>, x: T)
    requires |longer| == |shorter| + 1
    requires forall i :: 0 <= i < |shorter| ==> longer[i] == shorter[i]
    requires longer[|shorter|] == x
    ensures longer == shorter + [x]
  {
  }

  /** Counting one more error increments its count. */
  lemma ErrorCountsSnoc(errs: seq<Finding>, e: Finding)
    ensures ErrorCounts(errs + [e]) == Increment(ErrorCounts(errs), e)
  {
    assert (errs + [e])[..|errs|] == errs;
  }

  /** The errors of one more report follow those of the earlier ones. */
  lemma AllErrorsSnoc(results: seq<Report>, r: Report)
    ensures AllErrors(results + [r]) == AllErrors(results) + r.errors
  {
    assert (results + [r])[..|results|] == results;
  }
}
