/**
 * What `validate_batch` (invoice_qc/validator.py) promises, proved about the
 * functions of `Batch`: error counts that count occurrences, a summary whose
 * figures add up, and a summary the duplicate lookup cannot change.
 */
module BatchProperties {
  import opened Calendar
  import opened Records
  import opened Models
  import opened Rules
  import opened Batch

  /** The count of each error is its number of occurrences; the keys are the errors that occur. */
  lemma {:induction false} ErrorCountsAreOccurrences(errs: seq<Finding>)
    ensures forall e :: CountOf(ErrorCounts(errs), e) == multiset(errs)[e]
    ensures forall e :: e in ErrorCounts(errs) <==> e in errs
    decreases |errs|
  {
    if errs != [] {
      var init, last := errs[..|errs| - 1], errs[|errs| - 1];
      ErrorCountsAreOccurrences(init);
      assert errs == init + [last];
      assert multiset(errs) == multiset(init) + multiset{last};
    }
  }

  /** The sum of the counts in a count map. */
  ghost function Total(counts: map<Finding, nat>): nat
    decreases |counts.Keys|
  {
    if counts == map[] then 0
    else
      var e :| e in counts;
      counts[e] + Total(counts - {e})
  }

  /** The total does not depend on which key is taken first. */
  lemma {:induction false} TotalRemove(counts: map<Finding, nat>, e: Finding)
    requires e in counts
    ensures Total(counts) == counts[e] + Total(counts - {e})
    decreases |counts.Keys|
  {
    var d :| d in counts && Total(counts) == counts[d] + Total(counts - {d});
    if d != e {
      TotalRemove(counts - {d}, e);
      TotalRemove(counts - {e}, d);
      assert counts - {d} - {e} == counts - {e} - {d};
    }
  }

  /** `error_counts[e] += 1` raises the total by one. */
  lemma TotalIncrement(counts: map<Finding, nat>, e: Finding)
    ensures Total(Increment(counts, e)) == Total(counts) + 1
  {
    var r := Increment(counts, e);
    TotalRemove(r, e);
    assert r - {e} == counts - {e};
    if e in counts {
      TotalRemove(counts, e);
    } else {
      assert counts - {e} == counts;
    }
  }

  /** The error counts add up to the number of errors counted. */
  lemma {:induction false} CountsAddUp(errs: seq<Finding>)
    ensures Total(ErrorCounts(errs)) == |errs|
    decreases |errs|
  {
    if errs != [] {
      CountsAddUp(errs[..|errs| - 1]);
      TotalIncrement(ErrorCounts(errs[..|errs| - 1]), errs[|errs| - 1]);
    } else {
      assert ErrorCounts(errs) == map[];
    }
  }

  /** An error occurs in the batch exactly when it occurs in some report. */
  lemma {:induction false} AllErrorsMembership(results: seq<Report>)
    ensures forall e :: e in AllErrors(results) <==> exists i :: 0 <= i < |results| && e in results[i].errors
    decreases |results|
  {
    if results != [] {
      var init := results[..|results| - 1];
      AllErrorsMembership(init);
      assert forall i :: 0 <= i < |init| ==> init[i] == results[i];
    }
  }

  /** The valid count reaches the batch size exactly when every report is valid, and is 0 exactly when none is. */
  lemma {:induction false} ValidCountExtremes(results: seq<Report>)
    ensures ValidCount(results) == |results| <==> forall i :: 0 <= i < |results| ==> results[i].isValid
    ensures ValidCount(results) == 0 <==> forall i :: 0 <= i < |results| ==> !results[i].isValid
    decreases |results|
  {
    if results != [] {
      var init := results[..|results| - 1];
      ValidCountExtremes(init);
      assert forall i :: 0 <= i < |init| ==> init[i] == results[i];
    }
  }

  /** Counting valid reports is additive over a split of the batch. */
  lemma {:induction false} ValidCountAppend(a: seq<Report>, b: seq<Report>)
    ensures ValidCount(a + b) == ValidCount(a) + ValidCount(b)
    decreases |b|
  {
    if b == [] {
      assert a + b == a;
    } else {
      var init := b[..|b| - 1];
      assert (a + b)[..|a + b| - 1] == a + init;
      ValidCountAppend(a, init);
    }
  }

  /**
   * The summary's figures add up: one report per invoice, valid and invalid
   * counts partition the batch, the rate is a percentage, and the error
   * counts count exactly the errors of the reports.
   */
  lemma SummaryConsistent(results: seq<Report>)
    ensures Summarize(results).totalInvoices == |results|
    ensures Summarize(results).validInvoices + Summarize(results).invalidInvoices == Summarize(results).totalInvoices
    ensures 0 <= Summarize(results).invalidInvoices
    ensures 0.0 <= Summarize(results).ValidationRate() <= 100.0
    ensures forall e :: e in Summarize(results).errorCounts <==> exists i :: 0 <= i < |results| && e in results[i].errors
    ensures forall e :: CountOf(Summarize(results).errorCounts, e) == multiset(AllErrors(results))[e]
  {
    ErrorCountsAreOccurrences(AllErrors(results));
    AllErrorsMembership(results);
  }

  /** Two batches of reports with the same verdicts and errors, report by report. */
  predicate SameVerdicts(r1: seq<Report>, r2: seq<Report>) {
    |r1| == |r2| && forall i :: 0 <= i < |r1| ==> r1[i].isValid == r2[i].isValid && r1[i].errors == r2[i].errors
  }

  /** Reports with the same verdicts have the same valid count. */
  lemma {:induction false} SameVerdictsSameValidCount(r1: seq<Report>, r2: seq<Report>)
    requires SameVerdicts(r1, r2)
    ensures ValidCount(r1) == ValidCount(r2)
    decreases |r1|
  {
    if r1 != [] {
      var i1, i2 := r1[..|r1| - 1], r2[..|r2| - 1];
      assert forall i :: 0 <= i < |i1| ==> i1[i] == r1[i] && i2[i] == r2[i];
      SameVerdictsSameValidCount(i1, i2);
    }
  }

  /** Reports with the same errors have the same errors all together. */
  lemma {:induction false} SameVerdictsSameErrors(r1: seq<Report>, r2: seq<Report>)
    requires SameVerdicts(r1, r2)
    ensures AllErrors(r1) == AllErrors(r2)
    decreases |r1|
  {
    if r1 != [] {
      var i1, i2 := r1[..|r1| - 1], r2[..|r2| - 1];
      assert forall i :: 0 <= i < |i1| ==> i1[i] == r1[i] && i2[i] == r2[i];
      SameVerdictsSameErrors(i1, i2);
    }
  }

  /** The summary depends only on the verdicts and errors, not on the warnings or identifiers. */
  lemma SameVerdictsSameSummary(r1: seq<Report>, r2: seq<Report>)
    requires SameVerdicts(r1, r2)
    ensures Summarize(r1) == Summarize(r2)
  {
    SameVerdictsSameValidCount(r1, r2);
    SameVerdictsSameErrors(r1, r2);
  }

  /**
   * The duplicate lookup only adds warnings, so the batch summary is the
   * same whatever the lookup answers, and whether or not it fails.
   */
  lemma SummaryIgnoresDuplicateLookup(invoices: seq<Record>, today: ValidDate, d1: DuplicateOracle, d2: DuplicateOracle)
    requires forall i :: 0 <= i < |invoices| ==> Admissible(invoices[i])
    ensures Summarize(Validations(invoices, today, d1)) == Summarize(Validations(invoices, today, d2))
  {
    SameVerdictsSameSummary(Validations(invoices, today, d1), Validations(invoices, today, d2));
  }

  /** An invoice is counted as valid exactly when its own validation reports no error. */
  lemma ValidInvoiceCounted(invoices: seq<Record>, today: ValidDate, duplicates: DuplicateOracle)
    requires forall i :: 0 <= i < |invoices| ==> Admissible(invoices[i])
    ensures Summarize(Validations(invoices, today, duplicates)).validInvoices == |invoices|
      <==> forall i :: 0 <= i < |invoices| ==> ValidationErrors(invoices[i], today) == []
  {
    var results := Validations(invoices, today, duplicates);
    ValidCountExtremes(results);
    forall i | 0 <= i < |invoices|
      ensures results[i].isValid <==> ValidationErrors(invoices[i], today) == []
    {
      assert results[i] == Validation(invoices[i], today, duplicates);
    }
  }
}
