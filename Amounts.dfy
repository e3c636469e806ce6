/**
 * The amount handling of `InvoiceExtractor._extract_with_regex`
 * (invoice_qc/extractor.py): deciding which of `,` and `.` is the decimal
 * separator of an amount found in the text, dropping what then does not
 * read as a number, ordering the amounts from largest to smallest and
 * giving the three largest the roles gross, net and tax.
 */
module Amounts {
  import opened Common
  import opened Text
  import opened Decimals

  // ------------------------------------------------------------ separators

  /** `s.split(c)[-1]`: the text after the last `c`. */
  function AfterLast(s: string, c: char): (t: string)
    requires c in s
    ensures |t| < |s| && t == s[|s| - |t|..] && s[|s| - |t| - 1] == c
    ensures forall i :: 0 <= i < |t| ==> t[i] != c
  {
    s[LastIndex(s, c) + 1..]
  }

  /**
   * The separator rule for one amount: with both separators, the one that
   * occurs last is the decimal point and the other is dropped; with commas
   * only, they become points when exactly two characters follow the last
   * one, and are dropped otherwise; without a comma the text is kept.
   */
  function NormalizeAmount(amt: string): (clean: string)
    ensures forall i :: 0 <= i < |clean| ==> clean[i] != ','
  {
    if ',' in amt && '.' in amt then
      if LastIndex(amt, ',') > LastIndex(amt, '.') then Replace(Remove(amt, '.'), ',', '.')
      else Remove(amt, ',')
    else if ',' in amt then
      if |AfterLast(amt, ',')| == 2 then Replace(amt, ',', '.') else Remove(amt, ',')
    else amt
  }

  /** `amt` with `,` and `.` exchanged: the same grouping in the other convention. */
  function SwapSeparators(amt: string): (r: string)
    ensures |r| == |amt|
    ensures forall i :: 0 <= i < |amt| ==> r[i] == (if amt[i] == ',' then '.' else if amt[i] == '.' then ',' else amt[i])
  {
    seq(|amt|, i requires 0 <= i < |amt| => if amt[i] == ',' then '.' else if amt[i] == '.' then ',' else amt[i])
  }

  // ------------------------------------------------------- helper lemmas

  /** The last occurrence of `c` is the occurrence with none after it. */
  lemma LastIndexUnique(s: string, c: char, k: nat)
    requires k < |s| && s[k] == c
    requires forall i :: k < i < |s| ==> s[i] != c
    ensures c in s && LastIndex(s, c) == k
  {
  }

  /** The last `x` of `a + [x] + b`, where `b` has none, is the one between them. */
  lemma LastIndexAt(a: string, x: char, b: string)
    requires x !in b
    ensures x in a + [x] + b && LastIndex(a + [x] + b, x) == |a|
  {
    var s := a + [x] + b;
    forall i | |a| < i < |s|
      ensures s[i] != x
    {
      assert s[i] == b[i - |a| - 1];
    }
    LastIndexUnique(s, x, |a|);
  }

  /** Dropping the only `x` of `a + [x] + b`. */
  lemma RemoveAt(a: string, x: char, b: string)
    requires x !in a && x !in b
    ensures Remove(a + [x] + b, x) == a + b
  {
    RemoveAppend(a + [x], b, x);
    RemoveAppend(a, [x], x);
  }

  /** Replacing the only `x` of `a + [x] + b`. */
  lemma ReplaceAt(a: string, x: char, b: string, y: char)
    requires x !in a && x !in b
    ensures Replace(a + [x] + b, x, y) == a + [y] + b
  {
    var s, r := a + [x] + b, Replace(a + [x] + b, x, y);
    forall i | 0 <= i < |s|
      ensures r[i] == (a + [y] + b)[i]
    {
      if i < |a| {
        assert s[i] == a[i];
      } else if i > |a| {
        assert s[i] == b[i - |a| - 1];
      }
    }
  }

  lemma RemoveTwice(s: string, c: char)
    ensures Remove(Remove(s, c), c) == Remove(s, c)
  {
    assert c !in Remove(s, c);
  }

  lemma {:induction false} RemoveCommutes(s: string, a: char, b: char)
    ensures Remove(Remove(s, a), b) == Remove(Remove(s, b), a)
    decreases |s|
  {
    if s != [] {
      var init := s[..|s| - 1];
      RemoveCommutes(init, a, b);
      var x := s[|s| - 1];
      RemoveAppend(Remove(init, a), if x == a then [] else [x], b);
      RemoveAppend(Remove(init, b), if x == b then [] else [x], a);
    }
  }

  lemma ReplaceAppend(s: string, t: string, x: char, y: char)
    ensures Replace(s + t, x, y) == Replace(s, x, y) + Replace(t, x, y)
  {
  }

  /** Dropping `c` from a one-character text. */
  lemma RemoveOne(x: char, c: char)
    ensures Remove([x], c) == if x == c then [] else [x]
  {
    assert [x][..0] == [];
  }

  /** Replacing `c` in a one-character text. */
  lemma ReplaceOne(x: char, c: char, d: char)
    ensures Replace([x], c, d) == if x == c then [d] else [x]
  {
  }

  /** Turning `a` into `b` and then dropping `b` drops both. */
  lemma {:induction false} RemoveReplaced(s: string, a: char, b: char)
    ensures Remove(Replace(s, a, b), b) == Remove(Remove(s, a), b)
    decreases |s|
  {
    if s != [] {
      var init, x := s[..|s| - 1], s[|s| - 1];
      RemoveReplaced(init, a, b);
      assert s == init + [x];
      ReplaceAppend(init, [x], a, b);
      ReplaceOne(x, a, b);
      RemoveAppend(Replace(init, a, b), Replace([x], a, b), b);
      RemoveAppend(init, [x], a);
      RemoveOne(x, a);
      RemoveAppend(Remove(init, a), Remove([x], a), b);
      if x == a {
        RemoveOne(b, b);
      } else {
        RemoveOne(x, b);
      }
    }
  }

  /** Swapping the separators of a text with one more character. */
  lemma SwapSnoc(init: string, x: char)
    ensures SwapSeparators(init + [x]) == SwapSeparators(init) + [if x == ',' then '.' else if x == '.' then ',' else x]
  {
  }

  /** Dropping `c` from a text with one more character. */
  lemma RemoveSnoc(init: string, x: char, c: char)
    ensures Remove(init + [x], c) == Remove(init, c) + (if x == c then [] else [x])
  {
    assert (init + [x])[..|init|] == init;
  }

  /** Dropping `,` from the swapped text is dropping `.` from the original and turning its commas into points. */
  lemma {:induction false} RemoveSwapped(s: string)
    ensures Remove(SwapSeparators(s), ',') == Replace(Remove(s, '.'), ',', '.')
    decreases |s|
  {
    if s != [] {
      var init, x := s[..|s| - 1], s[|s| - 1];
      assert s == init + [x];
      RemoveSwapped(init);
      var y := if x == ',' then '.' else if x == '.' then ',' else x;
      SwapSnoc(init, x);
      RemoveSnoc(SwapSeparators(init), y, ',');
      RemoveSnoc(init, x, '.');
      var kept := if x == '.' then [] else [x];
      ReplaceAppend(Remove(init, '.'), kept, ',', '.');
      if x != '.' {
        ReplaceOne(x, ',', '.');
      }
    }
  }

  lemma SwapTwice(s: string)
    ensures SwapSeparators(SwapSeparators(s)) == s
  {
  }

  /** The last `,` of the swapped text is the last `.` of the original. */
  lemma LastIndexSwapped(s: string)
    requires '.' in s
    ensures ',' in SwapSeparators(s) && LastIndex(SwapSeparators(s), ',') == LastIndex(s, '.')
  {
    var k := LastIndex(s, '.');
    LastIndexUnique(SwapSeparators(s), ',', k);
  }

  lemma DigitsHaveNoSeparator(s: string)
    requires IsDigits(s)
    ensures ',' !in s && '.' !in s
  {
  }

  lemma RemoveAbsent(s: string, c: char)
    requires IsDigits(s) && (c == ',' || c == '.')
    ensures Remove(s, c) == s
  {
    DigitsHaveNoSeparator(s);
  }

  // ------------------------------------------------- separator properties

  /** Normalising only moves or drops separators: the digits are those of the amount, in order. */
  lemma NormalizeKeepsDigits(amt: string)
    ensures Remove(NormalizeAmount(amt), '.') == Remove(Remove(amt, ','), '.')
  {
    if ',' in amt && '.' in amt {
      if LastIndex(amt, ',') > LastIndex(amt, '.') {
        RemoveReplaced(Remove(amt, '.'), ',', '.');
        RemoveCommutes(amt, '.', ',');
        RemoveTwice(Remove(amt, ','), '.');
      }
    } else if ',' in amt {
      RemoveReplaced(amt, ',', '.');
    } else {
      assert Remove(amt, ',') == amt;
    }
  }

  /**
   * The two conventions are read alike: an amount with both separators
   * normalises as its swapped form does, so `1.234,56` and `1,234.56` agree.
   */
  lemma NormalizeSwapInvariant(amt: string)
    requires ',' in amt && '.' in amt
    ensures NormalizeAmount(SwapSeparators(amt)) == NormalizeAmount(amt)
  {
    var swapped := SwapSeparators(amt);
    LastIndexSwapped(amt);
    LastIndexSwapped(swapped);
    SwapTwice(amt);
    assert LastIndex(swapped, '.') == LastIndex(amt, ',');
    if LastIndex(amt, ',') > LastIndex(amt, '.') {
      RemoveSwapped(amt);
    } else {
      RemoveSwapped(swapped);
    }
  }

  lemma SwapDigits(s: string)
    requires IsDigits(s)
    ensures SwapSeparators(s) == s
  {
  }

  /**
   * A grouped amount in the German convention (`1.234,56`) and in the
   * English one (`1,234.56`) both become the plain numeral `1234.56`.
   */
  lemma GroupedAmount(whole: string, group: string, cents: string)
    requires IsDigits(whole) && IsDigits(group) && IsDigits(cents)
    ensures NormalizeAmount(whole + "." + group + "," + cents) == whole + group + "." + cents
    ensures NormalizeAmount(whole + "," + group + "." + cents) == whole + group + "." + cents
  {
    DigitsHaveNoSeparator(whole);
    DigitsHaveNoSeparator(group);
    DigitsHaveNoSeparator(cents);
    var german := whole + "." + group + "," + cents;
    var tail := group + "," + cents;
    assert german == whole + "." + tail;
    LastIndexAt(whole + "." + group, ',', cents);
    LastIndexAt(whole, '.', tail);
    RemoveAt(whole, '.', tail);
    ReplaceAt(whole + group, ',', cents, '.');
    assert whole + tail == whole + group + "," + cents;
    SwapDigits(whole);
    SwapDigits(group);
    SwapDigits(cents);
    assert SwapSeparators(german) == whole + "," + group + "." + cents;
    NormalizeSwapInvariant(german);
  }

  /** With commas only, two digits after the last comma make it the decimal point: `1234,56` becomes `1234.56`. */
  lemma CommaDecimal(whole: string, cents: string)
    requires IsDigits(whole) && IsDigits(cents) && |cents| == 2
    ensures NormalizeAmount(whole + "," + cents) == whole + "." + cents
  {
    DigitsHaveNoSeparator(whole);
    DigitsHaveNoSeparator(cents);
    LastIndexAt(whole, ',', cents);
    ReplaceAt(whole, ',', cents, '.');
    assert '.' !in whole + "," + cents;
  }

  /** With commas only, three digits after the last comma make it a thousands separator: `1,234` becomes `1234`. */
  lemma CommaThousands(whole: string, group: string)
    requires IsDigits(whole) && IsDigits(group) && |group| == 3
    ensures NormalizeAmount(whole + "," + group) == whole + group
  {
    DigitsHaveNoSeparator(whole);
    DigitsHaveNoSeparator(group);
    LastIndexAt(whole, ',', group);
    RemoveAt(whole, ',', group);
    assert '.' !in whole + "," + group;
  }

  /** `x` with the decimal point moved two places. */
  lemma ShiftTwo(x: real)
    ensures Shift(x, 2) == x / 100.0
  {
    assert Shift(x, 1) == x / 10.0;
  }

  /** A numeral `whole.fraction` with a digit in it reads as its digits shifted by the fraction's length. */
  lemma PointValue(whole: string, fraction: string)
    requires IsDigits(whole) && IsDigits(fraction) && |whole| + |fraction| > 0
    ensures ParseDecimal(whole + "." + fraction) == Some(Shift(DigitsValue(whole + fraction) as real, |fraction|))
  {
    var s := whole + "." + fraction;
    DigitsHaveNoSeparator(whole);
    IndexOfAt(whole, '.', fraction);
    assert s[..|whole|] == whole && s[|whole| + 1..] == fraction;
    assert s[0] != '-' && s[0] != '+' by {
      if whole == [] {
        assert s[0] == '.';
      } else {
        assert s[0] == whole[0];
      }
    }
  }

  /** A plain numeral with two decimals reads as its digits in hundredths. */
  lemma CentsValue(whole: string, cents: string)
    requires IsDigits(whole) && IsDigits(cents) && |cents| == 2
    ensures ParseDecimal(whole + "." + cents) == Some(DigitsValue(whole + cents) as real / 100.0)
  {
    PointValue(whole, cents);
    ShiftTwo(DigitsValue(whole + cents) as real);
  }

  /** Commas only, with two digits after the last: every comma becomes a point. */
  lemma CommasBecomePoints(whole: string, group: string, cents: string)
    requires IsDigits(whole) && IsDigits(group) && IsDigits(cents) && |cents| == 2
    ensures NormalizeAmount(whole + "," + group + "," + cents) == whole + "." + group + "." + cents
  {
    DigitsHaveNoSeparator(whole);
    DigitsHaveNoSeparator(group);
    DigitsHaveNoSeparator(cents);
    var amt := whole + "," + group + "," + cents;
    LastIndexAt(whole + "," + group, ',', cents);
    assert '.' !in amt;
    ReplaceAt(whole, ',', group, '.');
    ReplaceAt([], ',', cents, '.');
    assert [] + "," + cents == "," + cents;
    ReplaceAppend(whole + "," + group, "," + cents, ',', '.');
  }

  /** A numeral with two decimal points does not read as a number. */
  lemma TwoPointsUnreadable(whole: string, group: string, cents: string)
    requires IsDigits(whole)
    ensures ParseDecimal(whole + "." + group + "." + cents) == None
  {
    DigitsHaveNoSeparator(whole);
    var s := whole + "." + group + "." + cents;
    var fraction := group + "." + cents;
    assert s == whole + "." + fraction;
    IndexOfAt(whole, '.', fraction);
    assert s[..|whole|] == whole && s[|whole| + 1..] == fraction;
    assert fraction[|group|] == '.';
    assert s[0] != '-' && s[0] != '+' by {
      if whole == [] {
        assert s[0] == '.';
      } else {
        assert s[0] == whole[0];
      }
    }
  }

  /**
   * Several commas with two digits after the last (`1,234,56`) all become
   * points, and the result is not a number, so the amount is dropped.
   */
  lemma AmbiguousCommasDropped(whole: string, group: string, cents: string)
    requires IsDigits(whole) && IsDigits(group) && IsDigits(cents) && |cents| == 2
    ensures ParseDecimal(NormalizeAmount(whole + "," + group + "," + cents)) == None
  {
    CommasBecomePoints(whole, group, cents);
    TwoPointsUnreadable(whole, group, cents);
  }

  // ---------------------------------------------------------- amount list

  /**
   * `parsed_amounts` after the loop: each amount normalised and read as a
   * number, in the order found; one that does not read is skipped.
   */
  function ParsedAmounts(amounts: seq<string>): (values: seq<real>)
    ensures |values| <= |amounts|
    decreases |amounts|
  {
    if amounts == [] then []
    else
      var rest := ParsedAmounts(amounts[..|amounts| - 1]);
      match ParseDecimal(NormalizeAmount(amounts[|amounts| - 1]))
      case Some(v) => rest + [v]
      case None => rest
  }

  /** A value is parsed exactly when some amount normalises and reads as it. */
  lemma {:induction false} ParsedAmountsMembership(amounts: seq<string>)
    ensures forall v :: v in ParsedAmounts(amounts) <==> exists a :: a in amounts && ParseDecimal(NormalizeAmount(a)) == Some(v)
    decreases |amounts|
  {
    if amounts != [] {
      var init := amounts[..|amounts| - 1];
      ParsedAmountsMembership(init);
      assert amounts == init + [amounts[|amounts| - 1]];
    }
  }

  /** Every amount that reads as a number is kept: none is lost but the unreadable ones. */
  lemma {:induction false} ParsedAmountsCount(amounts: seq<string>)
    ensures |ParsedAmounts(amounts)| == |amounts| <==> forall i :: 0 <= i < |amounts| ==> ParseDecimal(NormalizeAmount(amounts[i])).Some?
    decreases |amounts|
  {
    if amounts != [] {
      var init, last := amounts[..|amounts| - 1], amounts[|amounts| - 1];
      ParsedAmountsCount(init);
      var rest := ParsedAmounts(init);
      var readable := ParseDecimal(NormalizeAmount(amounts[|amounts| - 1])).Some?;
      assert |ParsedAmounts(amounts)| == |rest| + (if readable then 1 else 0);
      if forall i :: 0 <= i < |amounts| ==> ParseDecimal(NormalizeAmount(amounts[i])).Some? {
        forall i | 0 <= i < |init|
          ensures ParseDecimal(NormalizeAmount(init[i])).Some?
        {
          assert init[i] == amounts[i];
        }
        assert ParseDecimal(NormalizeAmount(amounts[|amounts| - 1])).Some?;
      } else if readable {
        var k :| 0 <= k < |amounts| && ParseDecimal(NormalizeAmount(amounts[k])).None?;
        assert k != |amounts| - 1;
        assert init[k] == amounts[k];
      }
    }
  }

  // --------------------------------------------------------------- order

  /** Largest first. */
  predicate Descending(xs: seq<real>) {
    forall i, j :: 0 <= i < j < |xs| ==> xs[i] >= xs[j]
  }

  /** `x` placed into a descending list. */
  function Insert(x: real, xs: seq<real>): (r: seq<real>)
    requires Descending(xs)
    ensures Descending(r)
    ensures multiset(r) == multiset(xs) + multiset{x}
    ensures |r| == |xs| + 1
    decreases |xs|
  {
    if xs == [] || x >= xs[0] then
      InsertFront(x, xs);
      [x] + xs
    else
      var tail := Insert(x, xs[1..]);
      InsertBehind(x, xs, tail);
      [xs[0]] + tail
  }

  /** A head no smaller than any element of a descending tail keeps the list descending. */
  lemma DescendingCons(h: real, t: seq<real>)
    requires Descending(t)
    requires forall i :: 0 <= i < |t| ==> t[i] <= h
    ensures Descending([h] + t)
  {
    var r := [h] + t;
    forall i, j | 0 <= i < j < |r|
      ensures r[i] >= r[j]
    {
      assert r[j] == t[j - 1];
      if i > 0 {
        assert r[i] == t[i - 1];
      }
    }
  }

  /** `x` no smaller than the head of a descending list goes in front. */
  lemma InsertFront(x: real, xs: seq<real>)
    requires Descending(xs)
    requires xs == [] || x >= xs[0]
    ensures Descending([x] + xs)
    ensures multiset([x] + xs) == multiset(xs) + multiset{x}
  {
    forall i | 0 <= i < |xs|
      ensures xs[i] <= x
    {
      if i > 0 {
        assert xs[0] >= xs[i];
      }
    }
    DescendingCons(x, xs);
  }

  /** The head stays in front of `x` inserted into the rest. */
  lemma InsertBehind(x: real, xs: seq<real>, tail: seq<real>)
    requires Descending(xs) && xs != [] && x < xs[0]
    requires Descending(tail)
    requires multiset(tail) == multiset(xs[1..]) + multiset{x}
    ensures Descending([xs[0]] + tail)
    ensures multiset([xs[0]] + tail) == multiset(xs) + multiset{x}
  {
    forall i | 0 <= i < |tail|
      ensures tail[i] <= xs[0]
    {
      assert tail[i] in multiset(tail);
      if tail[i] != x {
        assert tail[i] in multiset(xs[1..]);
        var k :| 0 <= k < |xs[1..]| && xs[1..][k] == tail[i];
        assert xs[k + 1] == tail[i];
      }
    }
    DescendingCons(xs[0], tail);
    assert xs == [xs[0]] + xs[1..];
  }

  /** `parsed_amounts.sort(reverse=True)`: the same values, largest first. */
  function SortDescending(xs: seq<real>): (r: seq<real>)
    ensures Descending(r)
    ensures multiset(r) == multiset(xs)
    ensures |r| == |xs|
    decreases |xs|
  {
    if xs == [] then []
    else
      assert xs == xs[..|xs| - 1] + [xs[|xs| - 1]];
      Insert(xs[|xs| - 1], SortDescending(xs[..|xs| - 1]))
  }

  // --------------------------------------------------------------- roles

  /** The amounts `_extract_with_regex` assigns; a role without an amount stays `None`. */
  datatype Roles = Roles(gross: Option<real>, net: Option<real>, tax: Option<real>)

  /** Gross, net and tax taken from the first three of the sorted amounts. */
  function AssignRoles(sorted: seq<real>): (r: Roles)
    ensures r.gross.Some? ==> r.gross.value in sorted
    ensures r.net.Some? ==> r.net.value in sorted && r.gross.Some?
    ensures r.tax.Some? ==> r.tax.value in sorted && r.net.Some?
    ensures Descending(sorted) && r.net.Some? ==> r.net.value <= r.gross.value
    ensures Descending(sorted) && r.tax.Some? ==> r.tax.value <= r.net.value
  {
    Roles(if |sorted| >= 1 then Some(sorted[0]) else None,
          if |sorted| >= 2 then Some(sorted[1]) else None,
          if |sorted| >= 3 then Some(sorted[2]) else None)
  }

  /** `x` is a largest element of `m`. */
  predicate IsMaxOf(x: real, m: multiset<real>) {
    x in m && forall v :: v in m ==> v <= x
  }

  /** A multiset has at most one largest element, so `IsMaxOf` pins a role down. */
  lemma MaxIsUnique(x: real, y: real, m: multiset<real>)
    requires IsMaxOf(x, m) && IsMaxOf(y, m)
    ensures x == y
  {
  }

  /** The head of a descending list is its largest element, and the rest is what remains. */
  lemma {:induction false} HeadIsMax(s: seq<real>)
    requires Descending(s) && s != []
    ensures IsMaxOf(s[0], multiset(s))
    ensures multiset(s[1..]) == multiset(s) - multiset{s[0]}
    ensures Descending(s[1..])
  {
    assert s == [s[0]] + s[1..];
    forall v | v in multiset(s)
      ensures v <= s[0]
    {
      var i :| 0 <= i < |s| && s[i] == v;
      if i > 0 { assert s[0] >= s[i]; }
    }
  }

  /**
   * Roles handed out largest first: a role is filled exactly when that many
   * values were read; the gross is the largest value, the net the largest
   * of the rest once the gross is taken out, and the tax the largest once
   * gross and net are taken out.
   */
  predicate Ranked(roles: Roles, values: seq<real>) {
    && (roles.gross.Some? <==> |values| >= 1)
    && (roles.net.Some? <==> |values| >= 2)
    && (roles.tax.Some? <==> |values| >= 3)
    && (roles.gross.Some? ==> IsMaxOf(roles.gross.value, multiset(values)))
    && (roles.net.Some? ==> IsMaxOf(roles.net.value, multiset(values) - multiset{roles.gross.value}))
    && (roles.tax.Some? ==> IsMaxOf(roles.tax.value, multiset(values) - multiset{roles.gross.value, roles.net.value}))
  }

  /** Ranked roles are among the values, and gross >= net >= tax. */
  lemma RankedOrder(roles: Roles, values: seq<real>)
    requires Ranked(roles, values)
    ensures roles.gross.Some? ==> roles.gross.value in values
    ensures roles.net.Some? ==> roles.net.value in values && roles.net.value <= roles.gross.value
    ensures roles.tax.Some? ==> roles.tax.value in values && roles.tax.value <= roles.net.value
  {
    var m := multiset(values);
    if roles.net.Some? {
      assert roles.net.value in m;
    }
    if roles.tax.Some? {
      var g, n, x := roles.gross.value, roles.net.value, roles.tax.value;
      assert x in m - multiset{g, n};
      assert x in m - multiset{g};
      assert x in m;
    }
  }

  /** The second of a descending list is the largest once the first is taken out. */
  lemma SecondIsMax(s: seq<real>)
    requires Descending(s) && |s| >= 2
    ensures IsMaxOf(s[1], multiset(s) - multiset{s[0]})
  {
    HeadIsMax(s);
    HeadIsMax(s[1..]);
  }

  /** The third of a descending list is the largest once the first two are taken out. */
  lemma ThirdIsMax(s: seq<real>)
    requires Descending(s) && |s| >= 3
    ensures IsMaxOf(s[2], multiset(s) - multiset{s[0], s[1]})
  {
    var rest := s[1..];
    HeadIsMax(s);
    SecondIsMax(rest);
    assert rest[0] == s[1] && rest[1] == s[2];
    assert multiset(s) - multiset{s[0], s[1]} == multiset(rest) - multiset{rest[0]};
  }

  /** The first three of a descending arrangement of the values rank them. */
  lemma {:induction false} RankedSorted(sorted: seq<real>, values: seq<real>)
    requires Descending(sorted) && multiset(sorted) == multiset(values)
    ensures Ranked(AssignRoles(sorted), values)
  {
    assert |sorted| == |multiset(values)| == |values|;
    if |sorted| >= 1 {
      HeadIsMax(sorted);
    }
    if |sorted| >= 2 {
      SecondIsMax(sorted);
    }
    if |sorted| >= 3 {
      ThirdIsMax(sorted);
    }
  }

  /**
   * `_extract_with_regex` hands out the sorted amounts as gross, net and tax:
   * the roles rank the amounts parsed.
   */
  lemma {:induction false} RolesOfAmounts(values: seq<real>)
    ensures Ranked(AssignRoles(SortDescending(values)), values)
  {
    RankedSorted(SortDescending(values), values);
  }
}
