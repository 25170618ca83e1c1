/**
 * The table's `apiData.sort(...)` with `sortByTimestamp` as comparator: an insertion
 * sort, as a function on sequences and as the in-place loop over the state array.
 */
module TimestampSort {
  import opened Wrappers
  import opened Quotes

  /** Every neighbouring pair is in comparator order: the earlier row is not older. */
  predicate LocallyDescending(s: seq<StockQuote>)
  {
    forall i :: 0 <= i < |s| - 1 ==> SortByTimestamp(s[i], s[i + 1]) <= 0
  }

  /** Every timestamp parses and the instants never increase from one row to a later one. */
  predicate ChronologicallyDescending(s: seq<StockQuote>)
  {
    AllParse(s) &&
    forall i, j :: 0 <= i < j < |s| ==> InstantOf(s[j]).value <= InstantOf(s[i]).value
  }

  /**
   * Inserts `x` into `s` from the right: `x` moves left past every row that
   * the comparator says is strictly older than it.
   */
  function InsertRow(s: seq<StockQuote>, x: StockQuote): (r: seq<StockQuote>)
    ensures |r| == |s| + 1
  {
    if s == [] then [x]
    else if SortByTimestamp(s[|s| - 1], x) > 0 then InsertRow(s[..|s| - 1], x) + [s[|s| - 1]]
    else s + [x]
  }

  /** The rows of `s` in the order the comparator-driven sort leaves them. */
  function SortRows(s: seq<StockQuote>): (r: seq<StockQuote>)
    ensures |r| == |s|
  {
    if s == [] then [] else InsertRow(SortRows(s[..|s| - 1]), s[|s| - 1])
  }

  /** Insertion adds exactly the one row and loses none. */
  lemma {:induction false} InsertRowPermutes(s: seq<StockQuote>, x: StockQuote)
    ensures multiset(InsertRow(s, x)) == multiset(s) + multiset{x}
  {
    if s != [] {
      assert s == s[..|s| - 1] + [s[|s| - 1]];
      if SortByTimestamp(s[|s| - 1], x) > 0 {
        InsertRowPermutes(s[..|s| - 1], x);
      }
    }
  }

  /** The sort neither adds, drops nor duplicates a row. */
  lemma {:induction false} SortRowsPermutes(s: seq<StockQuote>)
    ensures multiset(SortRows(s)) == multiset(s)
  {
    if s != [] {
      assert s == s[..|s| - 1] + [s[|s| - 1]];
      SortRowsPermutes(s[..|s| - 1]);
      InsertRowPermutes(SortRows(s[..|s| - 1]), s[|s| - 1]);
    }
  }

  /** The last row after an insertion is either the inserted row or the old last row. */
  lemma {:induction false} InsertRowLast(s: seq<StockQuote>, x: StockQuote)
    ensures var r := InsertRow(s, x);
      r[|r| - 1] == x || (s != [] && r[|r| - 1] == s[|s| - 1])
  {
  }

  /** Inserting into a locally descending sequence keeps it locally descending. */
  lemma {:induction false} InsertRowLocallyDescending(s: seq<StockQuote>, x: StockQuote)
    requires LocallyDescending(s)
    ensures LocallyDescending(InsertRow(s, x))
  {
    if s != [] && SortByTimestamp(s[|s| - 1], x) > 0 {
      var init, last := s[..|s| - 1], s[|s| - 1];
      assert LocallyDescending(init) by {
        forall i | 0 <= i < |init| - 1 ensures SortByTimestamp(init[i], init[i + 1]) <= 0 {
          assert init[i] == s[i] && init[i + 1] == s[i + 1];
        }
      }
      InsertRowLocallyDescending(init, x);
      var r' := InsertRow(init, x);
      InsertRowLast(init, x);
      var r := r' + [last];
      assert SortByTimestamp(r'[|r'| - 1], last) <= 0 by {
        if r'[|r'| - 1] == x {
          SortByTimestampAntisymmetric(last, x);
        } else {
          assert init[|init| - 1] == s[|s| - 2];
        }
      }
      forall i | 0 <= i < |r| - 1 ensures SortByTimestamp(r[i], r[i + 1]) <= 0 {
        if i < |r'| - 1 {
          assert r[i] == r'[i] && r[i + 1] == r'[i + 1];
        }
      }
    }
  }

  /** The sort leaves every neighbouring pair in comparator order, whatever the timestamps. */
  lemma {:induction false} SortRowsLocallyDescending(s: seq<StockQuote>)
    ensures LocallyDescending(SortRows(s))
  {
    if s != [] {
      SortRowsLocallyDescending(s[..|s| - 1]);
      InsertRowLocallyDescending(SortRows(s[..|s| - 1]), s[|s| - 1]);
    }
  }

  /** When every timestamp parses, neighbour order extends to the whole sequence. */
  lemma {:induction false} LocallyToChronologically(s: seq<StockQuote>)
    requires AllParse(s) && LocallyDescending(s)
    ensures ChronologicallyDescending(s)
  {
    if |s| > 1 {
      var tail := s[1..];
      assert LocallyDescending(tail) by {
        forall i | 0 <= i < |tail| - 1 ensures SortByTimestamp(tail[i], tail[i + 1]) <= 0 {
          assert tail[i] == s[i + 1] && tail[i + 1] == s[i + 2];
        }
      }
      LocallyToChronologically(tail);
      forall i, j | 0 <= i < j < |s| ensures InstantOf(s[j]).value <= InstantOf(s[i]).value {
        if i > 0 {
          assert s[i] == tail[i - 1] && s[j] == tail[j - 1];
        } else if j > 1 {
          assert s[1] == tail[0] && s[j] == tail[j - 1];
          assert SortByTimestamp(s[0], s[1]) <= 0;
        } else {
          assert SortByTimestamp(s[0], s[1]) <= 0;
        }
      }
    }
  }

  /** The sort is a permutation of its input that puts newer rows first. */
  lemma SortRowsCorrect(s: seq<StockQuote>)
    ensures multiset(SortRows(s)) == multiset(s)
    ensures LocallyDescending(SortRows(s))
    ensures AllParse(s) ==> ChronologicallyDescending(SortRows(s))
  {
    SortRowsPermutes(s);
    SortRowsLocallyDescending(s);
    var r := SortRows(s);
    if AllParse(s) {
      forall i | 0 <= i < |r| ensures InstantOf(r[i]).Some? {
        assert r[i] in multiset(s);
      }
      LocallyToChronologically(r);
    }
  }

  /**
   * Sorting rows that are already in comparator order changes nothing, so sorting
   * the sorted table again, as the next render does, shows the same rows.
   */
  lemma {:induction false} SortRowsKeepsSorted(s: seq<StockQuote>)
    requires LocallyDescending(s)
    ensures SortRows(s) == s
  {
    if s != [] {
      var init := s[..|s| - 1];
      assert LocallyDescending(init) by {
        forall i | 0 <= i < |init| - 1 ensures SortByTimestamp(init[i], init[i + 1]) <= 0 {
          assert init[i] == s[i] && init[i + 1] == s[i + 1];
        }
      }
      SortRowsKeepsSorted(init);
      assert |s| > 1 ==> init[|init| - 1] == s[|s| - 2];
      assert init + [s[|s| - 1]] == s;
    }
  }

  /**
   * With a malformed timestamp in the middle nothing moves: the sort leaves an older
   * record ahead of a newer one, so only neighbouring pairs are guaranteed in order.
   */
  lemma MalformedLeavesOlderFirst()
    ensures var older, bad, newer := QuoteAt(1, Some(1)), QuoteAt(2, None), QuoteAt(3, Some(2));
      SortRows([older, bad, newer]) == [older, bad, newer] &&
      !ChronologicallyDescending([older, newer])
  {
    var older, bad, newer := QuoteAt(1, Some(1)), QuoteAt(2, None), QuoteAt(3, Some(2));
    assert [older, bad, newer][..2] == [older, bad];
    assert [older, bad][..1] == [older];
    assert SortRows([older]) == [older];
    assert SortRows([older, bad]) == [older, bad];
    assert InstantOf([older, newer][1]).value > InstantOf([older, newer][0]).value;
  }

  /**
   * Where the insertion puts `x`: right after the last row that is not strictly
   * older than it, all strictly older rows that follow moving behind it.
   */
  lemma {:induction false} InsertRowSlot(s: seq<StockQuote>, j: nat, x: StockQuote)
    requires j <= |s|
    requires j == 0 || SortByTimestamp(s[j - 1], x) <= 0
    requires forall k :: j <= k < |s| ==> SortByTimestamp(s[k], x) > 0
    ensures InsertRow(s, x) == s[..j] + [x] + s[j..]
    decreases |s|
  {
    if j == |s| {
      assert s[..j] == s && s[j..] == [];
    } else {
      var init, last := s[..|s| - 1], s[|s| - 1];
      assert SortByTimestamp(last, x) > 0;
      assert InsertRow(s, x) == InsertRow(init, x) + [last];
      forall k | j <= k < |init| ensures SortByTimestamp(init[k], x) > 0 {
        assert init[k] == s[k];
      }
      assert j == 0 || init[j - 1] == s[j - 1];
      InsertRowSlot(init, j, x);
      assert init[..j] == s[..j];
      assert init[j..] + [last] == s[j..];
      calc {
        InsertRow(s, x);
        (init[..j] + [x] + init[j..]) + [last];
        init[..j] + [x] + (init[j..] + [last]);
        s[..j] + [x] + s[j..];
      }
    }
  }

  /** Sorting one more row inserts it into the sorted prefix. */
  lemma SortRowsExtend(s: seq<StockQuote>, i: nat)
    requires i < |s|
    ensures SortRows(s[..i + 1]) == InsertRow(SortRows(s[..i]), s[i])
  {
    assert s[..i + 1][..i] == s[..i];
  }

  /**
   * Moves `a[i]` left into the sorted prefix `a[..i]`, shifting each strictly
   * older row one place right.
   */
  method InsertInPlace(a: array<StockQuote>, i: nat)
    requires i < a.Length
    modifies a
    ensures a[..i + 1] == InsertRow(old(a[..i]), old(a[i]))
    ensures forall k :: i < k < a.Length ==> a[k] == old(a[k])
  {
    var key := a[i];
    ghost var sorted := a[..i];
    var j := i;
    while j > 0 && SortByTimestamp(a[j - 1], key) > 0
      invariant 0 <= j <= i
      invariant forall k :: 0 <= k < j ==> a[k] == sorted[k]
      invariant forall k :: j < k <= i ==> a[k] == sorted[k - 1]
      invariant forall k :: j <= k < i ==> SortByTimestamp(sorted[k], key) > 0
      invariant forall k :: i < k < a.Length ==> a[k] == old(a[k])
    {
      a[j] := a[j - 1];
      j := j - 1;
    }
    a[j] := key;
    InsertRowSlot(sorted, j, key);
    ghost var inserted := sorted[..j] + [key] + sorted[j..];
    forall k | 0 <= k <= i ensures a[k] == inserted[k] {
      if k < j {
        assert inserted[k] == sorted[k];
      } else if j < k {
        assert inserted[k] == sorted[k - 1];
      }
    }
    assert a[..i + 1] == inserted;
  }

  /** Sorting an array in place, one insertion at a time, as `apiData.sort` does. */
  method SortRowsInPlace(a: array<StockQuote>)
    modifies a
    ensures a[..] == SortRows(old(a[..]))
  {
    ghost var orig := a[..];
    var i := 0;
    while i < a.Length
      invariant 0 <= i <= a.Length
      invariant a[..i] == SortRows(orig[..i])
      invariant forall k :: i <= k < a.Length ==> a[k] == orig[k]
    {
      InsertInPlace(a, i);
      SortRowsExtend(orig, i);
      i := i + 1;
    }
    assert orig[..a.Length] == orig;
  }
}
