/** The comparison of one table in two databases, page by page in key order. */
module TableCompare {
  import opened Records

  const PAGE: nat := 1000

  datatype Verdict = Same | MoreInSecond | MoreInFirst | PageSizesDiffer | RecordsDiffer

  /** A stream of pages: each full but the last, and none empty. */
  class Paginator {
    const records: seq<Row>
    var next: nat

    constructor (records: seq<Row>)
      ensures this.records == records && next == 0 && Valid()
    {
      this.records := records;
      next := 0;
    }

    ghost predicate Valid()
      reads this
    {
      next <= |records|
    }

    method NextPage() returns (page: Option<seq<Row>>)
      requires Valid()
      modifies this
      ensures Valid()
      ensures page.None? <==> old(next) == |records|
      ensures page.None? ==> next == old(next)
      ensures page.Some? ==> old(next) < next <= |records| && page.value == records[old(next)..next]
      ensures page.Some? ==> next == if old(next) + 1000 < |records| then old(next) + 1000 else |records|
    {
      if next == |records| {
        return None;
      }
      var end := if next + PAGE < |records| then next + PAGE else |records|;
      page := Some(records[next..end]);
      next := end;
    }
  }

  // `compare_tables`: no difference is found exactly when there is none, whatever the number of pages.
  method CompareTables(first: seq<Row>, second: seq<Row>) returns (verdict: Verdict)
    ensures verdict == Same <==> first == second
    ensures verdict == MoreInFirst ==> |first| > |second| && first[..|second|] == second
    ensures verdict == MoreInSecond ==> |second| > |first| && second[..|first|] == first
  {
    var paginator1 := new Paginator(first);
    var paginator2 := new Paginator(second);
    while true
      invariant paginator1.Valid() && paginator2.Valid() && paginator1.next == paginator2.next
      invariant paginator1.records == first && paginator2.records == second
      invariant first[..paginator1.next] == second[..paginator1.next]
      decreases |first| - paginator1.next
    {
      var done := paginator1.next;
      var page1 := paginator1.NextPage();
      var page2 := paginator2.NextPage();
      if page1.None? && page2.None? {
        assert first[..done] == first && second[..done] == second;
        return Same;
      }
      if page1.None? {
        assert first[..done] == first;
        return MoreInSecond;
      }
      if page2.None? {
        assert second[..done] == second;
        return MoreInFirst;
      }
      if |page1.value| != |page2.value| {
        return PageSizesDiffer;
      }
      for i := 0 to |page1.value|
        invariant page1.value[..i] == page2.value[..i]
      {
        if page1.value[i] != page2.value[i] {
          assert first[done + i] == page1.value[i] && second[done + i] == page2.value[i];
          return RecordsDiffer;
        }
      }
      var end := paginator1.next;
      assert page1.value == page1.value[..|page1.value|] == page2.value[..|page1.value|] == page2.value;
      assert first[..end] == first[..done] + page1.value && second[..end] == second[..done] + page2.value;
    }
  }

  // ---- Tables and their listings.

  function KeyAt(records: seq<Row>, i: nat): int
    requires i < |records|
  {
    if |records[i]| > 0 && records[i][0].Int? then records[i][0].i else 0
  }

  predicate ListedAt(records: seq<Row>, rows: Rows, i: nat)
    requires i < |records|
  {
    Lookup(rows, Int(KeyAt(records, i))) == Some(records[i])
  }

  predicate Rising(records: seq<Row>, i: nat, j: nat)
    requires i < j < |records|
  {
    KeyAt(records, i) < KeyAt(records, j)
  }

  predicate Finds(records: seq<Row>, k: Key) {
    exists i :: 0 <= i < |records| && Int(KeyAt(records, i)) == k
  }

  // The records of a table with integer keys, in key order.
  ghost predicate Lists(records: seq<Row>, rows: Rows) {
    && (forall i :: 0 <= i < |records| ==> ListedAt(records, rows, i))
    && (forall i, j :: 0 <= i < j < |records| ==> Rising(records, i, j))
    && (forall k :: k in rows ==> Finds(records, k))
  }

  lemma KeyOrder(a: seq<Row>, rows: Rows, i: nat, j: nat)
    requires Lists(a, rows) && i < |a| && j < |a|
    ensures i < j ==> KeyAt(a, i) < KeyAt(a, j)
    ensures j < i ==> KeyAt(a, j) < KeyAt(a, i)
  {
    assert i < j ==> Rising(a, i, j);
    assert j < i ==> Rising(a, j, i);
  }

  // Where two listings of a table have agreed so far, they agree once more.
  lemma AgreeOnceMore(a: seq<Row>, b: seq<Row>, rows: Rows, n: nat)
    requires Lists(a, rows) && Lists(b, rows) && n < |a| && n <= |b|
    requires forall i :: 0 <= i < n ==> a[i] == b[i]
    ensures n < |b| && a[n] == b[n]
  {
    assert ListedAt(a, rows, n) && Finds(b, Int(KeyAt(a, n)));
    var j :| 0 <= j < |b| && Int(KeyAt(b, j)) == Int(KeyAt(a, n));
    if j < |a| {
      KeyOrder(a, rows, j, n);
    }
    assert n <= j;
    assert ListedAt(b, rows, n) && Finds(a, Int(KeyAt(b, n)));
    var i :| 0 <= i < |a| && Int(KeyAt(a, i)) == Int(KeyAt(b, n));
    if i < |b| {
      KeyOrder(b, rows, i, n);
    }
    KeyOrder(b, rows, n, j);
    KeyOrder(a, rows, n, i);
  }

  lemma {:induction false} ListingsAgree(a: seq<Row>, b: seq<Row>, rows: Rows, n: nat)
    requires Lists(a, rows) && Lists(b, rows) && n <= |a|
    ensures n <= |b| && forall i :: 0 <= i < n ==> a[i] == b[i]
  {
    if n > 0 {
      ListingsAgree(a, b, rows, n - 1);
      AgreeOnceMore(a, b, rows, n - 1);
    }
  }

  // A table has one listing, so comparing listings compares tables.
  lemma ListingsCompareTables(a: seq<Row>, b: seq<Row>, m: Rows, n: Rows)
    requires Lists(a, m) && Lists(b, n)
    ensures a == b <==> m == n
  {
    if m == n {
      ListingsAgree(a, b, m, |a|);
      ListingsAgree(b, a, m, |b|);
    }
    if a == b {
      forall k | k in m ensures k in n && m[k] == n[k] {
        SameEntry(a, m, n, k);
      }
      forall k | k in n ensures k in m {
        SameEntry(a, n, m, k);
      }
    }
  }

  lemma SameEntry(a: seq<Row>, m: Rows, n: Rows, k: Key)
    requires Lists(a, m) && Lists(a, n) && k in m
    ensures k in n && m[k] == n[k]
  {
    assert Finds(a, k);
    var i :| 0 <= i < |a| && Int(KeyAt(a, i)) == k;
    assert ListedAt(a, m, i) && ListedAt(a, n, i);
  }
}
