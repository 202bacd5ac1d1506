/** `parse_accel_data` of rss_client.py: the filter that keeps only the
    acceleration rows worth sending to the server. Rows are
    [stamp, x, y, z]; a row is kept when one of its three readings differs in
    magnitude by more than 10 from the reference row (the last row kept, or
    the first row looked at). The list it is given is consumed in place. */
module RssClient {
  import opened Wrappers

  /** One buffered row: the time stamp and the three readings, already
      integers (the `int(...)` conversions of the source). */
  datatype AccelRow = AccelRow(stamp: int, x: int, y: int, z: int)

  /** `tsh`: the largest change in magnitude that is still dropped. */
  const THRESHOLD: int := 10

  function Abs(v: int): (a: nat)
    ensures a == v || a == -v
  {
    if v < 0 then -v else v
  }

  /** Whether the magnitudes of `a` and `b` are more than THRESHOLD apart. */
  predicate Far(a: int, b: int) {
    Abs(Abs(a) - Abs(b)) > THRESHOLD
  }

  /** The keep test: some reading of `row` is far from the reference's. */
  predicate Differs(row: AccelRow, reference: AccelRow) {
    Far(row.x, reference.x) || Far(row.y, reference.y) || Far(row.z, reference.z)
  }

  /** The rows kept from `rows`, looked at in order, starting from the
      reference `reference`: a kept row becomes the new reference. */
  function KeptFrom(reference: AccelRow, rows: seq<AccelRow>): (kept: seq<AccelRow>)
    ensures |kept| <= |rows|
    decreases |rows|
  {
    if rows == [] then []
    else if Differs(rows[0], reference) then [rows[0]] + KeptFrom(rows[0], rows[1..])
    else KeptFrom(reference, rows[1..])
  }

  /** What the loop keeps of the rows it consumes: the first row is its own
      reference. */
  function Kept(consumed: seq<AccelRow>): seq<AccelRow>
    requires consumed != []
  {
    KeptFrom(consumed[0], consumed)
  }

  /** How many rows the `for row in b` loop gets through while popping the
      front of `b` each time: Python's list iterator stops once its index
      reaches the shrinking length, which happens after ceil(n / 2) rows. */
  function Consumed(n: nat): (m: nat)
    ensures m <= n
    ensures n > 0 ==> m > 0
    ensures m + m == n || m + m == n + 1
  {
    (n + 1) / 2
  }

  /** The caller's list `b`, which the filter pops from. */
  class RowBuffer {
    var rows: seq<AccelRow>

    constructor (rows: seq<AccelRow>)
      ensures this.rows == rows
    {
      this.rows := rows;
    }
  }

  /** `parse_accel_data(b)`: with at most one row nothing happens and the
      function returns None; otherwise the loop pops and examines the first
      ceil(n / 2) rows, returns those it kept and leaves the rest in `b`. */
  method ParseAccelData(b: RowBuffer) returns (r: Option<seq<AccelRow>>)
    modifies b
    ensures |old(b.rows)| <= 1 ==> r == None && b.rows == old(b.rows)
    ensures |old(b.rows)| > 1 ==>
              var m := Consumed(|old(b.rows)|);
              && r == Some(Kept(old(b.rows)[..m]))
              && b.rows == old(b.rows)[m..]
  {
    if |b.rows| <= 1 {
      return None;
    }
    ghost var rows := b.rows;
    ghost var m := Consumed(|rows|);
    var tbuf: seq<AccelRow> := [];
    var firstTime := true;
    var prow := b.rows[0];
    var index := 0;
    while index < |b.rows|
      invariant 0 <= index <= m
      invariant b.rows == rows[index..]
      invariant index + |b.rows| == |rows|
      invariant firstTime <==> index == 0
      invariant index == 0 ==> tbuf == []
      invariant index > 0 ==> tbuf + KeptFrom(prow, rows[index..m]) == Kept(rows[..m])
      decreases |b.rows| - index
    {
      var crow := b.rows[0];
      b.rows := b.rows[1..];
      if firstTime {
        prow := crow;
        firstTime := false;
        assert rows[index..m] == rows[..m];
      }
      ghost var rest := rows[index + 1..m];
      assert rows[index..m] == [crow] + rest;
      if Differs(crow, prow) {
        assert (tbuf + [crow]) + KeptFrom(crow, rest) == tbuf + ([crow] + KeptFrom(crow, rest));
        tbuf := tbuf + [crow];
        prow := crow;
      }
      index := index + 1;
    }
    assert index == m && rows[index..m] == [];
    assert tbuf + [] == tbuf;
    r := Some(tbuf);
  }

  /** The filter as its comment describes it: every row of `b` is popped and
      examined, and `b` is left empty. */
  method ParseAccelDataDrained(b: RowBuffer) returns (r: Option<seq<AccelRow>>)
    modifies b
    ensures |old(b.rows)| <= 1 ==> r == None && b.rows == old(b.rows)
    ensures |old(b.rows)| > 1 ==> r == Some(Kept(old(b.rows))) && b.rows == []
  {
    if |b.rows| <= 1 {
      return None;
    }
    ghost var rows := b.rows;
    var tbuf: seq<AccelRow> := [];
    var prow := b.rows[0];
    while |b.rows| > 0
      invariant tbuf + KeptFrom(prow, b.rows) == Kept(rows)
    {
      var crow := b.rows[0];
      var rest := b.rows[1..];
      assert b.rows == [crow] + rest;
      b.rows := rest;
      if Differs(crow, prow) {
        assert (tbuf + [crow]) + KeptFrom(crow, rest) == tbuf + ([crow] + KeptFrom(crow, rest));
        tbuf := tbuf + [crow];
        prow := crow;
      }
    }
    assert tbuf + [] == tbuf;
    r := Some(tbuf);
  }

  /** The first row looked at is never kept: it is compared with itself. */
  lemma FirstNeverKept(consumed: seq<AccelRow>)
    requires consumed != []
    ensures Kept(consumed) == KeptFrom(consumed[0], consumed[1..])
  {
    var r := consumed[0];
    assert !Differs(r, r);
  }

  /** `a` is `b` with some elements left out, order kept. */
  predicate Subsequence(a: seq<AccelRow>, b: seq<AccelRow>)
    decreases |b|
  {
    if a == [] then true
    else if b == [] then false
    else if a[0] == b[0] then Subsequence(a[1..], b[1..])
    else Subsequence(a, b[1..])
  }

  /** The kept rows are some of the rows looked at, in their order. */
  lemma {:induction false} KeptIsSubsequence(reference: AccelRow, rows: seq<AccelRow>)
    ensures Subsequence(KeptFrom(reference, rows), rows)
    decreases |rows|
  {
    if rows != [] {
      var kept := KeptFrom(reference, rows);
      if Differs(rows[0], reference) {
        KeptIsSubsequence(rows[0], rows[1..]);
        assert kept[1..] == KeptFrom(rows[0], rows[1..]);
      } else {
        KeptIsSubsequence(reference, rows[1..]);
        SubsequenceSkip(kept, rows);
      }
    }
  }

  /** Dropping the first row of `b` keeps every subsequence of the rest. */
  lemma {:induction false} SubsequenceSkip(a: seq<AccelRow>, b: seq<AccelRow>)
    requires b != [] && Subsequence(a, b[1..])
    ensures Subsequence(a, b)
    decreases |b|, |a|
  {
    if a != [] && a[0] == b[0] {
      SubsequenceTail(a, b[1..]);
    }
  }

  /** A subsequence stays one when its first element is dropped. */
  lemma {:induction false} SubsequenceTail(a: seq<AccelRow>, b: seq<AccelRow>)
    requires a != [] && Subsequence(a, b)
    ensures Subsequence(a[1..], b)
    decreases |b|, |a|
  {
    assert b != [];
    if a[0] == b[0] {
      if a[1..] != [] {
        SubsequenceSkip(a[1..], b);
      }
    } else {
      SubsequenceTail(a, b[1..]);
      if a[1..] != [] {
        SubsequenceSkip(a[1..], b);
      }
    }
  }

  /** Nothing is kept exactly when no row is far from the reference. */
  lemma {:induction false} NoneKept(reference: AccelRow, rows: seq<AccelRow>)
    ensures KeptFrom(reference, rows) == [] <==> forall i :: 0 <= i < |rows| ==> !Differs(rows[i], reference)
    decreases |rows|
  {
    if rows != [] {
      NoneKept(reference, rows[1..]);
      assert forall i :: 1 <= i < |rows| ==> rows[i] == rows[1..][i - 1];
    }
  }

  /** The first row kept is the first row far from the reference, and the
      rest are kept with it as the new reference. */
  lemma {:induction false} FirstKept(reference: AccelRow, rows: seq<AccelRow>)
    requires KeptFrom(reference, rows) != []
    ensures exists i :: 0 <= i < |rows|
              && Differs(rows[i], reference)
              && (forall j :: 0 <= j < i ==> !Differs(rows[j], reference))
              && KeptFrom(reference, rows) == [rows[i]] + KeptFrom(rows[i], rows[i + 1..])
    decreases |rows|
  {
    if Differs(rows[0], reference) {
      assert rows[1..] == rows[0 + 1..];
    } else {
      FirstKept(reference, rows[1..]);
      var i :| 0 <= i < |rows[1..]|
               && Differs(rows[1..][i], reference)
               && (forall j :: 0 <= j < i ==> !Differs(rows[1..][j], reference))
               && KeptFrom(reference, rows[1..]) == [rows[1..][i]] + KeptFrom(rows[1..][i], rows[1..][i + 1..]);
      assert rows[1..][i + 1..] == rows[i + 2..];
      assert forall j :: 1 <= j < i + 1 ==> rows[j] == rows[1..][j - 1];
    }
  }

  /** Six rows, five of them alike: the loop looks only at the first three,
      keeps none of them and leaves the far row unseen in `b`; draining the
      whole list keeps it. */
  lemma HalfLeftBehind()
    ensures var calm, far := AccelRow(0, 0, 0, 0), AccelRow(5, 100, 0, 0);
            var rows := [calm, calm, calm, calm, calm, far];
            && Consumed(|rows|) == 3
            && Kept(rows[..3]) == []
            && rows[3..] == [calm, calm, far]
            && Kept(rows) == [far]
  {
    var calm, far := AccelRow(0, 0, 0, 0), AccelRow(5, 100, 0, 0);
    var rows := [calm, calm, calm, calm, calm, far];
    NoneKept(calm, rows[..3]);
    assert Differs(far, calm);
    assert KeptFrom(calm, rows[5..]) == [far] by {
      assert rows[5..][1..] == [];
    }
    assert KeptFrom(calm, rows) == KeptFrom(calm, rows[5..]) by {
      assert !Differs(calm, calm);
      assert KeptFrom(calm, rows[4..]) == KeptFrom(calm, rows[5..]) by { assert rows[4..][1..] == rows[5..]; }
      assert KeptFrom(calm, rows[3..]) == KeptFrom(calm, rows[4..]) by { assert rows[3..][1..] == rows[4..]; }
      assert KeptFrom(calm, rows[2..]) == KeptFrom(calm, rows[3..]) by { assert rows[2..][1..] == rows[3..]; }
      assert KeptFrom(calm, rows[1..]) == KeptFrom(calm, rows[2..]) by { assert rows[1..][1..] == rows[2..]; }
    }
  }

  /** Every call with more than one row leaves floor(n / 2) rows unexamined. */
  lemma LeftBehind(n: nat)
    requires n > 1
    ensures n - Consumed(n) == n / 2 && n / 2 > 0
  {
  }
}
