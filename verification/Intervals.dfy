/** The registry of settled nonces: intervals that stand for a set, kept in its canonical form. */
module Intervals {
  import opened Base

  type Interval = (nat, nat)

  predicate Covers(x: Interval, n: nat) {
    x.0 <= n <= x.1
  }

  /** The set a list of intervals stands for. */
  predicate Has(r: seq<Interval>, n: nat) {
    exists i :: 0 <= i < |r| && Covers(r[i], n)
  }

  predicate Proper(r: seq<Interval>) {
    forall i :: 0 <= i < |r| ==> r[i].0 <= r[i].1
  }

  predicate SortedByStart(r: seq<Interval>) {
    forall i, j :: 0 <= i < j < |r| ==> r[i].0 <= r[j].0
  }

  /** Sorted and disjoint. */
  predicate Separated(r: seq<Interval>) {
    Proper(r) && forall i, j :: 0 <= i < j < |r| ==> r[i].1 < r[j].0
  }

  /** Sorted, with at least one missing nonce between neighbours. */
  predicate Canonical(r: seq<Interval>) {
    Proper(r) && forall i, j :: 0 <= i < j < |r| ==> r[i].1 + 1 < r[j].0
  }

  // ---------- sorting by start ----------

  function Insert(x: Interval, r: seq<Interval>): seq<Interval> {
    if r == [] || x.0 <= r[0].0 then [x] + r else [r[0]] + Insert(x, r[1..])
  }

  function Sort(r: seq<Interval>): seq<Interval> {
    if r == [] then [] else Insert(r[0], Sort(r[1..]))
  }

  lemma {:induction false} InsertMembers(x: Interval, r: seq<Interval>)
    ensures forall y :: y in Insert(x, r) <==> y == x || y in r
  {
    if r != [] && x.0 > r[0].0 {
      InsertMembers(x, r[1..]);
      assert r == [r[0]] + r[1..];
    }
  }

  lemma {:induction false} InsertSorts(x: Interval, r: seq<Interval>)
    requires SortedByStart(r)
    ensures SortedByStart(Insert(x, r))
  {
    if r != [] && x.0 > r[0].0 {
      InsertSorts(x, r[1..]);
      InsertMembers(x, r[1..]);
      var rest := Insert(x, r[1..]);
      forall j | 0 <= j < |rest|
        ensures r[0].0 <= rest[j].0
      {
        assert rest[j] in rest;
      }
    }
  }

  lemma {:induction false} SortSorts(r: seq<Interval>)
    ensures SortedByStart(Sort(r)) && forall y :: y in Sort(r) <==> y in r
  {
    if r != [] {
      SortSorts(r[1..]);
      InsertSorts(r[0], Sort(r[1..]));
      InsertMembers(r[0], Sort(r[1..]));
      assert r == [r[0]] + r[1..];
    }
  }

  /** The set and what is said of each interval alone depend only on which intervals there are. */
  lemma SameMembers(r: seq<Interval>, q: seq<Interval>)
    requires forall x :: x in q <==> x in r
    ensures Proper(q) <==> Proper(r)
    ensures forall n :: Has(q, n) <==> Has(r, n)
  {
    assert forall i :: 0 <= i < |q| ==> q[i] in r;
    assert forall i :: 0 <= i < |r| ==> r[i] in q;
  }

  /** At least one nonce lies between the two intervals. */
  predicate Apart(x: Interval, y: Interval) {
    x.1 + 1 < y.0 || y.1 + 1 < x.0
  }

  predicate AllApart(r: seq<Interval>) {
    forall i, j :: 0 <= i < j < |r| ==> Apart(r[i], r[j])
  }

  lemma {:induction false} InsertApart(x: Interval, r: seq<Interval>)
    requires AllApart(r) && forall y :: y in r ==> Apart(x, y)
    ensures AllApart(Insert(x, r))
  {
    if r != [] && x.0 > r[0].0 {
      InsertApart(x, r[1..]);
      InsertMembers(x, r[1..]);
      var rest := Insert(x, r[1..]);
      forall j | 0 <= j < |rest|
        ensures Apart(r[0], rest[j])
      {
        assert rest[j] in rest;
        assert r[0] in r;
      }
    }
  }

  lemma {:induction false} SortApart(r: seq<Interval>)
    requires AllApart(r)
    ensures AllApart(Sort(r))
  {
    if r != [] {
      SortApart(r[1..]);
      SortSorts(r[1..]);
      InsertApart(r[0], Sort(r[1..]));
    }
  }

  lemma SortedApartIsCanonical(r: seq<Interval>)
    requires Proper(r) && SortedByStart(r) && AllApart(r)
    ensures Canonical(r)
  {
  }

  // ---------- merging ----------

  /** One turn of the merging loop: open a new interval or stretch the last one. */
  function Push(m: seq<Interval>, x: Interval): seq<Interval> {
    if m == [] || x.0 > m[|m| - 1].1 then m + [x]
    else m[|m| - 1 := (m[|m| - 1].0, Max(x.1, m[|m| - 1].1))]
  }

  function Merge(r: seq<Interval>): seq<Interval> {
    if r == [] then [] else Push(Merge(r[..|r| - 1]), r[|r| - 1])
  }

  /** Bounds of merged intervals are bounds of given ones. */
  predicate BoundsFrom(m: seq<Interval>, r: seq<Interval>) {
    forall i :: 0 <= i < |m| ==> (exists x :: x in r && x.0 == m[i].0) && (exists x :: x in r && x.1 == m[i].1)
  }

  lemma PushKeeps(m: seq<Interval>, x: Interval)
    requires Separated(m) && x.0 <= x.1
    requires m != [] ==> m[|m| - 1].0 <= x.0
    ensures Separated(Push(m, x)) && Push(m, x) != []
    ensures Push(m, x)[|Push(m, x)| - 1].0 <= x.0
    ensures forall n :: Has(Push(m, x), n) <==> Has(m, n) || Covers(x, n)
  {
    var p := Push(m, x);
    forall n
      ensures Has(p, n) <==> Has(m, n) || Covers(x, n)
    {
      if Has(m, n) {
        var i :| 0 <= i < |m| && Covers(m[i], n);
        assert Covers(p[i], n);
      }
      if Covers(x, n) {
        assert Covers(p[|p| - 1], n);
      }
      if Has(p, n) {
        var i :| 0 <= i < |p| && Covers(p[i], n);
        assert i < |m| - 1 ==> Covers(m[i], n);
        assert i == |m| - 1 ==> Covers(m[i], n) || Covers(x, n);
      }
    }
  }

  lemma HasAppend(r: seq<Interval>, x: Interval)
    ensures forall n :: Has(r + [x], n) <==> Has(r, n) || Covers(x, n)
  {
    forall n
      ensures Has(r + [x], n) <==> Has(r, n) || Covers(x, n)
    {
      if Has(r, n) {
        var i :| 0 <= i < |r| && Covers(r[i], n);
        assert Covers((r + [x])[i], n);
      }
      if Covers(x, n) {
        assert Covers((r + [x])[|r|], n);
      }
    }
  }

  /** Merging sorted intervals keeps the set and leaves no overlap. */
  lemma {:induction false} MergeKeeps(r: seq<Interval>)
    requires Proper(r) && SortedByStart(r)
    ensures Separated(Merge(r)) && BoundsFrom(Merge(r), r)
    ensures r != [] ==> Merge(r) != [] && Merge(r)[|Merge(r)| - 1].0 <= r[|r| - 1].0
    ensures forall n :: Has(Merge(r), n) <==> Has(r, n)
  {
    if r != [] {
      var front, x := r[..|r| - 1], r[|r| - 1];
      MergeKeeps(front);
      assert r == front + [x];
      assert front != [] ==> front[|front| - 1] == r[|r| - 2];
      hide Has, Separated, BoundsFrom, Push;
      PushKeeps(Merge(front), x);
      HasAppend(front, x);
      PushBounds(Merge(front), x, front);
    }
  }

  lemma PushBounds(m: seq<Interval>, x: Interval, r: seq<Interval>)
    requires BoundsFrom(m, r)
    ensures BoundsFrom(Push(m, x), r + [x])
  {
    var p, q := Push(m, x), r + [x];
    assert x in q && forall y :: y in r ==> y in q;
    forall i | 0 <= i < |p|
      ensures (exists y :: y in q && y.0 == p[i].0) && (exists y :: y in q && y.1 == p[i].1)
    {
      if i < |m| {
        var a :| a in r && a.0 == m[i].0;
        var b :| b in r && b.1 == m[i].1;
        assert a in q && b in q;
      }
    }
  }

  // ---------- adding a nonce ----------

  /** An interval next to the nonce grows to take it in. */
  function Stretch(x: Interval, nonce: nat): Interval {
    if x.0 == nonce + 1 then (nonce, x.1) else if x.1 + 1 == nonce then (x.0, nonce) else x
  }

  function StretchAll(r: seq<Interval>, nonce: nat): (q: seq<Interval>)
    ensures |q| == |r| && forall i :: 0 <= i < |r| ==> q[i] == Stretch(r[i], nonce)
  {
    if r == [] then [] else StretchAll(r[..|r| - 1], nonce) + [Stretch(r[|r| - 1], nonce)]
  }

  function AddIfMissing(r: seq<Interval>, nonce: nat): seq<Interval> {
    if Has(r, nonce) then r else r + [(nonce, nonce)]
  }

  /** Looking at an interval computes `nonce + 1`, and `nonce - 1` unless it starts right after the nonce. */
  predicate Traps(r: seq<Interval>, nonce: nat) {
    && r != []
    && (nonce + 1 > U64_MAX || (nonce == 0 && exists i :: 0 <= i < |r| && r[i].0 != 1))
  }

  /** `update_bridge_registry` on the registry of one chain. */
  function Record(r: seq<Interval>, nonce: nat): Result<seq<Interval>> {
    if Traps(r, nonce) then Err(Trap)
    else Ok(Sort(AddIfMissing(Merge(Sort(StretchAll(r, nonce))), nonce)))
  }

  /** No interval ends right before one starts, and none ends or starts right beside the nonce. */
  ghost predicate NoTouch(r: seq<Interval>, nonce: nat) {
    && (forall x, y :: x in r && y in r ==> x.1 + 1 != y.0)
    && (forall x :: x in r ==> x.0 != nonce + 1 && x.1 + 1 != nonce)
  }

  ghost predicate Beside(r: seq<Interval>, nonce: nat) {
    exists i :: 0 <= i < |r| && (r[i].0 == nonce + 1 || r[i].1 + 1 == nonce)
  }

  lemma StretchPair(x: Interval, y: Interval, nonce: nat)
    requires x.0 <= x.1 && y.0 <= y.1 && (x == y || Apart(x, y))
    ensures Stretch(x, nonce).1 + 1 != Stretch(y, nonce).0
    ensures Stretch(x, nonce).0 != nonce + 1 && Stretch(x, nonce).1 + 1 != nonce
  {
  }

  lemma StretchTouchesNot(r: seq<Interval>, nonce: nat)
    requires Canonical(r)
    ensures Proper(StretchAll(r, nonce)) && NoTouch(StretchAll(r, nonce), nonce)
  {
    var q := StretchAll(r, nonce);
    forall i, j | 0 <= i < |q| && 0 <= j < |q|
      ensures q[i].1 + 1 != q[j].0 && q[i].0 != nonce + 1 && q[i].1 + 1 != nonce
    {
      assert Apart(r[i], r[j]) || i == j;
      StretchPair(r[i], r[j], nonce);
    }
  }

  lemma StretchedSet(r: seq<Interval>, nonce: nat)
    requires Proper(r)
    ensures forall n :: Has(StretchAll(r, nonce), n) <==> Has(r, n) || (n == nonce && Beside(r, nonce))
  {
    var q := StretchAll(r, nonce);
    forall n
      ensures Has(q, n) <==> Has(r, n) || (n == nonce && Beside(r, nonce))
    {
      if Has(r, n) {
        var i :| 0 <= i < |r| && Covers(r[i], n);
        assert Covers(q[i], n);
      }
      if n == nonce && Beside(r, nonce) {
        var i :| 0 <= i < |r| && (r[i].0 == nonce + 1 || r[i].1 + 1 == nonce);
        assert Covers(q[i], n);
      }
      if Has(q, n) {
        var i :| 0 <= i < |q| && Covers(q[i], n);
        assert Covers(r[i], n) || (n == nonce && (r[i].0 == nonce + 1 || r[i].1 + 1 == nonce));
      }
    }
  }

  lemma MergedApart(m: seq<Interval>, r: seq<Interval>, nonce: nat)
    requires Separated(m) && BoundsFrom(m, r) && NoTouch(r, nonce)
    ensures AllApart(m) && NoTouch(m, nonce)
  {
    forall i, j | 0 <= i < |m| && 0 <= j < |m|
      ensures m[i].1 + 1 != m[j].0
    {
      var x :| x in r && x.1 == m[i].1;
      var y :| y in r && y.0 == m[j].0;
    }
    forall x | x in m
      ensures x.0 != nonce + 1 && x.1 + 1 != nonce
    {
      var i :| 0 <= i < |m| && m[i] == x;
      var y :| y in r && y.0 == m[i].0;
      var z :| z in r && z.1 == m[i].1;
    }
  }

  lemma AddedApart(m: seq<Interval>, nonce: nat)
    requires Separated(m) && AllApart(m) && NoTouch(m, nonce)
    ensures Proper(AddIfMissing(m, nonce)) && AllApart(AddIfMissing(m, nonce))
    ensures forall n :: Has(AddIfMissing(m, nonce), n) <==> Has(m, n) || n == nonce
  {
    HasAppend(m, (nonce, nonce));
    if !Has(m, nonce) {
      forall i | 0 <= i < |m|
        ensures Apart(m[i], (nonce, nonce))
      {
        assert m[i] in m && !Covers(m[i], nonce);
      }
    }
  }

  /** Recording a nonce adds exactly that nonce to the set and keeps the registry canonical, unless the
      machine arithmetic traps. */
  lemma RecordAdds(r: seq<Interval>, nonce: nat)
    requires Canonical(r) && Record(r, nonce).Ok?
    ensures Canonical(Record(r, nonce).value)
    ensures forall n :: Has(Record(r, nonce).value, n) <==> Has(r, n) || n == nonce
  {
    hide Has, NoTouch, AllApart, SortedByStart, BoundsFrom, Separated, Proper, Canonical, Traps, Merge, Sort, AddIfMissing;
    var q := StretchAll(r, nonce);
    StretchTouchesNot(r, nonce);
    CanonicalProper(r);
    StretchedSet(r, nonce);
    SortSorts(q);
    SameMembers(q, Sort(q));
    NoTouchMembers(q, Sort(q), nonce);
    MergeKeeps(Sort(q));
    var m := Merge(Sort(q));
    MergedApart(m, Sort(q), nonce);
    AddedApart(m, nonce);
    var a := AddIfMissing(m, nonce);
    SortSorts(a);
    SameMembers(a, Sort(a));
    SortApart(a);
    SortedApartIsCanonical(Sort(a));
  }

  lemma CanonicalProper(r: seq<Interval>)
    requires Canonical(r)
    ensures Proper(r)
  {
  }

  lemma NoTouchMembers(r: seq<Interval>, q: seq<Interval>, nonce: nat)
    requires NoTouch(r, nonce) && forall x :: x in q <==> x in r
    ensures NoTouch(q, nonce)
  {
  }

  // ---------- the canonical form is unique ----------

  /** Two canonical registries that stand for the same set are the same registry. */
  lemma {:induction false} CanonicalUnique(r: seq<Interval>, q: seq<Interval>)
    requires Canonical(r) && Canonical(q) && forall n :: Has(r, n) <==> Has(q, n)
    ensures r == q
    decreases |r|
  {
    if r == [] {
      if q != [] {
        assert Covers(q[0], q[0].0);
        assert Has(q, q[0].0);
      }
    } else {
      assert Covers(r[0], r[0].0) && Has(r, r[0].0);
      assert q != [];
      FirstBelow(r, q);
      FirstBelow(q, r);
      RestHas(r);
      RestHas(q);
      CanonicalUnique(r[1..], q[1..]);
    }
  }

  /** The first interval of a list reaches no further than that of another list for the same set. */
  lemma FirstBelow(r: seq<Interval>, q: seq<Interval>)
    requires Canonical(r) && Canonical(q) && r != [] && q != [] && forall n :: Has(r, n) <==> Has(q, n)
    ensures q[0].0 <= r[0].0
    ensures r[0].0 == q[0].0 ==> r[0].1 <= q[0].1
  {
    assert Covers(r[0], r[0].0) && Has(r, r[0].0);
    var i :| 0 <= i < |q| && Covers(q[i], r[0].0);
    assert i > 0 ==> q[0].1 + 1 < q[i].0;
    if r[0].0 == q[0].0 && r[0].1 > q[0].1 {
      assert Covers(r[0], q[0].1 + 1) && Has(r, q[0].1 + 1);
      GapAfterFirst(q);
    }
  }

  lemma GapAfterFirst(q: seq<Interval>)
    requires Canonical(q) && q != []
    ensures !Has(q, q[0].1 + 1)
  {
  }

  lemma RestHas(r: seq<Interval>)
    requires Canonical(r) && r != []
    ensures forall n :: Has(r[1..], n) <==> Has(r, n) && n > r[0].1
  {
    forall n
      ensures Has(r[1..], n) <==> Has(r, n) && n > r[0].1
    {
      if Has(r[1..], n) {
        var i :| 0 <= i < |r| - 1 && Covers(r[1..][i], n);
        assert Covers(r[i + 1], n);
        assert r[0].1 + 1 < r[i + 1].0;
      }
      if Has(r, n) && n > r[0].1 {
        var i :| 0 <= i < |r| && Covers(r[i], n);
        assert Covers(r[1..][i - 1], n);
      }
    }
  }

  /** The order in which two nonces are settled leaves no trace in the registry. */
  lemma RecordCommutes(r: seq<Interval>, x: nat, y: nat)
    requires Canonical(r) && Record(r, x).Ok? && Record(r, y).Ok?
    requires Record(Record(r, x).value, y).Ok? && Record(Record(r, y).value, x).Ok?
    ensures Record(Record(r, x).value, y) == Record(Record(r, y).value, x)
  {
    hide Record, Canonical, Has;
    RecordAdds(r, x);
    RecordAdds(r, y);
    RecordAdds(Record(r, x).value, y);
    RecordAdds(Record(r, y).value, x);
    CanonicalUnique(Record(Record(r, x).value, y).value, Record(Record(r, y).value, x).value);
  }
}
