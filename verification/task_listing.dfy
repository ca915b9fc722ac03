/** How the table is listed (ORDER BY priority DESC, rowid) and how the ready
    tasks of a listing are then sorted. */
module TaskListing {
  import opened Prelude
  import opened TaskTable

  /** ORDER BY priority DESC, rowid. Stored rows have different row ids; the
      task id only makes the order total. */
  predicate Before(rows: Rows, rowid: map<nat, nat>, a: nat, b: nat)
    requires a in rows && b in rows
  {
    rows[a].priority > rows[b].priority || (rows[a].priority == rows[b].priority && Older(rowid, a, b))
  }

  predicate Older(rowid: map<nat, nat>, a: nat, b: nat) {
    Count(rowid, a) < Count(rowid, b) || (Count(rowid, a) == Count(rowid, b) && a < b)
  }

  predicate Stored(rows: Rows, ids: seq<nat>) {
    forall id :: id in ids ==> id in rows
  }

  ghost predicate Ascending(rows: Rows, rowid: map<nat, nat>, ids: seq<nat>) {
    Stored(rows, ids) && forall i, j :: 0 <= i < j < |ids| ==> Before(rows, rowid, ids[i], ids[j])
  }

  ghost predicate Listing(rows: Rows, rowid: map<nat, nat>, ids: seq<nat>) {
    Ascending(rows, rowid, ids) && forall id :: id in rows ==> id in ids
  }

  lemma {:induction false} LeastExists(rows: Rows, rowid: map<nat, nat>, ids: set<nat>)
    requires ids <= rows.Keys && ids != {}
    ensures exists id :: id in ids && forall other :: other in ids && other != id ==> Before(rows, rowid, id, other)
    decreases |ids|
  {
    var x :| x in ids;
    var rest := ids - {x};
    assert ids == rest + {x};
    if rest == {} {
      assert forall other :: other in ids && other != x ==> Before(rows, rowid, x, other);
    } else {
      LeastExists(rows, rowid, rest);
      var y :| y in rest && forall other :: other in rest && other != y ==> Before(rows, rowid, y, other);
      var least := if Before(rows, rowid, x, y) then x else y;
      forall other | other in ids && other != least
        ensures Before(rows, rowid, least, other)
      {
        assert other == x || other == y || Before(rows, rowid, y, other);
      }
    }
  }

  /** The listed ids that are in chosen, in the order of the listing. */
  function Filter(ids: seq<nat>, chosen: set<nat>): (r: seq<nat>)
    ensures forall id :: id in r <==> id in ids && id in chosen
  {
    var n := |ids|;
    if n == 0 then []
    else
      assert ids == ids[..n - 1] + [ids[n - 1]];
      var rest := Filter(ids[..n - 1], chosen);
      if ids[n - 1] in chosen then rest + [ids[n - 1]] else rest
  }

  function Elements(s: seq<nat>): set<nat> {
    set x | x in s
  }

  /** A filtered listing is in order, hence without repetitions. */
  lemma {:induction false} FilterKeepsOrder(rows: Rows, rowid: map<nat, nat>, ids: seq<nat>, chosen: set<nat>)
    requires Ascending(rows, rowid, ids)
    ensures var r := Filter(ids, chosen); Ascending(rows, rowid, r) && NoRepeat(r)
    decreases |ids|
  {
    if ids != [] {
      var n := |ids| - 1;
      FilterKeepsOrder(rows, rowid, ids[..n], chosen);
      forall y | y in Filter(ids[..n], chosen)
        ensures y in rows && Before(rows, rowid, y, ids[n])
      {
        AllBeforeLast(rows, rowid, ids, y);
      }
    }
  }

  lemma {:induction false} FilterPrefix(ids: seq<nat>, k: nat, chosen: set<nat>)
    requires k < |ids|
    ensures Filter(ids[..k], chosen) <= Filter(ids, chosen)
    ensures ids[k] in chosen ==> |Filter(ids[..k], chosen)| < |Filter(ids, chosen)|
    decreases |ids|
  {
    var n := |ids| - 1;
    if k < n {
      FilterPrefix(ids[..n], k, chosen);
      assert ids[..n][..k] == ids[..k] && ids[..n][k] == ids[k];
    }
  }

  lemma ListingIsStored(rows: Rows, rowid: map<nat, nat>, ids: seq<nat>)
    requires Listing(rows, rowid, ids)
    ensures Stored(rows, ids)
  {
  }

  // ---- sorted(ready, key=(-priority, created_at)), which is stable

  predicate KeyAtMost(rows: Rows, a: nat, b: nat)
    requires a in rows && b in rows
  {
    || rows[a].priority > rows[b].priority
    || (rows[a].priority == rows[b].priority && rows[a].createdAt <= rows[b].createdAt)
  }

  function Placed(rows: Rows, s: seq<nat>, x: nat): seq<nat>
    requires Stored(rows, s) && x in rows
  {
    var n := |s|;
    if n == 0 || KeyAtMost(rows, s[n - 1], x) then s + [x] else Placed(rows, s[..n - 1], x) + [s[n - 1]]
  }

  function Sorted(rows: Rows, s: seq<nat>): (r: seq<nat>)
    requires Stored(rows, s)
    ensures Stored(rows, r)
  {
    var n := |s|;
    if n == 0 then []
    else
      PlacedContents(rows, Sorted(rows, s[..n - 1]), s[n - 1]);
      Placed(rows, Sorted(rows, s[..n - 1]), s[n - 1])
  }

  lemma {:induction false} PlacedContents(rows: Rows, s: seq<nat>, x: nat)
    requires Stored(rows, s) && x in rows
    ensures multiset(Placed(rows, s, x)) == multiset(s) + multiset{x}
    ensures forall y :: y in Placed(rows, s, x) <==> y in s || y == x
    decreases |s|
  {
    var n := |s|;
    if n > 0 && !KeyAtMost(rows, s[n - 1], x) {
      assert s == s[..n - 1] + [s[n - 1]];
      PlacedContents(rows, s[..n - 1], x);
    }
  }

  /** Highest priority first, then the oldest, then the first stored. */
  predicate Ahead(rows: Rows, rowid: map<nat, nat>, a: nat, b: nat)
    requires a in rows && b in rows
  {
    rows[a].priority > rows[b].priority
    || (rows[a].priority == rows[b].priority
        && (rows[a].createdAt < rows[b].createdAt || (rows[a].createdAt == rows[b].createdAt && Older(rowid, a, b))))
  }

  ghost predicate InOrder(rows: Rows, rowid: map<nat, nat>, s: seq<nat>) {
    Stored(rows, s) && forall i, j :: 0 <= i < j < |s| ==> Ahead(rows, rowid, s[i], s[j])
  }

  lemma {:induction false} PlacedInOrder(rows: Rows, rowid: map<nat, nat>, s: seq<nat>, x: nat)
    requires InOrder(rows, rowid, s) && x in rows && forall y :: y in s ==> Before(rows, rowid, y, x)
    ensures InOrder(rows, rowid, Placed(rows, s, x))
    decreases |s|
  {
    var n := |s|;
    if n == 0 {
    } else if KeyAtMost(rows, s[n - 1], x) {
      forall k | 0 <= k < n
        ensures Ahead(rows, rowid, s[k], x)
      {
        assert Before(rows, rowid, s[k], x);
        assert k < n - 1 ==> Ahead(rows, rowid, s[k], s[n - 1]);
      }
    } else {
      PlacedInOrder(rows, rowid, s[..n - 1], x);
      PlacedContents(rows, s[..n - 1], x);
      var r := Placed(rows, s[..n - 1], x);
      forall k | 0 <= k < |r|
        ensures r[k] in rows && Ahead(rows, rowid, r[k], s[n - 1])
      {
        assert r[k] in r;
        if r[k] != x {
          var m :| 0 <= m < n - 1 && s[m] == r[k];
        }
      }
    }
  }

  lemma SortedUnfolds(rows: Rows, s: seq<nat>)
    requires Stored(rows, s) && s != []
    ensures var n := |s| - 1;
            Stored(rows, s[..n]) && s[n] in rows && Sorted(rows, s) == Placed(rows, Sorted(rows, s[..n]), s[n])
  {
  }

  lemma AllBeforeLast(rows: Rows, rowid: map<nat, nat>, s: seq<nat>, y: nat)
    requires Ascending(rows, rowid, s) && s != [] && y in s[..|s| - 1]
    ensures Before(rows, rowid, y, s[|s| - 1])
  {
    var k :| 0 <= k < |s| - 1 && s[k] == y;
  }

  lemma {:induction false} SortedContents(rows: Rows, s: seq<nat>)
    requires Stored(rows, s)
    ensures multiset(Sorted(rows, s)) == multiset(s)
    decreases |s|
  {
    if s != [] {
      hide Placed, Sorted;
      var n := |s| - 1;
      SortedUnfolds(rows, s);
      SortedContents(rows, s[..n]);
      PlacedContents(rows, Sorted(rows, s[..n]), s[n]);
      assert s == s[..n] + [s[n]];
    }
  }

  lemma SortedMembers(rows: Rows, s: seq<nat>, y: nat)
    requires Stored(rows, s)
    ensures y in Sorted(rows, s) <==> y in s
  {
    SortedContents(rows, s);
    hide Sorted;
    assert y in Sorted(rows, s) <==> y in multiset(Sorted(rows, s));
  }

  /** Sorting a list in listing order. */
  lemma {:induction false} SortedInOrder(rows: Rows, rowid: map<nat, nat>, s: seq<nat>)
    requires Ascending(rows, rowid, s)
    ensures InOrder(rows, rowid, Sorted(rows, s))
    decreases |s|
  {
    if s != [] {
      hide Before, Placed, Sorted, InOrder;
      var n := |s| - 1;
      SortedUnfolds(rows, s);
      SortedInOrder(rows, rowid, s[..n]);
      var before := Sorted(rows, s[..n]);
      forall y | y in before
        ensures Before(rows, rowid, y, s[n])
      {
        SortedMembers(rows, s[..n], y);
        AllBeforeLast(rows, rowid, s, y);
      }
      PlacedInOrder(rows, rowid, before, s[n]);
    }
  }
}
