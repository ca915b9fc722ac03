/** How signals are listed (ORDER BY observed_at, rowid): a stored signal keeps
    its row, but one that was observed earlier is listed before it. */
module SignalListing {
  import opened Reconciliation

  function Placed(listed: seq<Signal>, s: Signal): seq<Signal>
    decreases |listed|
  {
    var n := |listed|;
    if n == 0 || listed[n - 1].observedAt <= s.observedAt then listed + [s]
    else Placed(listed[..n - 1], s) + [listed[n - 1]]
  }

  /** The listing of signals that were stored in this order. */
  function Listed(signals: seq<Signal>): seq<Signal>
    decreases |signals|
  {
    var n := |signals|;
    if n == 0 then [] else Placed(Listed(signals[..n - 1]), signals[n - 1])
  }

  /** The signals observed at one time. */
  function At(signals: seq<Signal>, time: int): (r: seq<Signal>)
    ensures |r| <= |signals|
    ensures forall s :: s in r <==> s in signals && s.observedAt == time
    decreases |signals|
  {
    var n := |signals|;
    if n == 0 then []
    else
      assert signals == signals[..n - 1] + [signals[n - 1]];
      At(signals[..n - 1], time) + if signals[n - 1].observedAt == time then [signals[n - 1]] else []
  }

  ghost predicate InOrder(signals: seq<Signal>) {
    forall i, j :: 0 <= i < j < |signals| ==> signals[i].observedAt <= signals[j].observedAt
  }

  lemma {:induction false} PlacedInOrder(listed: seq<Signal>, s: Signal)
    requires InOrder(listed)
    ensures InOrder(Placed(listed, s)) && multiset(Placed(listed, s)) == multiset(listed) + multiset{s}
    decreases |listed|
  {
    var n := |listed|;
    if n > 0 && listed[n - 1].observedAt > s.observedAt {
      var r := Placed(listed[..n - 1], s);
      PlacedInOrder(listed[..n - 1], s);
      assert listed == listed[..n - 1] + [listed[n - 1]];
      assert Placed(listed, s) == r + [listed[n - 1]];
      hide Placed;
      forall k | 0 <= k < |r|
        ensures r[k].observedAt <= listed[n - 1].observedAt
      {
        assert r[k] in multiset(r);
        assert r[k] == s || r[k] in listed[..n - 1];
      }
    }
  }

  lemma AtAppends(signals: seq<Signal>, s: Signal, time: int)
    ensures At(signals + [s], time) == At(signals, time) + if s.observedAt == time then [s] else []
  {
    assert (signals + [s])[..|signals|] == signals;
  }

  /** The newcomer goes behind the others of its time, which stay as they are. */
  lemma {:induction false} PlacedAt(listed: seq<Signal>, s: Signal, time: int)
    ensures At(Placed(listed, s), time) == At(listed, time) + if s.observedAt == time then [s] else []
    decreases |listed|
  {
    hide At;
    var n := |listed|;
    if n == 0 || listed[n - 1].observedAt <= s.observedAt {
      AtAppends(listed, s, time);
    } else {
      var last := listed[n - 1];
      PlacedAt(listed[..n - 1], s, time);
      AtAppends(listed[..n - 1], last, time);
      AtAppends(Placed(listed[..n - 1], s), last, time);
      assert listed == listed[..n - 1] + [last];
    }
  }

  /** The listing holds the signals, by time, those of one time as stored. */
  lemma {:induction false} ListedInOrder(signals: seq<Signal>)
    ensures InOrder(Listed(signals)) && multiset(Listed(signals)) == multiset(signals)
    ensures forall time :: At(Listed(signals), time) == At(signals, time)
    decreases |signals|
  {
    if signals != [] {
      var n := |signals| - 1;
      ListedInOrder(signals[..n]);
      PlacedInOrder(Listed(signals[..n]), signals[n]);
      assert signals == signals[..n] + [signals[n]];
      forall time
        ensures At(Listed(signals), time) == At(signals, time)
      {
        PlacedAt(Listed(signals[..n]), signals[n], time);
      }
    }
  }

  lemma ListedContents(signals: seq<Signal>)
    ensures |Listed(signals)| == |signals|
    ensures forall s :: s in Listed(signals) <==> s in signals
  {
    ListedInOrder(signals);
    assert |multiset(Listed(signals))| == |multiset(signals)|;
    assert forall s :: s in Listed(signals) <==> s in multiset(Listed(signals));
  }

  ghost predicate SameAtEachTime(a: seq<Signal>, b: seq<Signal>) {
    forall time :: At(a, time) == At(b, time)
  }

  lemma LastIsLatest(a: seq<Signal>, b: seq<Signal>)
    requires InOrder(a) && InOrder(b) && SameAtEachTime(a, b) && a != []
    ensures b != [] && a[|a| - 1] == b[|b| - 1]
  {
    var x := a[|a| - 1];
    assert x in At(a, x.observedAt) && x in b;
    var y := b[|b| - 1];
    assert y in At(b, y.observedAt) && y in a;
    assert x.observedAt == y.observedAt;
    assert At(a, x.observedAt)[|At(a, x.observedAt)| - 1] == x;
  }

  lemma SameWithoutLast(a: seq<Signal>, b: seq<Signal>, s: Signal)
    requires SameAtEachTime(a + [s], b + [s])
    ensures SameAtEachTime(a, b)
  {
    hide At;
    forall time
      ensures At(a, time) == At(b, time)
    {
      AtAppends(a, s, time);
      AtAppends(b, s, time);
      var x, y := At(a, time), At(b, time);
      assert At(a + [s], time) == At(b + [s], time);
      if s.observedAt == time {
        assert x + [s] == y + [s];
        assert x == (x + [s])[..|x|] && y == (y + [s])[..|y|];
      } else {
        assert x + [] == x && y + [] == y;
      }
    }
  }

  lemma {:induction false} OrderIsDetermined(a: seq<Signal>, b: seq<Signal>)
    requires InOrder(a) && InOrder(b) && SameAtEachTime(a, b)
    ensures a == b
    decreases |a|
  {
    hide At, SameAtEachTime;
    if a == [] {
      if b != [] {
        assert SameAtEachTime(b, a) by { SameIsSymmetric(a, b); }
        LastIsLatest(b, a);
      }
    } else {
      LastIsLatest(a, b);
      var n, m := |a| - 1, |b| - 1;
      assert a == a[..n] + [a[n]] && b == b[..m] + [a[n]];
      SameWithoutLast(a[..n], b[..m], a[n]);
      OrderIsDetermined(a[..n], b[..m]);
    }
  }

  lemma SameIsSymmetric(a: seq<Signal>, b: seq<Signal>)
    requires SameAtEachTime(a, b)
    ensures SameAtEachTime(b, a)
  {
  }

  /** Signals may arrive in any order: the listing, and with it the table and
      the winners, depends only on the order among those of one time. */
  lemma ArrivalOrderIsIrrelevant(a: seq<Signal>, b: seq<Signal>)
    ensures Listed(a) == Listed(b) <==> SameAtEachTime(a, b)
  {
    ListedInOrder(a);
    ListedInOrder(b);
    if SameAtEachTime(a, b) {
      OrderIsDetermined(Listed(a), Listed(b));
    } else {
      var time :| At(a, time) != At(b, time);
      assert At(Listed(a), time) != At(Listed(b), time);
    }
  }
}
