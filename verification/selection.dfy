/** Choosing the next action: the least candidate under a four-part key. */
module Selection {

  datatype Candidate = Candidate(name: string, improvement: real, timeCost: real, risk: real, regression: real) {
    ghost predicate Valid() {
      improvement >= 0.0 && timeCost > 0.0 && risk >= 0.0 && 0.0 <= regression <= 1.0
    }

    function Utility(): real
      requires timeCost + risk + regression != 0.0
    {
      improvement / (timeCost + risk + regression)
    }
  }

  /** Utility is the improvement per unit of cost, risk and regression. */
  lemma UtilityIsImprovementPerCost(c: Candidate)
    requires c.Valid()
    ensures c.timeCost + c.risk + c.regression > 0.0
    ensures c.Utility() * (c.timeCost + c.risk + c.regression) == c.improvement
  {
  }

  type Action = c: Candidate | c.Valid() witness Candidate([], 0.0, 1.0, 0.0, 0.0)

  /** Comparison of names by code points. */
  predicate NameLess(a: string, b: string) {
    b != [] && (a == [] || a[0] < b[0] || (a[0] == b[0] && NameLess(a[1..], b[1..])))
  }

  /** The first difference decides; a proper prefix comes first. */
  lemma {:induction false} NameLessMeaning(a: string, b: string)
    ensures NameLess(a, b) <==>
              exists k :: 0 <= k <= |a| && k <= |b| && a[..k] == b[..k] && k < |b| && (k == |a| || a[k] < b[k])
    decreases |a|
  {
    if a == [] {
      if b != [] {
        assert a[..0] == b[..0];
      }
    } else if b != [] {
      NameLessMeaning(a[1..], b[1..]);
      if k :| 0 <= k <= |a| && k <= |b| && a[..k] == b[..k] && k < |b| && (k == |a| || a[k] < b[k]) {
        if k > 0 {
          assert a[0] == a[..k][0] == b[..k][0] == b[0];
          assert a[1..][..k - 1] == a[..k][1..] == b[..k][1..] == b[1..][..k - 1];
        }
      }
      if NameLess(a, b) {
        if a[0] < b[0] {
          assert a[..0] == b[..0];
        } else {
          var k :| 0 <= k <= |a[1..]| && k <= |b[1..]| && a[1..][..k] == b[1..][..k] && k < |b[1..]|
                   && (k == |a[1..]| || a[1..][k] < b[1..][k]);
          assert a[..k + 1] == [a[0]] + a[1..][..k] && b[..k + 1] == [b[0]] + b[1..][..k];
        }
      }
    }
  }

  lemma {:induction false} NameLessTotal(a: string, b: string)
    ensures a == b || NameLess(a, b) || NameLess(b, a)
    ensures !(NameLess(a, b) && NameLess(b, a)) && !NameLess(a, a)
    decreases |a| + |b|
  {
    if a != [] && b != [] && a[0] == b[0] {
      NameLessTotal(a[1..], b[1..]);
      assert a == [a[0]] + a[1..] && b == [b[0]] + b[1..];
    }
    NotLessThanItself(a);
  }

  lemma {:induction false} NotLessThanItself(a: string)
    ensures !NameLess(a, a)
  {
    if a != [] {
      NotLessThanItself(a[1..]);
    }
  }

  lemma {:induction false} NameLessTransitive(a: string, b: string, c: string)
    requires NameLess(a, b) && NameLess(b, c)
    ensures NameLess(a, c)
  {
    if a != [] && a[0] == b[0] && b[0] == c[0] {
      NameLessTransitive(a[1..], b[1..], c[1..]);
    }
  }

  /** a's key (-utility, -improvement, time cost, name) is below b's. */
  predicate Precedes(a: Action, b: Action) {
    a.Utility() > b.Utility() || (a.Utility() == b.Utility() &&
    (a.improvement > b.improvement || (a.improvement == b.improvement &&
    (a.timeCost < b.timeCost || (a.timeCost == b.timeCost && NameLess(a.name, b.name))))))
  }

  lemma PrecedesTotal(a: Action, b: Action)
    ensures a.name == b.name || Precedes(a, b) || Precedes(b, a)
    ensures !(Precedes(a, b) && Precedes(b, a))
  {
    NameLessTotal(a.name, b.name);
  }

  lemma PrecedesTransitive(a: Action, b: Action, c: Action)
    requires Precedes(a, b) && Precedes(b, c)
    ensures Precedes(a, c)
  {
    if NameLess(a.name, b.name) && NameLess(b.name, c.name) {
      NameLessTransitive(a.name, b.name, c.name);
    }
  }

  predicate UniqueNames(cs: seq<Action>) {
    forall i, j :: 0 <= i < j < |cs| ==> cs[i].name != cs[j].name
  }

  /** min(): left to right, replaced only by a strictly smaller key. */
  function Select(cs: seq<Action>): Action
    requires cs != []
  {
    var n := |cs| - 1;
    if n == 0 then cs[0]
    else
      var best := Select(cs[..n]);
      if Precedes(cs[n], best) then cs[n] else best
  }

  lemma {:induction false} SelectIsLeast(cs: seq<Action>)
    requires cs != []
    ensures Select(cs) in cs && forall c :: c in cs ==> !Precedes(c, Select(cs))
  {
    var n := |cs| - 1;
    PrecedesTotal(cs[n], cs[n]);
    if n > 0 {
      var best := Select(cs[..n]);
      SelectIsLeast(cs[..n]);
      assert cs == cs[..n] + [cs[n]];
      if Precedes(cs[n], best) {
        forall c | c in cs[..n]
          ensures !Precedes(c, cs[n])
        {
          if Precedes(c, cs[n]) {
            PrecedesTransitive(c, cs[n], best);
          }
        }
      }
    }
  }

  /** Ties are broken in this order: higher utility, higher improvement, lower
      time cost, earlier name. */
  lemma TiesAreBroken(cs: seq<Action>, c: Action)
    requires c in cs
    ensures var s := Select(cs);
      && c.Utility() <= s.Utility()
      && (c.Utility() == s.Utility() ==> c.improvement <= s.improvement)
      && (c.Utility() == s.Utility() && c.improvement == s.improvement ==> c.timeCost >= s.timeCost)
      && (c.Utility() == s.Utility() && c.improvement == s.improvement && c.timeCost == s.timeCost ==>
            c.name == s.name || NameLess(s.name, c.name))
  {
    SelectIsLeast(cs);
    NameLessTotal(c.name, Select(cs).name);
  }

  /** With unique names the choice does not depend on the order in which the
      planner listed the candidates. */
  lemma SelectionIsOrderIndependent(a: seq<Action>, b: seq<Action>)
    requires a != [] && multiset(a) == multiset(b) && UniqueNames(a)
    ensures b != [] && Select(a) == Select(b)
  {
    assert |a| == |multiset(a)| == |b|;
    SelectIsLeast(a);
    SelectIsLeast(b);
    var x, y := Select(a), Select(b);
    assert x in multiset(b) && y in multiset(a);
    PrecedesTotal(x, y);
  }

  /** No candidate has strictly greater utility than the chosen one. */
  lemma SelectionMaximisesUtility(cs: seq<Action>, c: Action)
    requires c in cs
    ensures c.Utility() <= Select(cs).Utility()
  {
    SelectIsLeast(cs);
  }
}
