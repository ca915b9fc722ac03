/** From observed signals to the current competition state: who wins a key,
    and how a new rule meets the rules already stored. */
module Reconciliation {
  import opened Prelude

  datatype Authority =
    | ORGANIZER_ANNOUNCEMENT | OFFICIAL_RULES | OFFICIAL_DOCS | ORGANIZER_STATEMENT
    | PLATFORM_METADATA | INFERRED | THIRD_PARTY | UNKNOWN

  function Priority(a: Authority): nat {
    match a
    case ORGANIZER_ANNOUNCEMENT => 700
    case OFFICIAL_RULES => 600
    case OFFICIAL_DOCS => 500
    case ORGANIZER_STATEMENT => 400
    case PLATFORM_METADATA => 300
    case INFERRED => 200
    case THIRD_PARTY => 100
    case UNKNOWN => 0
  }

  /** Announcements outrank rules, rules outrank documents, and so on down; an
      authority that is not recognised counts least. */
  lemma AuthoritiesAreRanked()
    ensures Priority(ORGANIZER_ANNOUNCEMENT) > Priority(OFFICIAL_RULES) > Priority(OFFICIAL_DOCS)
            > Priority(ORGANIZER_STATEMENT) > Priority(PLATFORM_METADATA) > Priority(INFERRED)
            > Priority(THIRD_PARTY) > Priority(UNKNOWN) == 0
  {
  }

  datatype Entry = Entry(rank: Option<int>, users: Option<int>, installs: Option<int>, tokens: Option<int>)

  /** What a rule signal says, and what identifies the rule it becomes. */
  datatype RuleKey = RuleKey(source: nat, category: string, constraint: string)

  datatype Body =
    | RuleBody(rule: RuleKey, statement: string)
    | MetricBody(metric: string, value: real)
    | DeadlineBody(deadlineType: string, at: int)
    | LeaderboardBody(agent: string, entry: Entry)

  datatype Signal = Signal(body: Body, authority: Authority, observedAt: int)

  // ---- winners

  datatype Key = MetricKey(name: string) | DeadlineKey(name: string) | LeaderboardKey(name: string)

  function KeyOf(s: Signal): Option<Key> {
    match s.body
    case RuleBody(_, _) => None
    case MetricBody(m, _) => Some(MetricKey(m))
    case DeadlineBody(d, _) => Some(DeadlineKey(d))
    case LeaderboardBody(a, _) => Some(LeaderboardKey(a))
  }

  /** Lexicographic >= on (authority, observed_at). */
  predicate Wins(candidate: Signal, current: Signal) {
    var p, q := Priority(candidate.authority), Priority(current.authority);
    p > q || (p == q && candidate.observedAt >= current.observedAt)
  }

  /** i is the last of the strongest signals for key. */
  ghost predicate LastStrongest(signals: seq<Signal>, key: Key, i: nat) {
    && i < |signals| && KeyOf(signals[i]) == Some(key)
    && (forall j :: 0 <= j < |signals| && KeyOf(signals[j]) == Some(key) ==> Wins(signals[i], signals[j]))
    && (forall j :: i < j < |signals| && KeyOf(signals[j]) == Some(key) ==> !Wins(signals[j], signals[i]))
  }

  lemma LastStrongestIsUnique(signals: seq<Signal>, key: Key, i: nat, j: nat)
    requires LastStrongest(signals, key, i) && LastStrongest(signals, key, j)
    ensures i == j
  {
    assert KeyOf(signals[j]) == Some(key) && KeyOf(signals[i]) == Some(key);
  }

  /** Of two signals of one listing the first is stronger: higher authority,
      then later observation, then later in the listing. */
  predicate Stronger(signals: seq<Signal>, i: nat, j: nat)
    requires i < |signals| && j < |signals|
  {
    var a, b := signals[i], signals[j];
    || Priority(a.authority) > Priority(b.authority)
    || (Priority(a.authority) == Priority(b.authority)
        && (a.observedAt > b.observedAt || (a.observedAt == b.observedAt && i >= j)))
  }

  ghost predicate StrongestOf(signals: seq<Signal>, key: Key, i: nat) {
    && i < |signals| && KeyOf(signals[i]) == Some(key)
    && forall j :: 0 <= j < |signals| && KeyOf(signals[j]) == Some(key) ==> Stronger(signals, i, j)
  }

  ghost predicate Strongest(signals: seq<Signal>, key: Key, winner: Signal) {
    exists i: nat :: StrongestOf(signals, key, i) && signals[i] == winner
  }

  lemma WinnerIsStrongest(signals: seq<Signal>, key: Key, winner: Signal)
    requires WonBy(signals, key, winner)
    ensures Strongest(signals, key, winner)
  {
    var i :| 0 <= i < |signals| && signals[i] == winner && LastStrongest(signals, key, i);
    LastStrongestIsStrongest(signals, key, i);
  }

  lemma LastStrongestIsStrongest(signals: seq<Signal>, key: Key, i: nat)
    requires LastStrongest(signals, key, i)
    ensures StrongestOf(signals, key, i)
  {
  }

  ghost predicate WonBy(signals: seq<Signal>, key: Key, winner: Signal) {
    exists i :: 0 <= i < |signals| && signals[i] == winner && LastStrongest(signals, key, i)
  }

  /** The winners loop: exactly the keys that occur, each with the last of its
      strongest signals. */
  method SelectWinners(signals: seq<Signal>) returns (winners: map<Key, Signal>)
    ensures forall key :: key in winners <==> exists j :: 0 <= j < |signals| && KeyOf(signals[j]) == Some(key)
    ensures forall key :: key in winners ==> WonBy(signals, key, winners[key])
    ensures forall key :: key in winners ==> Strongest(signals, key, winners[key])
  {
    winners := map[];
    ghost var at: map<Key, nat> := map[];
    for n := 0 to |signals|
      invariant at.Keys == winners.Keys
      invariant forall key :: key in at ==>
                LastStrongest(signals[..n], key, at[key]) && winners[key] == signals[at[key]]
      invariant forall j :: 0 <= j < n && KeyOf(signals[j]).Some? ==> KeyOf(signals[j]).value in winners
    {
      var signal := signals[n];
      ghost var before := at;
      assert signals[..n + 1] == signals[..n] + [signal];
      if signal.body.RuleBody? {
      } else {
        var key := KeyOf(signal).value;
        if key !in winners || Wins(signal, winners[key]) {
          winners := winners[key := signal];
          at := at[key := n];
        }
      }
      forall key | key in at
        ensures LastStrongest(signals[..n + 1], key, at[key]) && winners[key] == signals[at[key]]
      {
        if key in before {
          assert LastStrongest(signals[..n], key, before[key]);
          StrongestExtends(signals[..n], signal, key, before[key]);
        }
      }
    }
    assert signals[..|signals|] == signals;
    forall key | key in winners
      ensures WonBy(signals, key, winners[key])
    {
      assert LastStrongest(signals, key, at[key]) && signals[at[key]] == winners[key];
    }
    hide LastStrongest, Strongest;
    forall key | key in winners
      ensures Strongest(signals, key, winners[key])
    {
      WinnerIsStrongest(signals, key, winners[key]);
    }
  }

  /** One more signal: the winner stays unless the newcomer wins its key. */
  lemma StrongestExtends(signals: seq<Signal>, signal: Signal, key: Key, i: nat)
    requires LastStrongest(signals, key, i)
    ensures var won := KeyOf(signal) == Some(key) && Wins(signal, signals[i]);
            LastStrongest(signals + [signal], key, if won then |signals| else i)
  {
    var all := signals + [signal];
    forall j | 0 <= j < |all| && KeyOf(all[j]) == Some(key)
      ensures j < |signals| ==> Wins(signals[i], all[j])
    {
    }
  }

  // ---- rules

  datatype RuleStatus = ACTIVE | SUPERSEDED | CONFLICTED

  /** A rule row; rows are named by their position. */
  datatype Rule = Rule(
    key: RuleKey, statement: string, authority: Authority, observedAt: int, status: RuleStatus, supersedes: Option<nat>)

  /** The first rule that the signal already became. */
  function Find(rules: seq<Rule>, key: RuleKey): (r: Option<nat>)
    ensures r.Some? ==> r.value < |rules| && rules[r.value].key == key
    ensures r.Some? ==> forall k :: 0 <= k < r.value ==> rules[k].key != key
    ensures r.None? ==> forall k :: 0 <= k < |rules| ==> rules[k].key != key
  {
    if rules == [] then None
    else if rules[0].key == key then Some(0)
    else var rest := Find(rules[1..], key); if rest.Some? then Some(rest.value + 1) else None
  }

  predicate Live(r: Rule, category: string) {
    r.status == ACTIVE && r.key.category == category
  }

  /** max by observed_at over the active rules of a category: the first of the
      newest. */
  function Newest(rules: seq<Rule>, category: string): (r: Option<nat>)
    ensures r.Some? ==> r.value < |rules| && Live(rules[r.value], category)
    ensures r.Some? ==> forall k :: 0 <= k < |rules| && Live(rules[k], category) ==>
              rules[k].observedAt <= rules[r.value].observedAt
    ensures r.Some? ==> forall k :: 0 <= k < r.value && Live(rules[k], category) ==>
              rules[k].observedAt < rules[r.value].observedAt
    ensures r.None? ==> forall k :: 0 <= k < |rules| ==> !Live(rules[k], category)
  {
    var n := |rules|;
    if n == 0 then None
    else
      var best := Newest(rules[..n - 1], category);
      var newer := best.None? || rules[n - 1].observedAt > rules[best.value].observedAt;
      if Live(rules[n - 1], category) && newer then Some(n - 1) else best
  }

  /** What a new rule does to the newest active one of its category. */
  datatype Verdict = Joins | Replaces(prior: nat) | Conflicts

  function Judge(rules: seq<Rule>, s: Signal): (v: Verdict)
    requires s.body.RuleBody?
    ensures v.Replaces? ==> v.prior < |rules| && Live(rules[v.prior], s.body.rule.category)
  {
    var prior := Newest(rules, s.body.rule.category);
    if prior.None? || rules[prior.value].key.constraint == s.body.rule.constraint then Joins
    else
      var current := rules[prior.value];
      if Priority(s.authority) >= Priority(current.authority) && s.observedAt >= current.observedAt then
        Replaces(prior.value)
      else Conflicts
  }

  function NewRule(s: Signal, status: RuleStatus, supersedes: Option<nat>): Rule
    requires s.body.RuleBody?
  {
    Rule(s.body.rule, s.body.statement, s.authority, s.observedAt, status, supersedes)
  }

  function Flipped(rules: seq<Rule>, p: nat): seq<Rule>
    requires p < |rules|
  {
    rules[p := rules[p].(status := SUPERSEDED)]
  }

  /** The rule table after one rule signal. */
  function Absorbed(rules: seq<Rule>, s: Signal): seq<Rule>
    requires s.body.RuleBody?
  {
    if Find(rules, s.body.rule).Some? then rules
    else match Judge(rules, s)
         case Joins => rules + [NewRule(s, ACTIVE, None)]
         case Replaces(p) => Flipped(rules, p) + [NewRule(s, ACTIVE, Some(p))]
         case Conflicts => rules + [NewRule(s, CONFLICTED, None)]
  }

  function AbsorbAll(rules: seq<Rule>, signals: seq<Signal>): seq<Rule>
    decreases |signals|
  {
    var n := |signals|;
    if n == 0 then rules
    else
      var before := AbsorbAll(rules, signals[..n - 1]);
      if signals[n - 1].body.RuleBody? then Absorbed(before, signals[n - 1]) else before
  }

  /** The newest active rule of the category; of equally new ones the first. */
  predicate IsNewest(rules: seq<Rule>, category: string, p: nat) {
    && p < |rules| && rules[p].status == ACTIVE && rules[p].key.category == category
    && forall k :: 0 <= k < |rules| && rules[k].status == ACTIVE && rules[k].key.category == category ==>
         rules[k].observedAt < rules[p].observedAt || (rules[k].observedAt == rules[p].observedAt && p <= k)
  }

  lemma NewestIsNewest(rules: seq<Rule>, category: string)
    ensures var prior := Newest(rules, category);
      && (prior.None? <==>
            forall k :: 0 <= k < |rules| ==> rules[k].status != ACTIVE || rules[k].key.category != category)
      && forall p: nat :: IsNewest(rules, category, p) <==> prior == Some(p)
  {
    var prior := Newest(rules, category);
    if prior.Some? {
      assert Live(rules[prior.value], category);
      assert IsNewest(rules, category, prior.value);
    }
    forall p: nat | IsNewest(rules, category, p)
      ensures prior == Some(p)
    {
      assert Live(rules[p], category);
    }
  }

  /** What becomes of a rule signal, in full. It is added as it says unless its
      rule is known; it joins if its category has no active rule or the newest
      one says the same, replaces the newest if it is at least as strong and as
      new, and is conflicted otherwise. */
  lemma AbsorbedMeaning(rules: seq<Rule>, s: Signal, p: nat)
    requires s.body.RuleBody?
    ensures var b, n, rule := Absorbed(rules, s), |rules|, s.body.rule;
            var known := exists k :: 0 <= k < n && rules[k].key == rule;
            var added := Rule(rule, s.body.statement, s.authority, s.observedAt, ACTIVE, None);
            var active := exists k :: 0 <= k < n && rules[k].status == ACTIVE && rules[k].key.category == rule.category;
            && (known ==> b == rules)
            && (!known && !active ==> b == rules + [added])
            && (!known && IsNewest(rules, rule.category, p) ==>
                  b == if rules[p].key.constraint == rule.constraint then rules + [added]
                       else if Priority(s.authority) >= Priority(rules[p].authority)
                               && s.observedAt >= rules[p].observedAt
                       then rules[p := rules[p].(status := SUPERSEDED)] + [added.(supersedes := Some(p))]
                       else rules + [added.(status := CONFLICTED)])
  {
    NewestIsNewest(rules, s.body.rule.category);
    hide Newest;
  }

  lemma AbsorbNone(rules: seq<Rule>, signals: seq<Signal>)
    ensures AbsorbAll(rules, signals[..0]) == rules
  {
  }

  lemma AbsorbNext(rules: seq<Rule>, signals: seq<Signal>, n: nat)
    requires n < |signals|
    ensures var before, after := AbsorbAll(rules, signals[..n]), AbsorbAll(rules, signals[..n + 1]);
            after == if signals[n].body.RuleBody? then Absorbed(before, signals[n]) else before
  {
    assert signals[..n + 1][..n] == signals[..n];
  }

  /** A supersession link leads to an earlier, superseded rule of the same
      category, no stronger and no newer, that says something else. */
  ghost predicate LinkOk(rules: seq<Rule>, i: nat, p: nat)
    requires i < |rules|
  {
    && p < i && rules[p].status == SUPERSEDED && rules[p].key.category == rules[i].key.category
    && rules[p].key.constraint != rules[i].key.constraint
    && Priority(rules[p].authority) <= Priority(rules[i].authority) && rules[p].observedAt <= rules[i].observedAt
  }

  /** No two rules come from one key, and no two links lead to one rule. */
  ghost predicate Inv(rules: seq<Rule>) {
    && (forall i, j :: 0 <= i < j < |rules| ==> rules[i].key != rules[j].key)
    && (forall i :: 0 <= i < |rules| && rules[i].supersedes.Some? ==> LinkOk(rules, i, rules[i].supersedes.value))
    && (forall i, j :: 0 <= i < j < |rules| && rules[i].supersedes.Some? ==> rules[j].supersedes != rules[i].supersedes)
  }

  /** Rows are only added; a row changes only from ACTIVE to SUPERSEDED. */
  ghost predicate Grows(a: seq<Rule>, b: seq<Rule>) {
    |a| <= |b| && forall i :: 0 <= i < |a| ==>
         b[i] == a[i] || (a[i].status == ACTIVE && b[i] == a[i].(status := SUPERSEDED))
  }

  lemma GrowsTransitive(a: seq<Rule>, b: seq<Rule>, c: seq<Rule>)
    requires Grows(a, b) && Grows(b, c)
    ensures Grows(a, c)
  {
    forall i | 0 <= i < |a|
      ensures c[i] == a[i] || (a[i].status == ACTIVE && c[i] == a[i].(status := SUPERSEDED))
    {
      assert b[i] == a[i] || b[i] == a[i].(status := SUPERSEDED);
    }
  }

  lemma SupersedeKeepsInv(rules: seq<Rule>, p: nat)
    requires Inv(rules) && p < |rules| && rules[p].status == ACTIVE
    ensures var b := Flipped(rules, p); Inv(b) && Grows(rules, b)
    ensures forall i :: 0 <= i < |rules| ==> rules[i].supersedes != Some(p)
  {
    var b := Flipped(rules, p);
    forall i | 0 <= i < |rules| && rules[i].supersedes.Some?
      ensures LinkOk(b, i, b[i].supersedes.value) && rules[i].supersedes.value != p
    {
      assert LinkOk(rules, i, rules[i].supersedes.value);
    }
  }

  lemma AppendKeepsInv(rules: seq<Rule>, r: Rule)
    requires Inv(rules) && Find(rules, r.key).None?
    requires r.supersedes.Some? ==> LinkOk(rules + [r], |rules|, r.supersedes.value)
    requires forall i :: 0 <= i < |rules| && r.supersedes.Some? ==> rules[i].supersedes != r.supersedes
    ensures Inv(rules + [r]) && Grows(rules, rules + [r])
  {
    var b := rules + [r];
    forall i | 0 <= i < |b| && b[i].supersedes.Some?
      ensures LinkOk(b, i, b[i].supersedes.value)
    {
      if i < |rules| {
        assert LinkOk(rules, i, rules[i].supersedes.value);
      }
    }
  }

  lemma AbsorbedKeepsInv(rules: seq<Rule>, s: Signal)
    requires Inv(rules) && s.body.RuleBody?
    ensures var b := Absorbed(rules, s); Inv(b) && Grows(rules, b) && Find(b, s.body.rule).Some?
  {
    var b := Absorbed(rules, s);
    if Find(rules, s.body.rule).None? {
      match Judge(rules, s) {
        case Joins => AppendKeepsInv(rules, b[|rules|]);
        case Conflicts => AppendKeepsInv(rules, b[|rules|]);
        case Replaces(p) =>
          var flipped := Flipped(rules, p);
          SupersedeKeepsInv(rules, p);
          AppendKeepsInv(flipped, b[|rules|]);
          GrowsTransitive(rules, flipped, b);
      }
      assert b[|rules|].key == s.body.rule;
    }
  }

  /** Every rule signal has become a rule. */
  ghost predicate AllKnown(rules: seq<Rule>, signals: seq<Signal>) {
    forall i :: 0 <= i < |signals| && signals[i].body.RuleBody? ==> Find(rules, signals[i].body.rule).Some?
  }

  lemma GrowthKeepsKnown(a: seq<Rule>, b: seq<Rule>, key: RuleKey)
    requires Grows(a, b) && Find(a, key).Some?
    ensures Find(b, key).Some?
  {
    assert b[Find(a, key).value].key == key;
  }

  lemma {:induction false} AbsorbAllKeepsInv(rules: seq<Rule>, signals: seq<Signal>)
    requires Inv(rules)
    ensures var b := AbsorbAll(rules, signals); Inv(b) && Grows(rules, b) && AllKnown(b, signals)
    decreases |signals|
  {
    if signals != [] {
      var n := |signals| - 1;
      AbsorbAllKeepsInv(rules, signals[..n]);
      var before, b := AbsorbAll(rules, signals[..n]), AbsorbAll(rules, signals);
      if signals[n].body.RuleBody? {
        AbsorbedKeepsInv(before, signals[n]);
        GrowsTransitive(rules, before, b);
      }
      forall i | 0 <= i < n && signals[i].body.RuleBody?
        ensures Find(b, signals[i].body.rule).Some?
      {
        assert signals[..n][i] == signals[i];
        GrowthKeepsKnown(before, b, signals[i].body.rule);
      }
    }
  }

  lemma {:induction false} KnownSignalsChangeNothing(rules: seq<Rule>, signals: seq<Signal>)
    requires AllKnown(rules, signals)
    ensures AbsorbAll(rules, signals) == rules
    decreases |signals|
  {
    if signals != [] {
      var n := |signals| - 1;
      forall i | 0 <= i < n && signals[..n][i].body.RuleBody?
        ensures Find(rules, signals[..n][i].body.rule).Some?
      {
        assert signals[..n][i] == signals[i];
      }
      KnownSignalsChangeNothing(rules, signals[..n]);
    }
  }

  /** Reconciling the same signals again leaves the rule table as it is. */
  lemma ReconcilingTwiceIsOnce(rules: seq<Rule>, signals: seq<Signal>)
    requires Inv(rules)
    ensures var once := AbsorbAll(rules, signals); AbsorbAll(once, signals) == once
  {
    AbsorbAllKeepsInv(rules, signals);
    KnownSignalsChangeNothing(AbsorbAll(rules, signals), signals);
  }

  lemma {:induction false} AbsorbSplit(rules: seq<Rule>, signals: seq<Signal>, n: nat)
    requires n <= |signals|
    ensures AbsorbAll(AbsorbAll(rules, signals[..n]), signals[n..]) == AbsorbAll(rules, signals)
    decreases |signals|
  {
    if n == |signals| {
      assert signals[..n] == signals && signals[n..] == [];
    } else {
      var m := |signals| - 1;
      AbsorbSplit(rules, signals[..m], n);
      assert signals[..m][..n] == signals[..n] && signals[n..][..m - n] == signals[..m][n..];
    }
  }

  /** A pass that died between two signals is made good by the next one. */
  lemma PassResumes(rules: seq<Rule>, signals: seq<Signal>, n: nat)
    requires Inv(rules) && n <= |signals|
    ensures AbsorbAll(AbsorbAll(rules, signals[..n]), signals) == AbsorbAll(rules, signals)
  {
    var cut := AbsorbAll(rules, signals[..n]);
    AbsorbAllKeepsInv(rules, signals[..n]);
    KnownSignalsChangeNothing(cut, signals[..n]);
    AbsorbSplit(cut, signals, n);
    AbsorbSplit(rules, signals, n);
  }

  /** newer leads to older over supersession links. */
  ghost predicate Descends(rules: seq<Rule>, newer: nat, older: nat)
    requires Inv(rules)
    decreases newer
  {
    newer < |rules|
    && (newer == older
        || (rules[newer].supersedes.Some? && LinkOk(rules, newer, rules[newer].supersedes.value)
            && Descends(rules, rules[newer].supersedes.value, older)))
  }

  /** Along a whole chain authority and observed_at never decrease, and only
      its newest end can be active. */
  lemma {:induction false} ChainsNeverWeaken(rules: seq<Rule>, newer: nat, older: nat)
    requires Inv(rules) && Descends(rules, newer, older)
    ensures older <= newer < |rules| && rules[older].key.category == rules[newer].key.category
    ensures Priority(rules[older].authority) <= Priority(rules[newer].authority)
    ensures rules[older].observedAt <= rules[newer].observedAt
    ensures older < newer ==> rules[older].status == SUPERSEDED
    decreases newer
  {
    if newer != older {
      ChainsNeverWeaken(rules, rules[newer].supersedes.value, older);
    }
  }

  ghost predicate Agree(rules: seq<Rule>, category: string) {
    forall i, j :: 0 <= i < j < |rules| && Live(rules[i], category) && Live(rules[j], category) ==>
         rules[i].key.constraint == rules[j].key.constraint
  }

  /** Another active rule than p. */
  ghost predicate Another(rules: seq<Rule>, category: string, p: nat) {
    exists k :: 0 <= k < |rules| && k != p && Live(rules[k], category)
  }

  lemma ReplacingBreaksAgreement(rules: seq<Rule>, s: Signal)
    requires s.body.RuleBody? && Find(rules, s.body.rule).None? && Agree(rules, s.body.rule.category)
    requires var v := Judge(rules, s); v.Replaces? && Another(rules, s.body.rule.category, v.prior)
    ensures !Agree(Absorbed(rules, s), s.body.rule.category)
  {
    var category, p, b := s.body.rule.category, Judge(rules, s).prior, Absorbed(rules, s);
    var k :| 0 <= k < |rules| && k != p && Live(rules[k], category);
    assert rules[k].key.constraint == rules[p].key.constraint;
    assert b[k] == rules[k] && Live(b[|rules|], category);
  }

  lemma LoneReplacementAgrees(rules: seq<Rule>, s: Signal)
    requires s.body.RuleBody? && Find(rules, s.body.rule).None?
    requires var v := Judge(rules, s); v.Replaces? && !Another(rules, s.body.rule.category, v.prior)
    ensures Agree(Absorbed(rules, s), s.body.rule.category)
  {
    var category, p, b := s.body.rule.category, Judge(rules, s).prior, Absorbed(rules, s);
    forall i | 0 <= i < |rules|
      ensures !Live(b[i], category)
    {
      assert i != p ==> b[i] == rules[i];
    }
  }

  lemma JoiningAgrees(rules: seq<Rule>, s: Signal)
    requires s.body.RuleBody? && Find(rules, s.body.rule).None? && Agree(rules, s.body.rule.category)
    requires !Judge(rules, s).Replaces?
    ensures Agree(Absorbed(rules, s), s.body.rule.category)
  {
    var category, b := s.body.rule.category, Absorbed(rules, s);
    var prior := Newest(rules, category);
    forall i | 0 <= i < |rules| && Live(b[i], category) && Live(b[|rules|], category)
      ensures b[i].key.constraint == b[|rules|].key.constraint
    {
      assert b[i] == rules[i] && rules[prior.value].key.constraint == s.body.rule.constraint;
    }
  }

  /** Active rules of one category need not agree. Agreement is lost exactly
      when a rule is replaced while another active one repeats it. */
  lemma AgreementLostIff(rules: seq<Rule>, s: Signal)
    requires s.body.RuleBody? && Find(rules, s.body.rule).None? && Agree(rules, s.body.rule.category)
    ensures var v := Judge(rules, s);
            Agree(Absorbed(rules, s), s.body.rule.category) <==>
              !(v.Replaces? && Another(rules, s.body.rule.category, v.prior))
  {
    var v := Judge(rules, s);
    if !v.Replaces? {
      JoiningAgrees(rules, s);
    } else if Another(rules, s.body.rule.category, v.prior) {
      ReplacingBreaksAgreement(rules, s);
    } else {
      LoneReplacementAgrees(rules, s);
    }
  }

  // ---- a supersession cut short between its two writes

  /** The signal meets the torn table as if p had not been there: the next
      newest active rule decides, and only it can be linked to. */
  lemma TornVerdict(rules: seq<Rule>, s: Signal)
    requires s.body.RuleBody? && Judge(rules, s).Replaces?
    ensures var category, p := s.body.rule.category, Judge(rules, s).prior;
            var torn := Flipped(rules, p);
            var next := Newest(torn, category);
            && (next.Some? <==> Another(rules, category, p))
            && Judge(torn, s) == (
              if next.None? || rules[next.value].key.constraint == s.body.rule.constraint then Joins
              else if Priority(s.authority) >= Priority(rules[next.value].authority) then Replaces(next.value)
              else Conflicts)
  {
    var category, p := s.body.rule.category, Judge(rules, s).prior;
    var torn := Flipped(rules, p);
    var next := Newest(torn, category);
    assert forall k :: 0 <= k < |rules| && k != p ==> torn[k] == rules[k];
    if Another(rules, category, p) {
      var k :| 0 <= k < |rules| && k != p && Live(rules[k], category);
      assert Live(torn[k], category);
    }
    if next.Some? {
      assert next.value != p && Live(rules[next.value], category);
    }
  }

  ghost predicate Unlinked(rules: seq<Rule>, p: nat) {
    forall i :: 0 <= i < |rules| ==> rules[i].supersedes != Some(p)
  }

  lemma {:induction false} StaysUnlinked(rules: seq<Rule>, p: nat, signals: seq<Signal>)
    requires Inv(rules) && p < |rules| && rules[p].status != ACTIVE && Unlinked(rules, p)
    ensures Unlinked(AbsorbAll(rules, signals), p)
    decreases |signals|
  {
    if signals != [] {
      var n := |signals| - 1;
      StaysUnlinked(rules, p, signals[..n]);
      AbsorbAllKeepsInv(rules, signals[..n]);
    }
  }

  /** The rule whose replacement was cut short stays without a successor
      whatever signals follow, and the table stays sound. */
  lemma TornLinkIsLost(rules: seq<Rule>, s: Signal, signals: seq<Signal>)
    requires Inv(rules) && s.body.RuleBody? && Judge(rules, s).Replaces?
    ensures var p := Judge(rules, s).prior;
            var later := AbsorbAll(Flipped(rules, p), signals);
            Inv(later) && p < |later| && later[p].status == SUPERSEDED && Unlinked(later, p)
  {
    var p := Judge(rules, s).prior;
    var torn := Flipped(rules, p);
    SupersedeKeepsInv(rules, p);
    AbsorbAllKeepsInv(torn, signals);
    StaysUnlinked(torn, p, signals);
  }

  function Said(source: nat, category: string, constraint: string): Signal {
    Signal(RuleBody(RuleKey(source, category, constraint), constraint), OFFICIAL_RULES, source)
  }

  function Twice(category: string, constraint: string): seq<Rule> {
    [NewRule(Said(0, category, constraint), ACTIVE, None), NewRule(Said(1, category, constraint), ACTIVE, None)]
  }

  lemma TwiceStated(category: string, constraint: string)
    ensures Absorbed(Absorbed([], Said(0, category, constraint)), Said(1, category, constraint)) ==
              Twice(category, constraint)
    ensures Newest(Twice(category, constraint), category) == Some(1)
  {
    var a, b := Said(0, category, constraint), Said(1, category, constraint);
    assert Absorbed([], a) == [NewRule(a, ACTIVE, None)];
    assert Live(NewRule(b, ACTIVE, None), category) && Live(NewRule(a, ACTIVE, None), category);
    assert Live(Twice(category, constraint)[1], category);
  }

  lemma ChangeAfterTwice(category: string, here: string, there: string)
    requires here != there
    ensures !Agree(Absorbed(Twice(category, here), Said(2, category, there)), category)
  {
    var two, c := Twice(category, here), Said(2, category, there);
    TwiceStated(category, here);
    assert Judge(two, c) == Replaces(1);
    assert Live(two[0], category);
    AgreementLostIff(two, c);
  }

  /** Two official statements of one rule, then a third that changes it. */
  lemma ActiveRulesMayDisagree(category: string, here: string, there: string)
    requires here != there
    ensures var signals := [Said(0, category, here), Said(1, category, here), Said(2, category, there)];
            !Agree(AbsorbAll([], signals), category)
  {
    var a, b, c := Said(0, category, here), Said(1, category, here), Said(2, category, there);
    TwiceStated(category, here);
    ChangeAfterTwice(category, here, there);
    AbsorbThree([], a, b, c);
  }

  lemma AbsorbThree(rules: seq<Rule>, a: Signal, b: Signal, c: Signal)
    requires a.body.RuleBody? && b.body.RuleBody? && c.body.RuleBody?
    ensures AbsorbAll(rules, [a, b, c]) == Absorbed(Absorbed(Absorbed(rules, a), b), c)
  {
    assert [a, b, c][..2] == [a, b] && [a, b][..1] == [a] && [a][..0] == [];
    assert AbsorbAll(rules, [a]) == Absorbed(AbsorbAll(rules, []), a) == Absorbed(rules, a);
    assert AbsorbAll(rules, [a, b]) == Absorbed(AbsorbAll(rules, [a]), b);
  }
}
