/** The stored side of reconciliation: the rule and state tables, written one
    row at a time by a process that may die before any write. */
module CompetitionIntelligence {
  import opened Prelude
  import opened Reconciliation
  import opened SignalListing

  datatype Failure = Crashed | NoSignals | NoSuchRule | NotActive

  /** A conflict text; a newly conflicted rule is quoted with its category. */
  datatype Conflict = Conflict(category: Option<string>, statement: string)

  datatype State = State(
    version: nat, activeRules: seq<nat>, metrics: map<string, real>, deadlines: map<string, int>,
    leaderboard: map<string, Entry>, conflicts: seq<Conflict>)

  ghost predicate IsWinners(signals: seq<Signal>, winners: map<Key, Signal>) {
    && (forall key :: key in winners <==> exists j :: 0 <= j < |signals| && KeyOf(signals[j]) == Some(key))
    && (forall key :: key in winners ==> WonBy(signals, key, winners[key]))
  }

  lemma WinnersAreDetermined(signals: seq<Signal>, a: map<Key, Signal>, b: map<Key, Signal>)
    requires IsWinners(signals, a) && IsWinners(signals, b)
    ensures a == b
  {
    forall key | key in a
      ensures key in b && b[key] == a[key]
    {
      var i :| 0 <= i < |signals| && signals[i] == a[key] && LastStrongest(signals, key, i);
      var j :| 0 <= j < |signals| && signals[j] == b[key] && LastStrongest(signals, key, j);
      LastStrongestIsUnique(signals, key, i, j);
    }
    assert forall key :: key in b ==> key in a;
  }

  /** A winner is a signal of the kind its key names. */
  lemma WinnerMatchesKey(signals: seq<Signal>, winners: map<Key, Signal>, key: Key)
    requires IsWinners(signals, winners) && key in winners
    ensures KeyOf(winners[key]) == Some(key)
  {
  }

  predicate Keyed(winners: map<Key, Signal>) {
    forall key :: key in winners ==> KeyOf(winners[key]) == Some(key)
  }

  /** Each map holds exactly the winners of its kind among the keys done. */
  ghost predicate ShowsMetrics(metrics: map<string, real>, winners: map<Key, Signal>, done: set<Key>)
    requires Keyed(winners) && done <= winners.Keys
  {
    && (forall m :: m in metrics <==> MetricKey(m) in done)
    && (forall m :: m in metrics ==> metrics[m] == winners[MetricKey(m)].body.value)
  }

  ghost predicate ShowsDeadlines(deadlines: map<string, int>, winners: map<Key, Signal>, done: set<Key>)
    requires Keyed(winners) && done <= winners.Keys
  {
    && (forall d :: d in deadlines <==> DeadlineKey(d) in done)
    && (forall d :: d in deadlines ==> deadlines[d] == winners[DeadlineKey(d)].body.at)
  }

  ghost predicate ShowsLeaderboard(leaderboard: map<string, Entry>, winners: map<Key, Signal>, done: set<Key>)
    requires Keyed(winners) && done <= winners.Keys
  {
    && (forall a :: a in leaderboard <==> LeaderboardKey(a) in done)
    && (forall a :: a in leaderboard ==> leaderboard[a] == winners[LeaderboardKey(a)].body.entry)
  }

  function ActiveBelow(rules: seq<Rule>, n: nat): (ids: seq<nat>)
    requires n <= |rules|
    ensures forall k :: k in ids ==> k < n && rules[k].status == ACTIVE
    ensures forall k: nat :: k < n && rules[k].status == ACTIVE ==> k in ids
    ensures forall i, j :: 0 <= i < j < |ids| ==> ids[i] < ids[j]
  {
    if n == 0 then []
    else
      var rest := ActiveBelow(rules, n - 1);
      assert forall i :: 0 <= i < |rest| ==> rest[i] in rest;
      if rules[n - 1].status == ACTIVE then rest + [n - 1] else rest
  }

  /** The active rules, oldest row first. */
  function ActiveIds(rules: seq<Rule>): seq<nat> {
    ActiveBelow(rules, |rules|)
  }

  function MaxVersion(states: seq<State>): (v: nat)
    ensures forall i :: 0 <= i < |states| ==> states[i].version <= v
    ensures v == 0 || exists i :: 0 <= i < |states| && states[i].version == v
  {
    var n := |states|;
    if n == 0 then 0
    else var rest := MaxVersion(states[..n - 1]); if states[n - 1].version > rest then states[n - 1].version else rest
  }

  ghost predicate Pictures(state: State, winners: map<Key, Signal>) {
    && Keyed(winners)
    && ShowsMetrics(state.metrics, winners, winners.Keys)
    && ShowsDeadlines(state.deadlines, winners, winners.Keys)
    && ShowsLeaderboard(state.leaderboard, winners, winners.Keys)
  }

  lemma PictureIsDetermined(a: State, b: State, winners: map<Key, Signal>)
    requires Pictures(a, winners) && Pictures(b, winners)
    ensures a.metrics == b.metrics && a.deadlines == b.deadlines && a.leaderboard == b.leaderboard
  {
    assert forall m :: m in a.metrics <==> m in b.metrics;
    assert forall d :: d in a.deadlines <==> d in b.deadlines;
    assert forall g :: g in a.leaderboard <==> g in b.leaderboard;
  }

  /** The state that rules and signals determine, versions and conflicts aside. */
  ghost predicate Derived(state: State, rules: seq<Rule>, signals: seq<Signal>) {
    && state.activeRules == ActiveIds(rules)
    && exists winners :: IsWinners(signals, winners) && Pictures(state, winners)
  }

  // ---- what a state shows, in terms of the signals alone

  /** Signal i is the strongest of those that speak of the same thing. */
  ghost predicate Prevails(listed: seq<Signal>, i: nat, alike: set<nat>) {
    i in alike && forall j :: j in alike ==> j < |listed| && i < |listed| && Stronger(listed, i, j)
  }

  ghost predicate Says(listed: seq<Signal>, alike: set<nat>, body: Body) {
    exists i: nat :: i < |listed| && listed[i].body == body && Prevails(listed, i, alike)
  }

  function OfMetric(listed: seq<Signal>, name: string): set<nat> {
    set j: nat | j < |listed| && listed[j].body.MetricBody? && listed[j].body.metric == name
  }

  function OfDeadline(listed: seq<Signal>, name: string): set<nat> {
    set j: nat | j < |listed| && listed[j].body.DeadlineBody? && listed[j].body.deadlineType == name
  }

  function OfAgent(listed: seq<Signal>, name: string): set<nat> {
    set j: nat | j < |listed| && listed[j].body.LeaderboardBody? && listed[j].body.agent == name
  }

  /** Every metric, deadline and agent that some signal speaks of, with what
      the strongest of those signals says. */
  ghost predicate ShowsStrongest(state: State, listed: seq<Signal>) {
    && (forall m :: m in state.metrics <==> OfMetric(listed, m) != {})
    && (forall m :: m in state.metrics ==> Says(listed, OfMetric(listed, m), MetricBody(m, state.metrics[m])))
    && (forall d :: d in state.deadlines <==> OfDeadline(listed, d) != {})
    && (forall d :: d in state.deadlines ==> Says(listed, OfDeadline(listed, d), DeadlineBody(d, state.deadlines[d])))
    && (forall a :: a in state.leaderboard <==> OfAgent(listed, a) != {})
    && (forall a :: a in state.leaderboard ==>
          Says(listed, OfAgent(listed, a), LeaderboardBody(a, state.leaderboard[a])))
  }

  lemma WinnerPrevails(listed: seq<Signal>, winners: map<Key, Signal>, key: Key, alike: set<nat>)
    requires IsWinners(listed, winners) && key in winners
    requires forall j: nat :: j in alike <==> j < |listed| && KeyOf(listed[j]) == Some(key)
    ensures Says(listed, alike, winners[key].body)
  {
    var i :| 0 <= i < |listed| && listed[i] == winners[key] && LastStrongest(listed, key, i);
    LastStrongestIsStrongest(listed, key, i);
  }

  lemma MetricsPrevail(state: State, listed: seq<Signal>, winners: map<Key, Signal>)
    requires IsWinners(listed, winners) && Pictures(state, winners)
    ensures forall m :: m in state.metrics <==> OfMetric(listed, m) != {}
    ensures forall m :: m in state.metrics ==> Says(listed, OfMetric(listed, m), MetricBody(m, state.metrics[m]))
  {
    hide ShowsDeadlines, ShowsLeaderboard, Says, WonBy;
    forall m
      ensures m in state.metrics <==> OfMetric(listed, m) != {}
    {
      assert forall j: nat :: j in OfMetric(listed, m) <==> j < |listed| && KeyOf(listed[j]) == Some(MetricKey(m));
    }
    forall m | m in state.metrics
      ensures Says(listed, OfMetric(listed, m), MetricBody(m, state.metrics[m]))
    {
      assert MetricKey(m) in winners;
      WinnerPrevails(listed, winners, MetricKey(m), OfMetric(listed, m));
    }
  }

  lemma DeadlinesPrevail(state: State, listed: seq<Signal>, winners: map<Key, Signal>)
    requires IsWinners(listed, winners) && Pictures(state, winners)
    ensures forall d :: d in state.deadlines <==> OfDeadline(listed, d) != {}
    ensures forall d :: d in state.deadlines ==>
              Says(listed, OfDeadline(listed, d), DeadlineBody(d, state.deadlines[d]))
  {
    hide ShowsMetrics, ShowsLeaderboard, Says, WonBy;
    forall d
      ensures d in state.deadlines <==> OfDeadline(listed, d) != {}
    {
      assert forall j: nat :: j in OfDeadline(listed, d) <==> j < |listed| && KeyOf(listed[j]) == Some(DeadlineKey(d));
    }
    forall d | d in state.deadlines
      ensures Says(listed, OfDeadline(listed, d), DeadlineBody(d, state.deadlines[d]))
    {
      assert DeadlineKey(d) in winners;
      WinnerPrevails(listed, winners, DeadlineKey(d), OfDeadline(listed, d));
    }
  }

  lemma AgentsPrevail(state: State, listed: seq<Signal>, winners: map<Key, Signal>)
    requires IsWinners(listed, winners) && Pictures(state, winners)
    ensures forall a :: a in state.leaderboard <==> OfAgent(listed, a) != {}
    ensures forall a :: a in state.leaderboard ==>
              Says(listed, OfAgent(listed, a), LeaderboardBody(a, state.leaderboard[a]))
  {
    hide ShowsMetrics, ShowsDeadlines, Says, WonBy;
    forall a
      ensures a in state.leaderboard <==> OfAgent(listed, a) != {}
    {
      assert forall j: nat :: j in OfAgent(listed, a) <==> j < |listed| && KeyOf(listed[j]) == Some(LeaderboardKey(a));
    }
    forall a | a in state.leaderboard
      ensures Says(listed, OfAgent(listed, a), LeaderboardBody(a, state.leaderboard[a]))
    {
      assert LeaderboardKey(a) in winners;
      WinnerPrevails(listed, winners, LeaderboardKey(a), OfAgent(listed, a));
    }
  }

  lemma DerivedShowsStrongest(state: State, rules: seq<Rule>, listed: seq<Signal>)
    requires Derived(state, rules, listed)
    ensures ShowsStrongest(state, listed)
  {
    var winners :| IsWinners(listed, winners) && Pictures(state, winners);
    MetricsPrevail(state, listed, winners);
    DeadlinesPrevail(state, listed, winners);
    AgentsPrevail(state, listed, winners);
  }

  /** What is reported of a rule signal: the statement of its rule, iff that is
      conflicted. */
  ghost predicate Reports(rules: seq<Rule>, s: Signal, conflict: Option<Conflict>)
    requires s.body.RuleBody?
  {
    var at := Find(rules, s.body.rule);
    && at.Some?
    && (conflict.Some? <==> rules[at.value].status == CONFLICTED)
    && (conflict.Some? ==> conflict.value.statement == rules[at.value].statement)
  }

  /** What a signal that became no rule yet is reported as. */
  function NewConflict(rules: seq<Rule>, s: Signal): Option<Conflict>
    requires s.body.RuleBody?
  {
    if Judge(rules, s).Conflicts? then Some(Conflict(Some(s.body.rule.category), s.body.statement)) else None
  }

  lemma AbsorbedReports(rules: seq<Rule>, s: Signal)
    requires s.body.RuleBody? && Find(rules, s.body.rule).None?
    ensures Reports(Absorbed(rules, s), s, NewConflict(rules, s))
  {
    hide Newest;
    var b, n := Absorbed(rules, s), |rules|;
    assert b[n].key == s.body.rule;
    assert forall k :: 0 <= k < n ==> b[k].key == rules[k].key;
  }

  predicate IsConflicted(rules: seq<Rule>, s: Signal) {
    s.body.RuleBody? && Find(rules, s.body.rule).Some? && rules[Find(rules, s.body.rule).value].status == CONFLICTED
  }

  /** The conflicts a table implies: the statement of its rule for each signal
      whose rule is conflicted. */
  function Conflicted(rules: seq<Rule>, signals: seq<Signal>): seq<string> {
    var n := |signals|;
    if n == 0 then []
    else if IsConflicted(rules, signals[n - 1]) then
      Conflicted(rules, signals[..n - 1]) + [rules[Find(rules, signals[n - 1].body.rule).value].statement]
    else Conflicted(rules, signals[..n - 1])
  }

  /** Growth leaves the implied conflicts of known signals as they are. */
  lemma {:induction false} ConflictsAreStable(a: seq<Rule>, b: seq<Rule>, signals: seq<Signal>)
    requires Inv(b) && Grows(a, b) && AllKnown(a, signals)
    ensures Conflicted(a, signals) == Conflicted(b, signals)
    decreases |signals|
  {
    if signals != [] {
      var n := |signals| - 1;
      forall i | 0 <= i < n && signals[..n][i].body.RuleBody?
        ensures Find(a, signals[..n][i].body.rule).Some?
      {
        assert signals[..n][i] == signals[i];
      }
      ConflictsAreStable(a, b, signals[..n]);
      if signals[n].body.RuleBody? {
        var i, j := Find(a, signals[n].body.rule).value, Find(b, signals[n].body.rule);
        GrowthKeepsKnown(a, b, signals[n].body.rule);
        assert b[i].key == b[j.value].key;
        assert i == j.value;
      }
    }
  }

  function Statements(conflicts: seq<Conflict>): (s: seq<string>)
    ensures |s| == |conflicts|
  {
    if conflicts == [] then [] else Statements(conflicts[..|conflicts| - 1]) + [conflicts[|conflicts| - 1].statement]
  }

  /** What a death between the two writes of a supersession leaves. */
  ghost predicate Torn(before: seq<Rule>, s: Signal, rules: seq<Rule>)
    requires s.body.RuleBody?
  {
    Judge(before, s).Replaces? && rules == Flipped(before, Judge(before, s).prior)
  }

  /** A pass that died at signal n, before its first write or between two. */
  ghost predicate CutShortAt(before: seq<Rule>, listed: seq<Signal>, n: nat, rules: seq<Rule>) {
    && n < |listed| && listed[n].body.RuleBody?
    && var done := AbsorbAll(before, listed[..n]); rules == done || Torn(done, listed[n], rules)
  }

  ghost predicate CutShort(before: seq<Rule>, listed: seq<Signal>, rules: seq<Rule>) {
    exists n :: CutShortAt(before, listed, n, rules)
  }

  class Intelligence {
    var signals: seq<Signal>
    var rules: seq<Rule>
    var states: seq<State>
    var budget: nat

    constructor (writes: nat)
      ensures signals == [] && rules == [] && states == [] && budget == writes
    {
      signals, rules, states, budget := [], [], [], writes;
    }

    method Write() returns (r: Result<(), Failure>)
      modifies this`budget
      ensures r == if old(budget) == 0 then Err(Crashed) else Ok(())
      ensures budget == if old(budget) == 0 then 0 else old(budget) - 1
    {
      if budget == 0 {
        return Err(Crashed);
      }
      budget := budget - 1;
      return Ok(());
    }

    /** CompetitionRuleService.record */
    method Record(rule: Rule) returns (r: Result<(), Failure>)
      modifies this`budget, this`rules
      ensures r == if rule.supersedes.Some? && rule.supersedes.value >= |old(rules)| then Err(NoSuchRule)
                   else if rule.supersedes.Some? && old(rules)[rule.supersedes.value].status != ACTIVE then
                     Err(NotActive)
                   else if old(budget) < (if rule.supersedes.Some? then 2 else 1) then Err(Crashed) else Ok(())
      ensures var p := rule.supersedes;
              var flipped := if p.Some? && p.value < |old(rules)| then Flipped(old(rules), p.value) else old(rules);
              rules == if r.Ok? then flipped + [rule.(status := ACTIVE)]
                       else if r == Err(Crashed) && old(budget) == 1 then flipped
                       else old(rules)
      ensures budget >= old(budget) - 2
    {
      if rule.supersedes.Some? {
        var p := rule.supersedes.value;
        if p >= |rules| {
          return Err(NoSuchRule);
        }
        if rules[p].status != ACTIVE {
          return Err(NotActive);
        }
        var _ :- Write();
        rules := Flipped(rules, p);
      }
      var _ :- Write();
      rules := rules + [rule.(status := ACTIVE)];
      return Ok(());
    }

    /** _reconcile_rule, for a signal that became no rule yet. */
    method Admit(s: Signal) returns (r: Result<Option<Conflict>, Failure>)
      requires Inv(rules) && s.body.RuleBody? && Find(rules, s.body.rule).None?
      modifies this`budget, this`rules
      ensures Inv(rules) && Grows(old(rules), rules)
      ensures r.Ok? ==> rules == Absorbed(old(rules), s)
      ensures r.Err? ==> r.error == Crashed && (rules == old(rules) || Torn(old(rules), s, rules))
      ensures old(budget) >= 2 ==> r.Ok?
      ensures budget >= old(budget) - 2
      ensures r.Ok? ==> r.value == NewConflict(old(rules), s)
    {
      AbsorbedKeepsInv(rules, s);
      var prior := Newest(rules, s.body.rule.category);
      if prior.None? || rules[prior.value].key.constraint == s.body.rule.constraint {
        var _ :- Record(NewRule(s, ACTIVE, None));
        return Ok(None);
      }
      var current := rules[prior.value];
      if Priority(s.authority) >= Priority(current.authority) && s.observedAt >= current.observedAt {
        SupersedeKeepsInv(rules, prior.value);
        var _ :- Record(NewRule(s, ACTIVE, prior));
        return Ok(None);
      }
      var _ :- Write();
      rules := rules + [NewRule(s, CONFLICTED, None)];
      return Ok(Some(Conflict(Some(s.body.rule.category), s.body.statement)));
    }

    /** _reconcile_rule: neither raise of record is reachable from here. */
    method ReconcileRule(s: Signal) returns (r: Result<Option<Conflict>, Failure>)
      requires Inv(rules) && s.body.RuleBody?
      modifies this`budget, this`rules
      ensures Inv(rules) && Grows(old(rules), rules)
      ensures r.Ok? ==> rules == Absorbed(old(rules), s) && Reports(rules, s, r.value)
      ensures r.Err? ==> r.error == Crashed && (rules == old(rules) || Torn(old(rules), s, rules))
      ensures old(budget) >= 2 ==> r.Ok?
      ensures budget >= old(budget) - 2
    {
      var existing := Find(rules, s.body.rule);
      if existing.Some? {
        var found := rules[existing.value];
        return Ok(if found.status != CONFLICTED then None else Some(Conflict(None, found.statement)));
      }
      ghost var before := rules;
      r := Admit(s);
      AbsorbedReports(before, s);
    }

    /** The rule half of reconcile, over the signals as listed. */
    method ReconcileRules(listed: seq<Signal>) returns (r: Result<seq<Conflict>, Failure>)
      requires Inv(rules)
      modifies this`budget, this`rules
      ensures Inv(rules) && Grows(old(rules), rules)
      ensures r.Ok? ==> rules == AbsorbAll(old(rules), listed) && Statements(r.value) == Conflicted(rules, listed)
      ensures r.Err? ==> r.error == Crashed && CutShort(old(rules), listed, rules)
      ensures old(budget) >= 2 * |listed| ==> r.Ok? && budget >= old(budget) - 2 * |listed|
    {
      hide Newest, Judge, Torn, AbsorbAll;
      AbsorbNone(rules, listed);
      var conflicts: seq<Conflict> := [];
      var n := 0;
      while n < |listed|
        invariant 0 <= n <= |listed|
        invariant Inv(rules) && Grows(old(rules), rules)
        invariant rules == AbsorbAll(old(rules), listed[..n]) && AllKnown(rules, listed[..n])
        invariant Statements(conflicts) == Conflicted(rules, listed[..n])
        invariant old(budget) >= 2 * |listed| ==> budget >= old(budget) - 2 * n
      {
        ghost var before := rules;
        assert listed[..n + 1][..n] == listed[..n];
        AbsorbNext(old(rules), listed, n);
        if listed[n].body.RuleBody? {
          var result := ReconcileRule(listed[n]);
          GrowsTransitive(old(rules), before, rules);
          if result.Err? {
            assert CutShortAt(old(rules), listed, n, rules);
            return Err(result.error);
          }
          var conflict := result.value;
          ConflictsAreStable(before, rules, listed[..n]);
          if conflict.Some? {
            assert (conflicts + [conflict.value])[..|conflicts|] == conflicts;
            conflicts := conflicts + [conflict.value];
          }
        }
        AbsorbAllKeepsInv(old(rules), listed[..n + 1]);
        n := n + 1;
      }
      assert listed[..|listed|] == listed;
      return Ok(conflicts);
    }

    /** The maps of the state, from the winners in any order. */
    method Picture(winners: map<Key, Signal>)
      returns (metrics: map<string, real>, deadlines: map<string, int>, leaderboard: map<string, Entry>)
      requires Keyed(winners)
      ensures ShowsMetrics(metrics, winners, winners.Keys)
      ensures ShowsDeadlines(deadlines, winners, winners.Keys)
      ensures ShowsLeaderboard(leaderboard, winners, winners.Keys)
    {
      metrics, deadlines, leaderboard := map[], map[], map[];
      var done: set<Key> := {};
      while done != winners.Keys
        invariant done <= winners.Keys
        invariant ShowsMetrics(metrics, winners, done)
        invariant ShowsDeadlines(deadlines, winners, done)
        invariant ShowsLeaderboard(leaderboard, winners, done)
        decreases |winners.Keys - done|
      {
        var key :| key in winners.Keys - done;
        assert winners.Keys - (done + {key}) < winners.Keys - done;
        match winners[key].body {
          case MetricBody(metric, value) => metrics := metrics[metric := value];
          case DeadlineBody(deadlineType, at) => deadlines := deadlines[deadlineType := at];
          case LeaderboardBody(agent, entry) => leaderboard := leaderboard[agent := entry];
          case RuleBody(_, _) =>
        }
        done := done + {key};
      }
    }

    method ReconcileAll() returns (r: Result<State, Failure>)
      requires Inv(rules)
      modifies this`budget, this`rules, this`states
      ensures Inv(rules) && Grows(old(rules), rules) && old(states) <= states
      ensures signals == [] ==> r == Err(NoSignals) && rules == old(rules) && states == old(states)
      ensures r.Err? ==> states == old(states) && (r.error == NoSignals || r.error == Crashed)
      ensures r == Err(Crashed) ==>
                CutShort(old(rules), Listed(signals), rules) || rules == AbsorbAll(old(rules), Listed(signals))
      ensures r.Ok? ==>
                && rules == AbsorbAll(old(rules), Listed(signals)) && states == old(states) + [r.value]
                && Derived(r.value, rules, Listed(signals))
                && Statements(r.value.conflicts) == Conflicted(rules, Listed(signals))
                && (forall i :: 0 <= i < |old(states)| ==> old(states)[i].version < r.value.version)
                && (r.value.version == 1
                    || exists i :: 0 <= i < |old(states)| && r.value.version == old(states)[i].version + 1)
      ensures r.Ok? ==> ShowsStrongest(r.value, Listed(signals))
      ensures r.Ok? ==> forall k: nat :: k in r.value.activeRules <==> k < |rules| && rules[k].status == ACTIVE
      ensures signals != [] && old(budget) >= 2 * |signals| + 1 ==> r.Ok?
    {
      hide Listed, AbsorbAll, CutShort, Conflicted, Statements, Inv, WonBy, Strongest, ShowsStrongest;
      hide ShowsMetrics, ShowsDeadlines, ShowsLeaderboard;
      if signals == [] {
        return Err(NoSignals);
      }
      var listed := Listed(signals);
      ListedContents(signals);
      var conflicts :- ReconcileRules(listed);
      var winners := SelectWinners(listed);
      assert Keyed(winners) by {
        forall key | key in winners
          ensures KeyOf(winners[key]) == Some(key)
        {
          WinnerMatchesKey(listed, winners, key);
        }
      }
      var metrics, deadlines, leaderboard := Picture(winners);
      var state := State(MaxVersion(states) + 1, ActiveIds(rules), metrics, deadlines, leaderboard, conflicts);
      assert IsWinners(listed, winners) && Pictures(state, winners);
      var _ :- Write();
      states := states + [state];
      DerivedShowsStrongest(state, rules, listed);
      return Ok(state);
    }

    /** Twice in a row over the same signals: the second changes no rule and
        stores the same state but for its version and the conflict texts. */
    method ReconcileAgain() returns (first: Result<State, Failure>, second: Result<State, Failure>)
      requires Inv(rules)
      modifies this`budget, this`rules, this`states
      ensures first.Ok? && second.Ok? ==>
                && rules == AbsorbAll(old(rules), Listed(signals))
                && second.value == first.value.(version := second.value.version, conflicts := second.value.conflicts)
                && Statements(second.value.conflicts) == Statements(first.value.conflicts)
    {
      first := ReconcileAll();
      ghost var listed := Listed(signals);
      second := ReconcileAll();
      if first.Ok? && second.Ok? {
        ReconcilingTwiceIsOnce(old(rules), listed);
        ghost var a :| IsWinners(listed, a) && Pictures(first.value, a);
        ghost var b :| IsWinners(listed, b) && Pictures(second.value, b);
        WinnersAreDetermined(listed, a, b);
        PictureIsDetermined(first.value, second.value, a);
      }
    }

    /** extract: signals are stored one by one. */
    method Extract(more: seq<Signal>) returns (r: Result<(), Failure>)
      modifies this`budget, this`signals
      ensures old(signals) <= signals <= old(signals) + more
      ensures r == if old(budget) < |more| then Err(Crashed) else Ok(())
      ensures r.Ok? ==> signals == old(signals) + more
    {
      var n := 0;
      while n < |more|
        invariant 0 <= n <= |more|
        invariant signals == old(signals) + more[..n] && budget == old(budget) - n
      {
        var _ :- Write();
        signals := signals + [more[n]];
        n := n + 1;
      }
      return Ok(());
    }

    /** Any history of extractions and reconciliations, cut short anywhere. */
    method Serve(lives: seq<(nat, seq<Signal>)>)
      requires Inv(rules)
      modifies this
      ensures Inv(rules) && Grows(old(rules), rules) && old(states) <= states
    {
      var next := 0;
      while next < |lives|
        invariant 0 <= next <= |lives|
        invariant Inv(rules) && Grows(old(rules), rules) && old(states) <= states
      {
        ghost var before := rules;
        budget := lives[next].0;
        var extracted := Extract(lives[next].1);
        if extracted.Ok? {
          var _ := ReconcileAll();
          GrowsTransitive(old(rules), before, rules);
        }
        next := next + 1;
      }
    }
  }
}
