/** The command service by several processes at once. Every read and every
    write is a transaction of its own and nothing serialises them; a write
    stores the row as it was read, with its new status. */
module CommandRaces {
  import opened Prelude
  import Atomic = CommandApproval

  type Group = Atomic.Group
  type Command = Atomic.Command
  type Status = Atomic.Status

  /** What a process reads a request for. */
  datatype Goal = ToRead | ToGrant | ToDeny | ToRun | ToCheck

  /** What a process is about to do, on the strength of what it has read. */
  datatype Pc =
    | Listed(id: nat)
    | Expiring(id: nat, goal: Goal)
    | Deciding(id: nat, decision: Status)
    | Passed(group: Group)
    | Running(id: nat)

  /** granted: every request that was ever granted. */
  datatype State = State(commands: seq<Command>, runs: seq<nat>, granted: set<nat>, workers: map<nat, Pc>)

  /** now: the clock as the process reads it, early or late. */
  datatype Step =
    | Read(worker: nat, id: nat, goal: Goal, now: int)
    | List(worker: nat, group: Group)
    | Check(worker: nat, now: int)
    | Write(worker: nat)
    | Insert(worker: nat, expires: int)
    | Invoke(worker: nat)
    | Stop(worker: nat)
    | Propose(group: Group, expires: int)

  const EMPTY := State([], [], {}, map[])

  function Stopped(s: State, w: nat): State {
    s.(workers := s.workers - {w})
  }

  function Goto(s: State, w: nat, pc: Pc): State {
    s.(workers := s.workers[w := pc])
  }

  predicate Open(status: Status) {
    status == Atomic.PENDING || status == Atomic.DENIED
  }

  /** What follows a read that found this status. */
  function Continue(s: State, w: nat, id: nat, goal: Goal, status: Status): State
    requires id < |s.commands|
  {
    if goal == ToGrant && status == Atomic.PENDING then Goto(s, w, Deciding(id, Atomic.GRANTED))
    else if goal == ToDeny && status == Atomic.PENDING then Goto(s, w, Deciding(id, Atomic.DENIED))
    else if goal == ToRun && status == Atomic.GRANTED then Goto(s, w, Running(id))
    else if goal == ToCheck && !Open(status) then Goto(s, w, Passed(s.commands[id].group))
    else Stopped(s, w)
  }

  function Get(s: State, w: nat, id: nat, goal: Goal, now: int): State {
    if id >= |s.commands| then Stopped(s, w)
    else if s.commands[id].status == Atomic.PENDING && now >= s.commands[id].expires then Goto(s, w, Expiring(id, goal))
    else Continue(s, w, id, goal, s.commands[id].status)
  }

  function Save(s: State, id: nat, status: Status): State {
    if id >= |s.commands| then s
    else s.(commands := s.commands[id := s.commands[id].(status := status)],
            granted := if status == Atomic.GRANTED then s.granted + {id} else s.granted)
  }

  function Saved(s: State, w: nat, pc: Pc): State {
    match pc
    case Expiring(id, goal) =>
      if id < |s.commands| then Continue(Save(s, id, Atomic.EXPIRED), w, id, goal, Atomic.EXPIRED) else Stopped(s, w)
    case Deciding(id, decision) => Stopped(Save(s, id, decision), w)
    case _ => s
  }

  function Append(s: State, group: Group, expires: int): State {
    s.(commands := s.commands + [Atomic.Command(group, expires, Atomic.PENDING)])
  }

  function Next(s: State, step: Step): State {
    match step
    case Read(w, id, goal, now) => if w in s.workers || goal == ToCheck then s else Get(s, w, id, goal, now)
    case List(w, group) =>
      if w in s.workers then s
      else
        var latest := Atomic.Latest(s.commands, group);
        Goto(s, w, if latest.Some? then Listed(latest.value) else Passed(group))
    case Check(w, now) =>
      if w in s.workers && s.workers[w].Listed? then Get(s, w, s.workers[w].id, ToCheck, now) else s
    case Write(w) => if w in s.workers then Saved(s, w, s.workers[w]) else s
    case Insert(w, expires) =>
      if w in s.workers && s.workers[w].Passed? then Stopped(Append(s, s.workers[w].group, expires), w) else s
    case Invoke(w) =>
      if w in s.workers && s.workers[w].Running? then Stopped(s.(runs := s.runs + [s.workers[w].id]), w) else s
    case Stop(w) => Stopped(s, w)
    case Propose(group, expires) => Append(s, group, expires)
  }

  function Run(s: State, steps: seq<Step>): State
    decreases |steps|
  {
    if steps == [] then s else Run(Next(s, steps[0]), steps[1..])
  }

  // ---- one operation at a time is the atomic model

  /** The steps of one operation of process w. */
  function StepsOf(w: nat, now: int, op: Atomic.Op): seq<Step> {
    match op
    case Get(id) => [Read(w, id, ToRead, now), Write(w)]
    case Grant(id) => [Read(w, id, ToGrant, now), Write(w)]
    case Deny(id) => [Read(w, id, ToDeny, now), Write(w)]
    case Execute(id) => [Read(w, id, ToRun, now), Write(w), Invoke(w)]
    case Propose(group, allowed, ttl) => if allowed then [Propose(group, now + ttl)] else []
    case ProposeUnlessBlocked(group, allowed, ttl) =>
      [List(w, group), Check(w, now), Write(w), if allowed then Insert(w, now + ttl) else Stop(w)]
  }

  lemma RunOne(s: State, a: Step)
    ensures Run(s, [a]) == Next(s, a)
  {
    assert [a][1..] == [];
  }

  lemma RunTwo(s: State, a: Step, b: Step)
    ensures Run(s, [a, b]) == Next(Next(s, a), b)
  {
    assert [a, b][1..] == [b];
    RunOne(Next(s, a), b);
  }

  lemma RunThree(s: State, a: Step, b: Step, c: Step)
    ensures Run(s, [a, b, c]) == Next(Next(Next(s, a), b), c)
  {
    assert [a, b, c][1..] == [b, c];
    RunTwo(Next(s, a), b, c);
  }

  lemma RunFour(s: State, a: Step, b: Step, c: Step, d: Step)
    ensures Run(s, [a, b, c, d]) == Next(Next(Next(Next(s, a), b), c), d)
  {
    assert [a, b, c, d][1..] == [b, c, d];
    RunThree(Next(s, a), b, c, d);
  }

  /** The rows and runs of an atomic state, and nobody new inside. */
  predicate Mirrors(u: State, workers: map<nat, Pc>, atomic: Atomic.State) {
    u.commands == atomic.commands && u.runs == atomic.runs && u.workers == workers
  }

  /** What a read and its write make of the rows. */
  function Written(commands: seq<Command>, id: nat, goal: Goal, now: int): seq<Command> {
    match goal
    case ToGrant => Atomic.Decided(commands, id, now, Atomic.GRANTED)
    case ToDeny => Atomic.Decided(commands, id, now, Atomic.DENIED)
    case _ => Atomic.Read(commands, id, now)
  }

  lemma ReadThenWrite(s: State, w: nat, id: nat, goal: Goal, now: int)
    requires w !in s.workers && goal in [ToRead, ToGrant, ToDeny]
    ensures var u := Next(Next(s, Read(w, id, goal, now)), Write(w));
            u.commands == Written(s.commands, id, goal, now) && u.runs == s.runs && u.workers == s.workers
  {
    var t := Next(s, Read(w, id, goal, now));
    assert s.workers - {w} == s.workers && t.workers - {w} == s.workers;
    if id < |s.commands| {
      var c := s.commands[id];
      assert s.commands[id := c] == s.commands;
      if c.status == Atomic.PENDING && now >= c.expires {
        assert t == Goto(s, w, Expiring(id, goal));
        assert Next(t, Write(w)).commands == s.commands[id := c.(status := Atomic.EXPIRED)];
      } else if c.status == Atomic.PENDING && goal != ToRead {
        var decision := if goal == ToGrant then Atomic.GRANTED else Atomic.DENIED;
        assert t == Goto(s, w, Deciding(id, decision));
        assert Next(t, Write(w)).commands == s.commands[id := c.(status := decision)];
      } else {
        assert t == s;
      }
    }
  }

  lemma ReadThenRun(s: State, atomic: Atomic.State, w: nat, id: nat, now: int)
    requires Mirrors(s, s.workers, atomic) && w !in s.workers && atomic.clock <= now
    ensures var u := Next(Next(Next(s, Read(w, id, ToRun, now)), Write(w)), Invoke(w));
            Mirrors(u, s.workers, Atomic.Next(atomic, now, Atomic.Execute(id)))
  {
    assert Next(Next(Next(s, Read(w, id, ToRun, now)), Write(w)), Invoke(w)).workers == s.workers;
  }

  /** The block check of one process, with the expiry it may have to write. */
  lemma CheckLatest(s: State, w: nat, group: Group, id: nat, now: int)
    requires w !in s.workers && Atomic.Latest(s.commands, group) == Some(id)
    ensures var u := Next(Next(Next(s, List(w, group)), Check(w, now)), Write(w));
            u == if Atomic.Blocking(s.commands, group, now) then s
                 else Goto(s.(commands := Atomic.LatestRead(s.commands, group, now)), w, Passed(group))
  {
    hide Atomic.Latest;
    var t := Next(s, List(w, group));
    assert t.workers - {w} == s.workers;
    var c := s.commands[id];
    var u := Next(t, Check(w, now));
    if c.status == Atomic.PENDING && now >= c.expires {
      assert u == Goto(s, w, Expiring(id, ToCheck));
      var expired := s.commands[id := c.(status := Atomic.EXPIRED)];
      assert Next(u, Write(w)) == Goto(s.(commands := expired), w, Passed(group));
    } else if Open(c.status) {
      assert u == s;
    } else {
      assert u == Goto(s, w, Passed(group));
      assert s.commands[id := c] == s.commands;
    }
  }

  lemma CheckThenInsert(s: State, atomic: Atomic.State, w: nat, group: Group, allowed: bool, ttl: int, now: int)
    requires Mirrors(s, s.workers, atomic) && w !in s.workers && atomic.clock <= now
    ensures var last := if allowed then Insert(w, now + ttl) else Stop(w);
            var u := Next(Next(Next(Next(s, List(w, group)), Check(w, now)), Write(w)), last);
            Mirrors(u, s.workers, Atomic.Next(atomic, now, Atomic.ProposeUnlessBlocked(group, allowed, ttl)))
  {
    var last := if allowed then Insert(w, now + ttl) else Stop(w);
    var latest := Atomic.Latest(s.commands, group);
    hide Atomic.Latest;
    if latest.Some? {
      CheckLatest(s, w, group, latest.value, now);
      var read := Atomic.LatestRead(s.commands, group, now);
      hide Get, Continue, Save, Saved;
      if Atomic.Blocking(s.commands, group, now) {
        assert Stopped(Stopped(s, w), w).workers == s.workers;
      } else {
        assert Goto(s.(commands := read), w, Passed(group)).workers - {w} == s.workers;
      }
    } else {
      assert s.workers[w := Passed(group)] - {w} == s.workers;
    }
  }

  lemma ProposeAppends(s: State, group: Group, expires: int)
    ensures Next(s, Propose(group, expires)) == Append(s, group, expires)
  {
  }

  /** An operation that nobody interrupts does what its atomic form does. */
  lemma UninterruptedIsAtomic(s: State, atomic: Atomic.State, w: nat, now: int, op: Atomic.Op)
    requires Mirrors(s, s.workers, atomic) && w !in s.workers && atomic.clock <= now
    ensures Mirrors(Run(s, StepsOf(w, now, op)), s.workers, Atomic.Next(atomic, now, op))
  {
    hide Next, Atomic.Decided, Atomic.Read, Atomic.LatestRead, Atomic.Latest, Atomic.Blocking;
    match op {
      case Get(id) =>
        ReadThenWrite(s, w, id, ToRead, now);
        RunTwo(s, Read(w, id, ToRead, now), Write(w));
      case Grant(id) =>
        ReadThenWrite(s, w, id, ToGrant, now);
        RunTwo(s, Read(w, id, ToGrant, now), Write(w));
      case Deny(id) =>
        ReadThenWrite(s, w, id, ToDeny, now);
        RunTwo(s, Read(w, id, ToDeny, now), Write(w));
      case Execute(id) =>
        ReadThenRun(s, atomic, w, id, now);
        RunThree(s, Read(w, id, ToRun, now), Write(w), Invoke(w));
      case Propose(group, allowed, ttl) =>
        if allowed {
          ProposeAppends(s, group, now + ttl);
          RunOne(s, Propose(group, now + ttl));
        }
      case ProposeUnlessBlocked(group, allowed, ttl) =>
        CheckThenInsert(s, atomic, w, group, allowed, ttl, now);
        RunFour(s, List(w, group), Check(w, now), Write(w), if allowed then Insert(w, now + ttl) else Stop(w));
    }
  }

  // ---- what no interleaving breaks

  /** Whatever ran, or is about to, was granted at some time. */
  ghost predicate GrantedFirst(s: State) {
    && (forall k :: 0 <= k < |s.commands| && s.commands[k].status == Atomic.GRANTED ==> k in s.granted)
    && (forall w :: w in s.workers && s.workers[w].Running? ==> s.workers[w].id in s.granted)
    && (forall r :: r in s.runs ==> r in s.granted)
  }

  lemma StepKeepsGrantedFirst(s: State, step: Step)
    requires GrantedFirst(s)
    ensures GrantedFirst(Next(s, step))
  {
  }

  lemma {:induction false} RunKeepsGrantedFirst(s: State, steps: seq<Step>)
    requires GrantedFirst(s)
    ensures GrantedFirst(Run(s, steps))
    decreases |steps|
  {
    if steps != [] {
      StepKeepsGrantedFirst(s, steps[0]);
      RunKeepsGrantedFirst(Next(s, steps[0]), steps[1..]);
    }
  }

  /** Over every interleaving and crash nothing runs that was never granted. */
  lemma OnlyGrantedRuns(steps: seq<Step>)
    ensures var s := Run(EMPTY, steps); forall r :: r in s.runs ==> r in s.granted
  {
    RunKeepsGrantedFirst(EMPTY, steps);
  }

  // ---- when a denial holds

  /** The group is filled only through propose_unless_blocked. */
  predicate Guarded(group: Group, steps: seq<Step>) {
    forall step :: step in steps ==> !(step.Propose? && step.group == group)
  }

  predicate Of(s: State, id: nat, group: Group) {
    id < |s.commands| && s.commands[id].group == group
  }

  /** A process that carries a reading of the group which the group has moved
      past: what it does next changes the group. */
  predicate Stale(s: State, pc: Pc, group: Group) {
    match pc
    case Listed(id) => Of(s, id, group) && !Open(s.commands[id].status)
    case Expiring(id, goal) => Of(s, id, group) && (s.commands[id].status != Atomic.EXPIRED || goal == ToCheck)
    case Deciding(id, decision) => Of(s, id, group) && s.commands[id].status != decision
    case Passed(g) => g == group
    case Running(_) => false
  }

  /** Nothing of the group is pending, and nobody carries a stale reading. */
  ghost predicate Quiet(s: State, group: Group) {
    && (forall k: nat :: Of(s, k, group) ==> s.commands[k].status != Atomic.PENDING)
    && (forall w :: w in s.workers ==> !Stale(s, s.workers[w], group))
  }

  predicate LatestDenied(s: State, group: Group) {
    var latest := Atomic.Latest(s.commands, group);
    latest.Some? && s.commands[latest.value].status == Atomic.DENIED
  }

  /** No request of the group is added and none changes. */
  ghost predicate Kept(s: State, t: State, group: Group) {
    && |s.commands| <= |t.commands|
    && (forall k :: 0 <= k < |s.commands| ==>
          t.commands[k].group == s.commands[k].group && (Of(s, k, group) ==> t.commands[k] == s.commands[k]))
    && (forall k :: |s.commands| <= k < |t.commands| ==> t.commands[k].group != group)
  }

  lemma KeptTransitive(s: State, t: State, u: State, group: Group)
    requires Kept(s, t, group) && Kept(t, u, group)
    ensures Kept(s, u, group)
  {
    assert forall k :: 0 <= k < |s.commands| ==> t.commands[k].group == s.commands[k].group;
  }

  /** The latest of the group stays the latest where the group is kept. */
  lemma KeptLatest(s: State, t: State, group: Group)
    requires Kept(s, t, group)
    ensures Atomic.Latest(t.commands, group) == Atomic.Latest(s.commands, group)
  {
    var a, b := Atomic.Latest(s.commands, group), Atomic.Latest(t.commands, group);
    if a.Some? {
      assert t.commands[a.value].group == group;
    }
  }

  lemma GotoKeepsQuiet(s: State, w: nat, pc: Pc, group: Group)
    requires Quiet(s, group)
    ensures Kept(s, Stopped(s, w), group) && Quiet(Stopped(s, w), group)
    ensures !Stale(s, pc, group) ==> Kept(s, Goto(s, w, pc), group) && Quiet(Goto(s, w, pc), group)
  {
  }

  lemma ContinueKeepsQuiet(s: State, w: nat, id: nat, goal: Goal, status: Status, group: Group)
    requires Quiet(s, group) && id < |s.commands|
    requires Of(s, id, group) ==> s.commands[id].status == status && (goal == ToCheck ==> Open(status))
    ensures Kept(s, Continue(s, w, id, goal, status), group) && Quiet(Continue(s, w, id, goal, status), group)
  {
    GotoKeepsQuiet(s, w, Deciding(id, Atomic.GRANTED), group);
    GotoKeepsQuiet(s, w, Deciding(id, Atomic.DENIED), group);
    GotoKeepsQuiet(s, w, Running(id), group);
    GotoKeepsQuiet(s, w, Passed(s.commands[id].group), group);
    hide Quiet, Kept;
  }

  lemma GetKeepsQuiet(s: State, w: nat, id: nat, goal: Goal, now: int, group: Group)
    requires Quiet(s, group) && (Of(s, id, group) && goal == ToCheck ==> Open(s.commands[id].status))
    ensures Kept(s, Get(s, w, id, goal, now), group) && Quiet(Get(s, w, id, goal, now), group)
  {
    GotoKeepsQuiet(s, w, Expiring(id, goal), group);
    if id < |s.commands| {
      ContinueKeepsQuiet(s, w, id, goal, s.commands[id].status, group);
    }
    hide Kept, Continue;
  }

  lemma SaveKeepsQuiet(s: State, id: nat, status: Status, group: Group)
    requires Quiet(s, group) && (Of(s, id, group) ==> s.commands[id].status == status)
    ensures Kept(s, Save(s, id, status), group) && Quiet(Save(s, id, status), group)
  {
    var t := Save(s, id, status);
    forall w | w in t.workers
      ensures !Stale(t, t.workers[w], group)
    {
      assert !Stale(s, s.workers[w], group);
    }
  }

  lemma SavedKeepsQuiet(s: State, w: nat, group: Group)
    requires Quiet(s, group) && w in s.workers
    ensures var t := Saved(s, w, s.workers[w]); Kept(s, t, group) && Quiet(t, group)
  {
    assert !Stale(s, s.workers[w], group);
    GotoKeepsQuiet(s, w, s.workers[w], group);
    match s.workers[w] {
      case Expiring(id, goal) =>
        if id < |s.commands| {
          var t := Save(s, id, Atomic.EXPIRED);
          SaveKeepsQuiet(s, id, Atomic.EXPIRED, group);
          ContinueKeepsQuiet(t, w, id, goal, Atomic.EXPIRED, group);
          KeptTransitive(s, t, Continue(t, w, id, goal, Atomic.EXPIRED), group);
        }
      case Deciding(id, decision) =>
        var t := Save(s, id, decision);
        SaveKeepsQuiet(s, id, decision, group);
        GotoKeepsQuiet(t, w, s.workers[w], group);
        KeptTransitive(s, t, Stopped(t, w), group);
      case _ =>
    }
  }

  lemma AppendKeepsQuiet(s: State, other: Group, expires: int, group: Group)
    requires Quiet(s, group) && other != group
    ensures var t := Append(s, other, expires); Kept(s, t, group) && Quiet(t, group)
  {
    var t := Append(s, other, expires);
    forall w | w in t.workers
      ensures !Stale(t, t.workers[w], group)
    {
      assert !Stale(s, s.workers[w], group);
    }
  }

  lemma QuietStep(s: State, step: Step, group: Group)
    requires Quiet(s, group) && LatestDenied(s, group) && !(step.Propose? && step.group == group)
    ensures var t := Next(s, step); Kept(s, t, group) && Quiet(t, group) && LatestDenied(t, group)
  {
    var t := Next(s, step);
    assert Kept(s, t, group) && Quiet(t, group) by {
      QuietBefore(s, step, group);
    }
    hide Next, Quiet;
    KeptLatest(s, t, group);
  }

  lemma QuietBefore(s: State, step: Step, group: Group)
    requires Quiet(s, group) && LatestDenied(s, group) && !(step.Propose? && step.group == group)
    ensures var t := Next(s, step); Kept(s, t, group) && Quiet(t, group)
  {
    assert Kept(s, s, group);
    match step {
      case Read(w, id, goal, now) => if goal != ToCheck { GetKeepsQuiet(s, w, id, goal, now, group); }
      case List(w, g) =>
        var latest := Atomic.Latest(s.commands, g);
        GotoKeepsQuiet(s, w, if latest.Some? then Listed(latest.value) else Passed(g), group);
      case Check(w, now) =>
        if w in s.workers && s.workers[w].Listed? {
          assert !Stale(s, s.workers[w], group);
          GetKeepsQuiet(s, w, s.workers[w].id, ToCheck, now, group);
        }
      case Write(w) => if w in s.workers { SavedKeepsQuiet(s, w, group); }
      case Insert(w, expires) =>
        if w in s.workers && s.workers[w].Passed? {
          assert !Stale(s, s.workers[w], group);
          var t := Append(s, s.workers[w].group, expires);
          AppendKeepsQuiet(s, s.workers[w].group, expires, group);
          GotoKeepsQuiet(t, w, s.workers[w], group);
          KeptTransitive(s, t, Stopped(t, w), group);
        }
      case Invoke(w) =>
        if w in s.workers && s.workers[w].Running? {
          var t := s.(runs := s.runs + [s.workers[w].id]);
          assert Quiet(t, group) && Kept(s, t, group) by { RunsDoNotMatter(s, t, group); }
          GotoKeepsQuiet(t, w, s.workers[w], group);
          KeptTransitive(s, t, Stopped(t, w), group);
        }
      case Stop(w) => GotoKeepsQuiet(s, w, Running(0), group);
      case Propose(g, expires) => AppendKeepsQuiet(s, g, expires, group);
    }
  }

  lemma RunsDoNotMatter(s: State, t: State, group: Group)
    requires Quiet(s, group) && t.commands == s.commands && t.workers == s.workers
    ensures Quiet(t, group) && Kept(s, t, group)
  {
    forall w | w in t.workers
      ensures !Stale(t, t.workers[w], group)
    {
      assert !Stale(s, s.workers[w], group);
    }
  }

  lemma {:induction false} QuietRun(s: State, steps: seq<Step>, group: Group)
    requires Quiet(s, group) && LatestDenied(s, group) && Guarded(group, steps)
    ensures Kept(s, Run(s, steps), group)
    decreases |steps|
  {
    if steps != [] {
      assert steps[0] in steps;
      QuietStep(s, steps[0], group);
      QuietRun(Next(s, steps[0]), steps[1..], group);
      KeptTransitive(s, Next(s, steps[0]), Run(s, steps), group);
    }
  }

  /** Some guarded continuation adds a request to the group or changes one. */
  ghost predicate CanChange(s: State, group: Group) {
    exists rest :: Guarded(group, rest) && !Kept(s, Run(s, rest), group)
  }

  lemma GrowthIsChange(s: State, t: State, group: Group)
    requires |t.commands| > |s.commands| && t.commands[|s.commands|].group == group
    ensures !Kept(s, t, group)
  {
  }

  lemma StaleChanges(s: State, w: nat, group: Group)
    requires w in s.workers && Stale(s, s.workers[w], group)
    ensures CanChange(s, group)
  {
    var rest := [Insert(w, 0)];
    match s.workers[w] {
      case Listed(id) =>
        rest := [Check(w, 0), Insert(w, 0)];
        RunTwo(s, Check(w, 0), Insert(w, 0));
        assert Next(s, Check(w, 0)) == Goto(s, w, Passed(group));
        GrowthIsChange(s, Run(s, rest), group);
      case Passed(_) =>
        RunOne(s, Insert(w, 0));
        GrowthIsChange(s, Run(s, rest), group);
      case Expiring(id, goal) =>
        rest := [Write(w), Insert(w, 0)];
        RunTwo(s, Write(w), Insert(w, 0));
        if goal == ToCheck {
          GrowthIsChange(s, Run(s, rest), group);
        } else {
          assert Run(s, rest).commands[id].status == Atomic.EXPIRED;
        }
      case Deciding(id, decision) =>
        rest := [Write(w)];
        RunOne(s, Write(w));
        assert Run(s, rest).commands[id].status == decision;
    }
    assert Guarded(group, rest) && !Kept(s, Run(s, rest), group);
  }

  lemma PendingChanges(s: State, k: nat, group: Group)
    requires Of(s, k, group) && s.commands[k].status == Atomic.PENDING
    ensures CanChange(s, group)
  {
    var now := s.commands[k].expires - 1;
    var rest := [Stop(0), Read(0, k, ToDeny, now), Write(0)];
    RunThree(s, Stop(0), Read(0, k, ToDeny, now), Write(0));
    assert Guarded(group, rest) && !Kept(s, Run(s, rest), group);
  }

  /** A denial is final, over every interleaving, if and only if at that
      moment no other request of its category is pending and no process
      carries a stale reading of the category. */
  lemma DenialHoldsIff(s: State, group: Group)
    requires LatestDenied(s, group)
    ensures (forall rest :: Guarded(group, rest) ==> Kept(s, Run(s, rest), group)) <==> Quiet(s, group)
  {
    if Quiet(s, group) {
      forall rest | Guarded(group, rest)
        ensures Kept(s, Run(s, rest), group)
      {
        QuietRun(s, rest, group);
      }
    } else if k: nat :| Of(s, k, group) && s.commands[k].status == Atomic.PENDING {
      PendingChanges(s, k, group);
    } else {
      var w :| w in s.workers && Stale(s, s.workers[w], group);
      StaleChanges(s, w, group);
    }
  }

  /** Processes that take turns leave no reading behind: after the denial of
      the atomic model the category is quiet. */
  lemma AloneIsQuiet(s: State, group: Group, d: nat)
    requires s.workers == map[] && Atomic.DeniedLast(s.commands, group, d)
    ensures LatestDenied(s, group) && Quiet(s, group)
  {
    var latest := Atomic.Latest(s.commands, group);
    assert latest.Some? && latest.value == d;
    forall k: nat | Of(s, k, group)
      ensures s.commands[k].status != Atomic.PENDING
    {
      if k < d {
        assert Atomic.Over(s.commands[k]);
      }
    }
  }

  // ---- two runs in which it does not hold

  lemma {:induction false} RunConcat(s: State, a: seq<Step>, b: seq<Step>)
    ensures Run(s, a + b) == Run(Run(s, a), b)
    decreases |a|
  {
    if a == [] {
      assert a + b == b;
    } else {
      assert (a + b)[1..] == a[1..] + b;
      RunConcat(Next(s, a[0]), a[1..], b);
    }
  }

  /** A request is read and denied by process w while nothing else moves. */
  lemma DenyOnly(s: State, w: nat, id: nat, now: int)
    requires id < |s.commands| && s.commands[id].status == Atomic.PENDING && now < s.commands[id].expires
    requires w !in s.workers
    ensures var t := Run(s, [Read(w, id, ToDeny, now), Write(w)]);
            && t.commands == s.commands[id := s.commands[id].(status := Atomic.DENIED)]
            && t.workers == s.workers && t.runs == s.runs
  {
    RunTwo(s, Read(w, id, ToDeny, now), Write(w));
    assert Goto(s, w, Deciding(id, Atomic.DENIED)).workers - {w} == s.workers;
  }

  /** Two processes pass the block check; one request is denied, then the
      other is stored. */
  lemma RequestAfterDenial(group: Group)
    ensures var asked := [List(1, group), List(2, group), Insert(1, 300)];
            var denied := [Read(3, 0, ToDeny, 1), Write(3)];
            Run(EMPTY, asked + denied + [Insert(2, 300)]).commands ==
              [Atomic.Command(group, 300, Atomic.DENIED), Atomic.Command(group, 300, Atomic.PENDING)]
  {
    var asked, denied := [List(1, group), List(2, group), Insert(1, 300)], [Read(3, 0, ToDeny, 1), Write(3)];
    RunThree(EMPTY, List(1, group), List(2, group), Insert(1, 300));
    var s := Run(EMPTY, asked);
    assert s.commands == [Atomic.Command(group, 300, Atomic.PENDING)] && s.workers == map[2 := Passed(group)];
    DenyOnly(s, 3, 0, 1);
    RunConcat(EMPTY, asked, denied);
    RunConcat(EMPTY, asked + denied, [Insert(2, 300)]);
    RunOne(Run(EMPTY, asked + denied), Insert(2, 300));
  }

  lemma GrantAndRun(s: State, group: Group)
    requires s.commands == [Atomic.Command(group, 300, Atomic.DENIED)] && s.runs == []
    requires s.workers == map[2 := Deciding(0, Atomic.GRANTED)]
    ensures Run(s, [Write(2), Read(4, 0, ToRun, 2), Invoke(4)]).runs == [0]
  {
    RunThree(s, Write(2), Read(4, 0, ToRun, 2), Invoke(4));
    hide Run;
    var t := Next(s, Write(2));
    assert t.commands == [Atomic.Command(group, 300, Atomic.GRANTED)] && t.workers == map[] && t.runs == [];
    assert Next(t, Read(4, 0, ToRun, 2)) == Goto(t, 4, Running(0));
  }

  lemma AskAndReadToGrant(group: Group)
    ensures var s := Run(EMPTY, [List(1, group), Insert(1, 300), Read(2, 0, ToGrant, 1)]);
            && s.commands == [Atomic.Command(group, 300, Atomic.PENDING)] && s.runs == []
            && s.workers == map[2 := Deciding(0, Atomic.GRANTED)]
  {
    RunThree(EMPTY, List(1, group), Insert(1, 300), Read(2, 0, ToGrant, 1));
    hide Run;
    var t := Next(Next(EMPTY, List(1, group)), Insert(1, 300));
    assert t.commands == [Atomic.Command(group, 300, Atomic.PENDING)] && t.workers == map[] && t.runs == [];
  }

  /** A grant read before a denial is written after it, and the request runs. */
  lemma GrantOverDenial(group: Group)
    ensures var asked := [List(1, group), Insert(1, 300), Read(2, 0, ToGrant, 1)];
            var s := Run(EMPTY, asked + [Read(3, 0, ToDeny, 1), Write(3)]);
            && s.commands == [Atomic.Command(group, 300, Atomic.DENIED)]
            && Run(s, [Write(2), Read(4, 0, ToRun, 2), Invoke(4)]).runs == [0]
  {
    hide Run, Next;
    var asked, denied := [List(1, group), Insert(1, 300), Read(2, 0, ToGrant, 1)], [Read(3, 0, ToDeny, 1), Write(3)];
    AskAndReadToGrant(group);
    DenyOnly(Run(EMPTY, asked), 3, 0, 1);
    RunConcat(EMPTY, asked, denied);
    GrantAndRun(Run(EMPTY, asked + denied), group);
  }
}
