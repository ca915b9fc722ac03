/** Command requests that a user grants, denies or lets expire, and the rule
    that a denial blocks its category. Reading a request may write its expiry,
    so an operation that dies after that write has done what a plain read
    does. */
module CommandApproval {
  import opened Prelude

  datatype Status = PENDING | GRANTED | DENIED | EXPIRED

  /** What a request is filed under. */
  datatype Group = Group(mission: nat, category: string)

  datatype Command = Command(group: Group, expires: int, status: Status)

  /** runs: ids in the order in which they were executed. */
  datatype State = State(commands: seq<Command>, runs: seq<nat>, clock: int)

  datatype Failure = NotFound | NotPending(status: Status) | NotGranted(status: Status) | Forbidden
      | Blocked(request: nat)

  datatype Op =
    | Get(id: nat)
    | Grant(id: nat)
    | Deny(id: nat)
    | Execute(id: nat)
    | Propose(group: Group, allowed: bool, ttl: int)
    | ProposeUnlessBlocked(group: Group, allowed: bool, ttl: int)

  // ---- what each operation does

  function Resolved(c: Command, now: int): Command {
    if c.status == PENDING && now >= c.expires then c.(status := EXPIRED) else c
  }

  /** The request read last in its group, by rowid. */
  function Latest(commands: seq<Command>, group: Group): (r: Option<nat>)
    ensures r.Some? ==> r.value < |commands| && commands[r.value].group == group
    ensures r.Some? ==> forall k :: r.value < k < |commands| ==> commands[k].group != group
    ensures r.None? ==> forall k :: 0 <= k < |commands| ==> commands[k].group != group
  {
    var n := |commands|;
    if n == 0 then None else if commands[n - 1].group == group then Some(n - 1) else Latest(commands[..n - 1], group)
  }

  function Read(commands: seq<Command>, id: nat, now: int): seq<Command> {
    if id < |commands| then commands[id := Resolved(commands[id], now)] else commands
  }

  function Decided(commands: seq<Command>, id: nat, now: int, decision: Status): seq<Command> {
    var after := Read(commands, id, now);
    if id < |after| && after[id].status == PENDING then after[id := after[id].(status := decision)] else after
  }

  function Proposed(commands: seq<Command>, group: Group, allowed: bool, ttl: int, now: int): seq<Command> {
    if allowed then commands + [Command(group, now + ttl, PENDING)] else commands
  }

  predicate Blocking(commands: seq<Command>, group: Group, now: int) {
    var latest := Latest(commands, group);
    latest.Some? && (Resolved(commands[latest.value], now).status == PENDING || commands[latest.value].status == DENIED)
  }

  function LatestRead(commands: seq<Command>, group: Group, now: int): seq<Command> {
    var latest := Latest(commands, group);
    if latest.Some? then Read(commands, latest.value, now) else commands
  }

  /** The operation op at time now; a clock that ran backwards is ignored. */
  function Next(s: State, now: int, op: Op): State {
    if now < s.clock then s else
    var t := s.(clock := now);
    match op
    case Get(id) => t.(commands := Read(s.commands, id, now))
    case Grant(id) => t.(commands := Decided(s.commands, id, now, GRANTED))
    case Deny(id) => t.(commands := Decided(s.commands, id, now, DENIED))
    case Execute(id) =>
      t.(commands := Read(s.commands, id, now),
         runs := if id < |s.commands| && s.commands[id].status == GRANTED then s.runs + [id] else s.runs)
    case Propose(group, allowed, ttl) => t.(commands := Proposed(s.commands, group, allowed, ttl, now))
    case ProposeUnlessBlocked(group, allowed, ttl) =>
      var read := LatestRead(s.commands, group, now);
      t.(commands := if Blocking(s.commands, group, now) then read else Proposed(read, group, allowed, ttl, now))
  }

  /** Pending, and not yet expired. */
  predicate Live(c: Command, now: int) {
    c.status == PENDING && now < c.expires
  }

  /** Request k is the last of its group, and it is live or denied. */
  predicate Blocks(commands: seq<Command>, group: Group, now: int, k: nat) {
    && k < |commands| && commands[k].group == group
    && (forall j :: k < j < |commands| ==> commands[j].group != group)
    && (Live(commands[k], now) || commands[k].status == DENIED)
  }

  class Service {
    var s: State

    constructor (now: int)
      ensures s == State([], [], now)
    {
      s := State([], [], now);
    }

    method GetCommand(id: nat, now: int) returns (r: Result<Command, Failure>)
      requires s.clock <= now
      modifies this
      ensures s == Next(old(s), now, Get(id))
      ensures r == if id < |s.commands| then Ok(s.commands[id]) else Err(NotFound)
      ensures id < |old(s).commands| ==>
                var c := old(s).commands[id];
                && s.commands == old(s).commands[id := s.commands[id]]
                && s.commands[id] == if c.status == PENDING && c.expires <= now then c.(status := EXPIRED) else c
    {
      s := s.(clock := now);
      if id >= |s.commands| {
        return Err(NotFound);
      }
      var proposed := s.commands[id];
      if proposed.status == PENDING && now >= proposed.expires {
        proposed := proposed.(status := EXPIRED);
        s := s.(commands := s.commands[id := proposed]);
      }
      return Ok(proposed);
    }

    method GrantCommand(id: nat, now: int) returns (r: Result<(), Failure>)
      requires s.clock <= now
      modifies this
      ensures s == Next(old(s), now, Grant(id))
      ensures r == if id >= |old(s).commands| then Err(NotFound)
                   else if Resolved(old(s).commands[id], now).status != PENDING then
                     Err(NotPending(Resolved(old(s).commands[id], now).status))
                   else Ok(())
      ensures r.Ok? <==> id < |old(s).commands| && Live(old(s).commands[id], now)
      ensures r.Ok? ==> s.commands == old(s).commands[id := old(s).commands[id].(status := GRANTED)]
      ensures r.Err? ==> forall k :: 0 <= k < |s.commands| && s.commands[k].status == GRANTED ==>
                                     old(s).commands[k].status == GRANTED
    {
      var proposed :- GetCommand(id, now);
      if proposed.status != PENDING {
        return Err(NotPending(proposed.status));
      }
      s := s.(commands := s.commands[id := proposed.(status := GRANTED)]);
      return Ok(());
    }

    /** Denying twice is a no-op; any other decided request refuses. */
    method DenyCommand(id: nat, now: int) returns (r: Result<(), Failure>)
      requires s.clock <= now
      modifies this
      ensures s == Next(old(s), now, Deny(id))
      ensures r == if id >= |old(s).commands| then Err(NotFound)
                   else match Resolved(old(s).commands[id], now).status
                        case PENDING => Ok(())
                        case DENIED => Ok(())
                        case other => Err(NotPending(other))
      ensures r.Ok? <==>
                && id < |old(s).commands|
                && (Live(old(s).commands[id], now) || old(s).commands[id].status == DENIED)
      ensures r.Ok? ==> s.commands == old(s).commands[id := old(s).commands[id].(status := DENIED)]
    {
      var proposed :- GetCommand(id, now);
      if proposed.status == DENIED {
        return Ok(());
      }
      if proposed.status != PENDING {
        return Err(NotPending(proposed.status));
      }
      s := s.(commands := s.commands[id := proposed.(status := DENIED)]);
      return Ok(());
    }

    method ExecuteIfGranted(id: nat, now: int) returns (r: Result<(), Failure>)
      requires s.clock <= now
      modifies this
      ensures s == Next(old(s), now, Execute(id))
      ensures r.Ok? <==> id < |old(s).commands| && old(s).commands[id].status == GRANTED
      ensures s.runs == if r.Ok? then old(s).runs + [id] else old(s).runs
    {
      var proposed :- GetCommand(id, now);
      if proposed.status != GRANTED {
        return Err(NotGranted(proposed.status));
      }
      s := s.(runs := s.runs + [id]);
      return Ok(());
    }

    method ProposeCommand(group: Group, allowed: bool, ttl: int, now: int) returns (r: Result<nat, Failure>)
      requires s.clock <= now
      modifies this
      ensures s == Next(old(s), now, Propose(group, allowed, ttl))
      ensures r == if allowed then Ok(|old(s).commands|) else Err(Forbidden)
      ensures s.commands == if allowed then old(s).commands + [Command(group, now + ttl, PENDING)] else old(s).commands
    {
      s := s.(clock := now);
      if !allowed {
        return Err(Forbidden);
      }
      s := s.(commands := s.commands + [Command(group, now + ttl, PENDING)]);
      return Ok(|s.commands| - 1);
    }

    method HasActiveOrDeniedRequest(group: Group, now: int) returns (r: Option<nat>)
      requires s.clock <= now
      modifies this
      ensures s == old(s).(clock := now, commands := LatestRead(old(s).commands, group, now))
      ensures r == if Blocking(old(s).commands, group, now) then Latest(old(s).commands, group) else None
      ensures forall k: nat :: r == Some(k) <==> Blocks(old(s).commands, group, now, k)
    {
      s := s.(clock := now);
      var latest := Latest(s.commands, group);
      if latest.None? {
        return None;
      }
      var found := GetCommand(latest.value, now);
      if found.value.status == PENDING || found.value.status == DENIED {
        return latest;
      }
      return None;
    }

    method ProposeUnlessBlockedCommand(group: Group, allowed: bool, ttl: int, now: int)
      returns (r: Result<nat, Failure>)
      requires s.clock <= now
      modifies this
      ensures s == Next(old(s), now, ProposeUnlessBlocked(group, allowed, ttl))
      ensures r == if Blocking(old(s).commands, group, now) then Err(Blocked(Latest(old(s).commands, group).value))
                   else if allowed then Ok(|old(s).commands|) else Err(Forbidden)
      ensures forall k: nat :: r == Err(Blocked(k)) <==> Blocks(old(s).commands, group, now, k)
      ensures r.Ok? ==>
                && |s.commands| == |old(s).commands| + 1
                && s.commands[|old(s).commands|] == Command(group, now + ttl, PENDING)
      ensures r.Err? ==> |s.commands| == |old(s).commands|
    {
      var blocking := HasActiveOrDeniedRequest(group, now);
      if blocking.Some? {
        return Err(Blocked(blocking.value));
      }
      r := ProposeCommand(group, allowed, ttl, now);
    }
  }

  // ---- every run

  function Run(s: State, ops: seq<(int, Op)>): State
    decreases |ops|
  {
    if ops == [] then s else Run(Next(s, ops[0].0, ops[0].1), ops[1..])
  }

  /** The group is filled only through propose_unless_blocked. */
  predicate Guarded(group: Group, ops: seq<(int, Op)>) {
    forall k :: 0 <= k < |ops| ==> !(ops[k].1.Propose? && ops[k].1.group == group)
  }

  predicate Over(c: Command) {
    c.status == GRANTED || c.status == EXPIRED
  }

  /** Every request of the group but the last is granted or expired. */
  ghost predicate OneLive(commands: seq<Command>, group: Group) {
    forall i, j :: 0 <= i < j < |commands| && commands[i].group == group && commands[j].group == group ==>
         Over(commands[i])
  }

  /** Requests are only added, and a decided one stays as it is. */
  ghost predicate Settles(a: seq<Command>, b: seq<Command>) {
    |a| <= |b| && forall k :: 0 <= k < |a| ==> b[k].group == a[k].group && (a[k].status != PENDING ==> b[k] == a[k])
  }

  /** What ran is granted. */
  ghost predicate RunsGranted(s: State) {
    forall k :: 0 <= k < |s.runs| ==> s.runs[k] < |s.commands| && s.commands[s.runs[k]].status == GRANTED
  }

  lemma StepSettles(s: State, now: int, op: Op)
    ensures Settles(s.commands, Next(s, now, op).commands) && (RunsGranted(s) ==> RunsGranted(Next(s, now, op)))
  {
  }

  lemma SettlingKeepsOneLive(a: seq<Command>, b: seq<Command>, group: Group)
    requires OneLive(a, group) && Settles(a, b) && forall k :: |a| <= k < |b| ==> b[k].group != group
    ensures OneLive(b, group)
  {
  }

  lemma AppendKeepsOneLive(commands: seq<Command>, c: Command)
    requires OneLive(commands, c.group)
    requires var latest := Latest(commands, c.group); latest.Some? ==> Over(commands[latest.value])
    ensures OneLive(commands + [c], c.group)
  {
    var latest := Latest(commands, c.group);
    forall i | 0 <= i < |commands| && commands[i].group == c.group
      ensures Over(commands[i])
    {
      assert i <= latest.value;
      if i < latest.value {
        assert commands[latest.value].group == c.group;
      }
    }
  }

  lemma StepKeepsOneLive(s: State, now: int, op: Op, group: Group)
    requires OneLive(s.commands, group) && !(op.Propose? && op.group == group)
    ensures OneLive(Next(s, now, op).commands, group)
  {
    StepSettles(s, now, op);
    var t := Next(s, now, op);
    if op.ProposeUnlessBlocked? && op.group == group && |t.commands| > |s.commands| {
      var read := LatestRead(s.commands, group, now);
      SettlingKeepsOneLive(s.commands, read, group);
      var latest := Latest(s.commands, group);
      assert Latest(read, group) == latest;
      AppendKeepsOneLive(read, t.commands[|read|]);
    } else {
      SettlingKeepsOneLive(s.commands, t.commands, group);
    }
  }

  lemma GuardedTail(group: Group, ops: seq<(int, Op)>)
    requires Guarded(group, ops) && ops != []
    ensures Guarded(group, ops[1..]) && !(ops[0].1.Propose? && ops[0].1.group == group)
  {
    forall k | 0 <= k < |ops[1..]|
      ensures !(ops[1..][k].1.Propose? && ops[1..][k].1.group == group)
    {
      assert ops[1..][k] == ops[k + 1];
    }
  }

  lemma {:induction false} RunKeepsOneLive(s: State, ops: seq<(int, Op)>, group: Group)
    requires OneLive(s.commands, group) && Guarded(group, ops)
    ensures OneLive(Run(s, ops).commands, group)
    decreases |ops|
  {
    if ops != [] {
      GuardedTail(group, ops);
      StepKeepsOneLive(s, ops[0].0, ops[0].1, group);
      RunKeepsOneLive(Next(s, ops[0].0, ops[0].1), ops[1..], group);
    }
  }

  lemma {:induction false} RunSettles(s: State, ops: seq<(int, Op)>)
    ensures Settles(s.commands, Run(s, ops).commands) && (RunsGranted(s) ==> RunsGranted(Run(s, ops)))
    decreases |ops|
  {
    if ops != [] {
      StepSettles(s, ops[0].0, ops[0].1);
      RunSettles(Next(s, ops[0].0, ops[0].1), ops[1..]);
    }
  }

  function Empty(clock: int): State {
    State([], [], clock)
  }

  /** Over every run: only the last request of a guarded group is pending or
      denied, at most one is pending, and whatever ran had been granted. */
  lemma AtMostOneLive(clock: int, ops: seq<(int, Op)>, group: Group)
    requires Guarded(group, ops)
    ensures var s := Run(Empty(clock), ops);
      && OneLive(s.commands, group) && RunsGranted(s)
      && forall i, j :: 0 <= i < j < |s.commands| && s.commands[i].group == s.commands[j].group == group ==>
           s.commands[i].status != PENDING
  {
    RunKeepsOneLive(Empty(clock), ops, group);
    RunSettles(Empty(clock), ops);
  }

  /** A denied request is the last of its group. */
  ghost predicate DeniedLast(commands: seq<Command>, group: Group, d: nat) {
    && d < |commands| && commands[d].group == group && commands[d].status == DENIED
    && OneLive(commands, group) && forall k :: d < k < |commands| ==> commands[k].group != group
  }

  /** After the denial: no further request, none newly granted, and only
      requests that were granted before it run. */
  ghost predicate Barred(s: State, t: State, group: Group) {
    && Settles(s.commands, t.commands)
    && (forall k :: |s.commands| <= k < |t.commands| ==> t.commands[k].group != group)
    && (forall k :: 0 <= k < |s.commands| && s.commands[k].group == group ==> t.commands[k] == s.commands[k])
    && s.runs <= t.runs
    && (forall r :: |s.runs| <= r < |t.runs| && t.runs[r] < |s.commands| && s.commands[t.runs[r]].group == group ==>
          s.commands[t.runs[r]].status == GRANTED)
  }

  lemma DenialAddsNone(s: State, now: int, op: Op, group: Group, d: nat)
    requires DeniedLast(s.commands, group, d) && !(op.Propose? && op.group == group)
    ensures var b := Next(s, now, op).commands; forall k :: |s.commands| <= k < |b| ==> b[k].group != group
  {
    assert Latest(s.commands, group) == Some(d);
  }

  lemma StepRunsGranted(s: State, now: int, op: Op)
    ensures var t := Next(s, now, op);
      && s.runs <= t.runs
      && forall r :: |s.runs| <= r < |t.runs| ==> t.runs[r] < |s.commands| && s.commands[t.runs[r]].status == GRANTED
  {
  }

  lemma DenialBarsStep(s: State, now: int, op: Op, group: Group, d: nat)
    requires DeniedLast(s.commands, group, d) && !(op.Propose? && op.group == group)
    ensures var t := Next(s, now, op); DeniedLast(t.commands, group, d) && Barred(s, t, group)
  {
    var b := Next(s, now, op).commands;
    StepSettles(s, now, op);
    StepRunsGranted(s, now, op);
    DenialAddsNone(s, now, op, group, d);
    SettlingKeepsOneLive(s.commands, b, group);
    forall k | 0 <= k < |s.commands| && s.commands[k].group == group
      ensures b[k] == s.commands[k]
    {
      if k < d {
        assert Over(s.commands[k]);
      }
    }
  }

  lemma {:induction false} DenialBarsRun(s: State, ops: seq<(int, Op)>, group: Group, d: nat)
    requires DeniedLast(s.commands, group, d) && Guarded(group, ops)
    ensures var t := Run(s, ops); DeniedLast(t.commands, group, d) && Barred(s, t, group)
    decreases |ops|
  {
    if ops != [] {
      GuardedTail(group, ops);
      DenialBarsStep(s, ops[0].0, ops[0].1, group, d);
      DenialBarsRun(Next(s, ops[0].0, ops[0].1), ops[1..], group, d);
    }
  }

  /** Denial is authoritative: from the first denial in a guarded group on, no
      run of the service adds a request to it or grants one. */
  lemma DenialIsAuthoritative(clock: int, before: seq<(int, Op)>, after: seq<(int, Op)>, group: Group, d: nat)
    requires Guarded(group, before) && Guarded(group, after)
    requires var s := Run(Empty(clock), before);
             d < |s.commands| && s.commands[d].group == group && s.commands[d].status == DENIED
    ensures Barred(Run(Empty(clock), before), Run(Run(Empty(clock), before), after), group)
  {
    var s := Run(Empty(clock), before);
    RunKeepsOneLive(Empty(clock), before, group);
    forall k | d < k < |s.commands|
      ensures s.commands[k].group != group
    {
      if s.commands[k].group == group {
        assert false;
      }
    }
    DenialBarsRun(s, after, group, d);
  }

  /** Some request of the group ran between two states. */
  ghost predicate Ran(s: State, t: State, group: Group) {
    exists r :: |s.runs| <= r < |t.runs| && t.runs[r] < |t.commands| && t.commands[t.runs[r]].group == group
  }

  ghost predicate HasGrant(commands: seq<Command>, group: Group) {
    exists k :: 0 <= k < |commands| && commands[k].group == group && commands[k].status == GRANTED
  }

  /** What a denial does not reach: a request granted before it. The group can
      still run something iff it holds one. */
  lemma RunsAfterDenialIffGrantedBefore(s: State, group: Group, d: nat)
    requires RunsGranted(s) && DeniedLast(s.commands, group, d)
    ensures (exists ops :: Guarded(group, ops) && Ran(s, Run(s, ops), group)) <==> HasGrant(s.commands, group)
  {
    forall ops | Guarded(group, ops) && Ran(s, Run(s, ops), group)
      ensures HasGrant(s.commands, group)
    {
      var t := Run(s, ops);
      DenialBarsRun(s, ops, group, d);
      RunSettles(s, ops);
      var r :| |s.runs| <= r < |t.runs| && t.runs[r] < |t.commands| && t.commands[t.runs[r]].group == group;
      assert s.commands[t.runs[r]].status == GRANTED;
    }
    if HasGrant(s.commands, group) {
      var k :| 0 <= k < |s.commands| && s.commands[k].group == group && s.commands[k].status == GRANTED;
      var ops := [(s.clock, Execute(k))];
      var t := Next(s, s.clock, Execute(k));
      assert Run(s, ops) == t by {
        assert ops[1..] == [];
        assert Run(t, []) == t;
      }
      assert t.runs[|s.runs|] == k;
      assert Guarded(group, ops) && Ran(s, Run(s, ops), group);
    }
  }

  /** Such a state is reached by asking twice: the grant of the first outlives
      the denial of the second, and it may be used any number of times. */
  lemma EarlierGrantOutlivesDenial(group: Group)
    ensures var asked := [(0, ProposeUnlessBlocked(group, true, 300)), (1, Grant(0)),
                          (2, ProposeUnlessBlocked(group, true, 300)), (3, Deny(1))];
            var s := Run(Empty(0), asked);
            && s.commands == [Command(group, 300, GRANTED), Command(group, 302, DENIED)]
            && Next(Next(s, 4, Execute(0)), 5, Execute(0)).runs == [0, 0]
  {
    var ask := ProposeUnlessBlocked(group, true, 300);
    var last := [(2, ask), (3, Deny(1))];
    FirstAsked(group);
    SecondAsked(group);
    hide Next;
    RunTwo(Empty(0), (0, ask), (1, Grant(0)), last);
    RunTwo(Next(Next(Empty(0), 0, ask), 1, Grant(0)), last[0], last[1], []);
    assert last + [] == last && [(0, ask), (1, Grant(0))] + last == [(0, ask), (1, Grant(0)), (2, ask), (3, Deny(1))];
  }

  lemma FirstAsked(group: Group)
    ensures Next(Next(Empty(0), 0, ProposeUnlessBlocked(group, true, 300)), 1, Grant(0)) ==
              State([Command(group, 300, GRANTED)], [], 1)
  {
    assert Next(Empty(0), 0, ProposeUnlessBlocked(group, true, 300)).commands == [Command(group, 300, PENDING)];
  }

  lemma SecondAsked(group: Group)
    ensures var s := State([Command(group, 300, GRANTED)], [], 1);
            var t := Next(Next(s, 2, ProposeUnlessBlocked(group, true, 300)), 3, Deny(1));
            && t.commands == [Command(group, 300, GRANTED), Command(group, 302, DENIED)]
            && Next(Next(t, 4, Execute(0)), 5, Execute(0)).runs == [0, 0]
  {
    var s := State([Command(group, 300, GRANTED)], [], 1);
    assert Latest(s.commands, group) == Some(0);
    assert Next(s, 2, ProposeUnlessBlocked(group, true, 300)).commands ==
              [Command(group, 300, GRANTED), Command(group, 302, PENDING)];
  }

  lemma RunTwo(s: State, a: (int, Op), b: (int, Op), rest: seq<(int, Op)>)
    ensures Run(s, [a, b] + rest) == Run(Next(Next(s, a.0, a.1), b.0, b.1), rest)
  {
    hide Next;
    assert ([a, b] + rest)[1..] == [b] + rest && ([b] + rest)[1..] == rest;
    assert Run(s, [a, b] + rest) == Run(Next(s, a.0, a.1), [b] + rest);
  }
}
