/** Remote mutations under approval: propose, decide, execute, observe and
    poll, one call at a time, where the process may die before any durable
    write. */
module ExternalActions {
  import opened Prelude

  datatype Level = AUTO | CONFIRM | HUMAN_ONLY
  datatype ApprovalStatus = PENDING | GRANTED | DENIED | EXPIRED
  datatype Kind = VERIFICATION_REQUEST | DEPLOY | OTHER
  /** REFUSED is Joust's ExternalActionStatus.DENIED. */
  datatype Status = PROPOSED | APPROVED | REFUSED | EXECUTING | EXECUTED | AWAITING_EXTERNAL | VERIFIED | FAILED

  /** Everything that makes two proposals the same intent; hasRoute says
      whether the payload names a contact route. */
  datatype Intent = Intent(
    mission: nat, kind: Kind, target: string, description: string, risk: nat, level: Level,
    hasRoute: bool, payload: nat, expected: nat)

  /** An idempotency key after strip(). */
  type Key = string

  datatype Action = Action(intent: Intent, key: Key, approval: nat, status: Status, result: Option<nat>)

  datatype Outcome = Match | Pending | Mismatch
  datatype Observation = Observation(action: nat, outcome: Outcome, evidence: nat)

  /** One call of an executor, with what was stored when it was made. */
  datatype Call = Call(action: nat, key: Key, approval: ApprovalStatus, stored: bool)

  /** The tables, rows by id; evidence counts its rows. calls is no table: it
      records what the executors saw. */
  datatype Tables = Tables(
    actions: seq<Action>, approvals: seq<ApprovalStatus>, observations: seq<Observation>, evidence: nat,
    calls: seq<Call>)

  /** What the executor and the observer answer if called. */
  datatype Answer = Returned(value: nat) | Raises | AnswerUnavailable
  datatype Reading = Observed(outcome: Outcome) | ObserverRaises | ReadingUnavailable

  datatype Failure =
    | Crashed | NoSuchRow
    | AutoNotAllowed | EmptyKey | KeyBoundToAnother
    | NoLongerPending | NotConfirmed | NotGranted
    | CallRaised | Unavailable | DidNotMatch
    | NotDelivered | NotAHandoff | NoContactRoute

  /** The latest verified observation of an action. */
  function LastMatch(observations: seq<Observation>, action: nat): (r: Option<nat>)
    ensures r.Some? ==>
              && r.value < |observations|
              && observations[r.value].action == action && observations[r.value].outcome == Match
    ensures forall k :: 0 <= k < |observations| && (r.Some? ==> r.value < k) && observations[k].action == action ==>
              observations[k].outcome != Match
  {
    var n := |observations|;
    if n == 0 then None
    else if observations[n - 1].action == action && observations[n - 1].outcome == Match then Some(n - 1)
    else LastMatch(observations[..n - 1], action)
  }

  /** The key lookup of propose. */
  function BoundTo(actions: seq<Action>, key: Key): (r: Option<nat>)
    ensures r.Some? ==> r.value < |actions| && actions[r.value].key == key
    ensures r.None? ==> forall i :: 0 <= i < |actions| ==> actions[i].key != key
  {
    var n := |actions|;
    if n == 0 then None else if actions[n - 1].key == key then Some(n - 1) else BoundTo(actions[..n - 1], key)
  }

  // ---- what is true of the stored rows at every moment

  predicate Started(s: Status) {
    !s.PROPOSED? && !s.REFUSED?
  }

  predicate Delivered(s: Status) {
    s.EXECUTED? || s.AWAITING_EXTERNAL? || s.VERIFIED?
  }

  predicate Resumable(a: Action) {
    a.result.Some? && (a.status.EXECUTED? || a.status.AWAITING_EXTERNAL? || a.status.FAILED?)
  }

  ghost predicate ActionOk(a: Action, approvals: seq<ApprovalStatus>, matched: bool) {
    && a.intent.level != AUTO && |a.key| > 0
    && a.approval < |approvals|
    && (Started(a.status) ==> approvals[a.approval] == GRANTED)
    && (a.result.Some? ==> Delivered(a.status) || a.status == FAILED)
    && (Delivered(a.status) ==> a.result.Some?)
    && (a.status == VERIFIED ==> matched)
    && (matched ==> a.result.Some?)
  }

  ghost predicate ObservationOk(o: Observation, actions: seq<Action>, evidence: nat) {
    o.action < |actions| && actions[o.action].result.Some? && o.evidence < evidence
  }

  ghost predicate CallOk(c: Call, actions: seq<Action>) {
    c.action < |actions| && c.key == actions[c.action].key && c.approval == GRANTED && !c.stored
  }

  ghost predicate Inv(t: Tables) {
    && (forall i :: 0 <= i < |t.actions| ==> ActionOk(t.actions[i], t.approvals, LastMatch(t.observations, i).Some?))
    && (forall i, j :: 0 <= i < j < |t.actions| ==> t.actions[i].key != t.actions[j].key)
    && (forall k :: 0 <= k < |t.observations| ==> ObservationOk(t.observations[k], t.actions, t.evidence))
    && (forall k :: 0 <= k < |t.calls| ==> CallOk(t.calls[k], t.actions))
  }

  lemma StoredAction(t: Tables, i: nat)
    requires Inv(t) && i < |t.actions|
    ensures ActionOk(t.actions[i], t.approvals, LastMatch(t.observations, i).Some?)
  {
  }

  /** An action moves on: its identity stays and a stored result stays. */
  ghost predicate Onward(a: Action, b: Action) {
    b.intent == a.intent && b.key == a.key && b.approval == a.approval && (a.result.Some? ==> b.result == a.result)
  }

  /** Nothing stored is lost; decided approvals stay decided; an action whose
      result is stored is not executed again. */
  ghost predicate Later(t: Tables, u: Tables) {
    && |t.actions| <= |u.actions| && (forall i :: 0 <= i < |t.actions| ==> Onward(t.actions[i], u.actions[i]))
    && |t.approvals| <= |u.approvals|
    && (forall p :: 0 <= p < |t.approvals| && t.approvals[p] != PENDING ==> u.approvals[p] == t.approvals[p])
    && t.observations <= u.observations && t.evidence <= u.evidence && t.calls <= u.calls
    && (forall k :: |t.calls| <= k < |u.calls| && u.calls[k].action < |t.actions| ==>
           t.actions[u.calls[k].action].result.None?)
  }

  lemma LaterReflexive(t: Tables)
    ensures Later(t, t)
  {
  }

  lemma LaterTransitive(t: Tables, u: Tables, v: Tables)
    requires Later(t, u) && Later(u, v)
    ensures Later(t, v)
  {
    forall i | 0 <= i < |t.actions|
      ensures Onward(t.actions[i], v.actions[i])
    {
      assert Onward(t.actions[i], u.actions[i]) && Onward(u.actions[i], v.actions[i]);
    }
    forall k | |t.calls| <= k < |v.calls| && v.calls[k].action < |t.actions|
      ensures t.actions[v.calls[k].action].result.None?
    {
      var i := v.calls[k].action;
      assert Onward(t.actions[i], u.actions[i]);
      if k < |u.calls| {
        assert v.calls[k] == u.calls[k];
      }
    }
  }

  lemma UpdateKeepsInv(t: Tables, i: nat, a: Action)
    requires Inv(t) && i < |t.actions|
    requires Onward(t.actions[i], a) && ActionOk(a, t.approvals, LastMatch(t.observations, i).Some?)
    ensures var u := t.(actions := t.actions[i := a]); Inv(u) && Later(t, u)
  {
  }

  lemma ObservationKeepsInv(t: Tables, o: Observation)
    requires Inv(t) && ObservationOk(o, t.actions, t.evidence)
    ensures var u := t.(observations := t.observations + [o]);
            && Inv(u) && Later(t, u)
            && forall i :: LastMatch(u.observations, i)
                           == if o.action == i && o.outcome == Match then Some(|t.observations|)
                              else LastMatch(t.observations, i)
  {
    var u := t.(observations := t.observations + [o]);
    assert u.observations[..|t.observations|] == t.observations;
    forall i | 0 <= i < |t.actions|
      ensures ActionOk(u.actions[i], u.approvals, LastMatch(u.observations, i).Some?)
    {
      assert ActionOk(t.actions[i], t.approvals, LastMatch(t.observations, i).Some?);
    }
  }

  lemma CallKeepsInv(t: Tables, i: nat)
    requires Inv(t) && i < |t.actions| && t.actions[i].status == EXECUTING
    ensures var a := t.actions[i];
            var u := t.(calls := t.calls + [Call(i, a.key, t.approvals[a.approval], a.result.Some?)]);
            a.approval < |t.approvals| && Inv(u) && Later(t, u)
  {
    assert ActionOk(t.actions[i], t.approvals, LastMatch(t.observations, i).Some?);
  }

  lemma ProposalKeepsInv(t: Tables, a: Action)
    requires Inv(t) && BoundTo(t.actions, a.key).None? && a.status == PROPOSED && ActionOk(a, t.approvals, false)
    ensures var u := t.(actions := t.actions + [a]); Inv(u) && Later(t, u)
  {
    hide LastMatch, BoundTo;
    var u, n := t.(actions := t.actions + [a]), |t.actions|;
    assert LastMatch(t.observations, n).None? by {
      assert forall k :: 0 <= k < |t.observations| ==> ObservationOk(t.observations[k], t.actions, t.evidence);
    }
    forall k | 0 <= k < |t.observations|
      ensures ObservationOk(u.observations[k], u.actions, u.evidence)
    {
      assert ObservationOk(t.observations[k], t.actions, t.evidence);
    }
    forall k | 0 <= k < |t.calls|
      ensures CallOk(u.calls[k], u.actions)
    {
      assert CallOk(t.calls[k], t.actions);
    }
  }

  lemma ApprovalsKeepInv(t: Tables, approvals: seq<ApprovalStatus>)
    requires Inv(t) && |t.approvals| <= |approvals|
    requires forall p :: 0 <= p < |t.approvals| && t.approvals[p] != PENDING ==> approvals[p] == t.approvals[p]
    ensures var u := t.(approvals := approvals); Inv(u) && Later(t, u)
  {
    forall i | 0 <= i < |t.actions|
      ensures ActionOk(t.actions[i], approvals, LastMatch(t.observations, i).Some?)
    {
      assert ActionOk(t.actions[i], t.approvals, LastMatch(t.observations, i).Some?);
    }
  }

  // ---- execute, as seen from outside

  /** After the executor's turn: Some result exactly when it is observed next. */
  function Performed(a: Action, answer: Answer): Action {
    if Resumable(a) then a
    else match answer
         case Returned(value) => a.(status := EXECUTED, result := Some(value))
         case Raises => a.(status := FAILED)
         case AnswerUnavailable => a.(status := EXECUTING)
  }

  /** After the observer's turn. */
  function Noted(a: Action, reading: Reading): Action {
    match reading
    case Observed(Match) => a.(status := VERIFIED)
    case Observed(Pending) => a.(status := AWAITING_EXTERNAL)
    case Observed(Mismatch) => a.(status := FAILED)
    case ObserverRaises => a.(status := FAILED)
    case ReadingUnavailable => a
  }

  /** What a call that is granted, not yet verified and not cut short leaves. */
  function Settled(a: Action, answer: Answer, reading: Reading): Action {
    var b := Performed(a, answer);
    if Resumable(b) then Noted(b, reading) else b
  }

  /** What it answers; row is the id of the next observation. */
  function Reply(a: Action, answer: Answer, reading: Reading, row: nat): Result<nat, Failure> {
    if !Resumable(Performed(a, answer)) then Err(if answer == Raises then CallRaised else Unavailable)
    else match reading
         case Observed(Mismatch) => Err(DidNotMatch)
         case Observed(_) => Ok(row)
         case ObserverRaises => Err(CallRaised)
         case ReadingUnavailable => Err(Unavailable)
  }

  /** Result and status after a call that was not cut short, case by case:
      what the executor left, and then what the observer saw of a result. */
  predicate EndsAs(a: Action, b: Action, answer: Answer, reading: Reading, r: Result<nat, Failure>) {
    var resumed := a.result.Some? && a.status in [EXECUTED, AWAITING_EXTERNAL, FAILED];
    && b.intent == a.intent && b.key == a.key && b.approval == a.approval
    && if !resumed && answer.Raises? then
         b.status == FAILED && b.result == a.result && r == Err(CallRaised)
       else if !resumed && answer.AnswerUnavailable? then
         b.status == EXECUTING && b.result == a.result && r == Err(Unavailable)
       else
         && b.result == (if resumed then a.result else Some(answer.value))
         && (reading == Observed(Match) ==> b.status == VERIFIED && r.Ok?)
         && (reading == Observed(Pending) ==> b.status == AWAITING_EXTERNAL && r.Ok?)
         && (reading == Observed(Mismatch) ==> b.status == FAILED && r == Err(DidNotMatch))
         && (reading == ObserverRaises ==> b.status == FAILED && r == Err(CallRaised))
         && (reading == ReadingUnavailable ==>
               b.status == (if resumed then a.status else EXECUTED) && r == Err(Unavailable))
  }

  lemma SettledEndsAs(a: Action, answer: Answer, reading: Reading, row: nat)
    requires a.result.Some? ==> Resumable(a)
    ensures EndsAs(a, Settled(a, answer, reading), answer, reading, Reply(a, answer, reading, row))
  {
  }

  /** At most one call, only without a stored result, only of action i. */
  ghost predicate OneCallAtMost(t: Tables, u: Tables, i: nat) {
    || u.calls == t.calls
    || (|u.calls| == |t.calls| + 1 && u.calls[..|t.calls|] == t.calls && u.calls[|t.calls|].action == i)
  }

  // ---- a death between the observation row and the action row

  /** The remote state was seen to match, and the status does not say so. */
  predicate Behind(t: Tables, i: nat) {
    i < |t.actions| && LastMatch(t.observations, i).Some? && t.actions[i].status != VERIFIED
  }

  /** An attempt leaves the action behind exactly with these writes left. */
  predicate DiesBehind(a: Action, answer: Answer, reading: Reading, writes: nat) {
    && reading == Observed(Match)
    && if Resumable(a) then writes == 2 else answer.Returned? && writes == 5
  }

  /** Once a matching observation of it is stored, an action row never changes
      again, and that observation stays the one that is returned. */
  ghost predicate Untouched(t: Tables, u: Tables) {
    && |t.actions| <= |u.actions|
    && forall k :: 0 <= k < |t.actions| && LastMatch(t.observations, k).Some? ==>
         u.actions[k] == t.actions[k] && LastMatch(u.observations, k) == LastMatch(t.observations, k)
  }

  lemma UntouchedTransitive(t: Tables, u: Tables, v: Tables)
    requires Untouched(t, u) && Untouched(u, v)
    ensures Untouched(t, v)
  {
    forall k | 0 <= k < |t.actions| && LastMatch(t.observations, k).Some?
      ensures v.actions[k] == t.actions[k] && LastMatch(v.observations, k) == LastMatch(t.observations, k)
    {
      assert LastMatch(u.observations, k) == LastMatch(t.observations, k);
    }
  }

  /** Observations of other actions. */
  ghost predicate OthersKept(before: seq<Observation>, after: seq<Observation>, i: nat) {
    forall k :: k != i ==> LastMatch(after, k) == LastMatch(before, k)
  }

  // ---- handoffs to a third party

  datatype Delivery = Receipt(value: nat, hasReference: bool) | DeliveryRaises

  /** The public marker, or why it could not be read. */
  datatype Registry = Marker | NoMarker | Unreadable | ReaderBroken

  function ToAnswer(d: Delivery): Answer {
    if d.Receipt? && d.hasReference then Returned(d.value) else Raises
  }

  function ToReading(r: Registry): Reading {
    match r
    case Marker => Observed(Match)
    case NoMarker => Observed(Pending)
    case Unreadable => ReadingUnavailable
    case ReaderBroken => ObserverRaises
  }

  /** The same for a handoff: only a receipt that names a reference counts as
      delivered, and the public marker decides between verified and waiting. */
  predicate HandedOff(a: Action, b: Action, delivery: Delivery, registry: Registry, r: Result<nat, Failure>) {
    var resumed := a.result.Some? && a.status in [EXECUTED, AWAITING_EXTERNAL, FAILED];
    var delivered := delivery.Receipt? && delivery.hasReference;
    if !resumed && !delivered then
      b.intent == a.intent && b.status == FAILED && b.result == a.result && r == Err(CallRaised)
    else
      && b.intent == a.intent && b.result == (if resumed then a.result else Some(delivery.value))
      && match registry
         case Marker => b.status == VERIFIED && r.Ok?
         case NoMarker => b.status == AWAITING_EXTERNAL && r.Ok?
         case Unreadable => b.status == (if resumed then a.status else EXECUTED) && r == Err(Unavailable)
         case ReaderBroken => b.status == FAILED && r == Err(CallRaised)
  }

  datatype Request =
    | ToPropose(intent: Intent, key: Key)
    | ToDecide(approval: nat, granted: bool, confirmed: bool)
    | ToExecute(action: nat, answer: Answer, reading: Reading)
    | ToDeliver(action: nat, delivery: Delivery, registry: Registry)
    | ToPoll(action: nat, registry: Registry)

  class Service {
    var t: Tables
    var budget: nat

    constructor (writes: nat)
      ensures Inv(t) && t == Tables([], [], [], 0, []) && budget == writes
    {
      t, budget := Tables([], [], [], 0, []), writes;
    }

    method Write() returns (r: Result<(), Failure>)
      modifies this`budget
      ensures r == if old(budget) == 0 then Err(Crashed) else Ok(())
      ensures budget == if old(budget) == 0 then 0 else old(budget) - 1
    {
      if budget == 0 {
        return Err(Crashed);
      }
      budget := budget - 1;
      return Ok(());
    }

    method SaveAction(i: nat, a: Action) returns (r: Result<(), Failure>)
      requires Inv(t) && i < |t.actions|
      requires Onward(t.actions[i], a) && ActionOk(a, t.approvals, LastMatch(t.observations, i).Some?)
      modifies this
      ensures Inv(t) && Later(old(t), t)
      ensures r == if old(budget) == 0 then Err(Crashed) else Ok(())
      ensures budget == if old(budget) == 0 then 0 else old(budget) - 1
      ensures t == if r.Ok? then old(t).(actions := old(t).actions[i := a]) else old(t)
    {
      var _ :- Write();
      UpdateKeepsInv(t, i, a);
      t := t.(actions := t.actions[i := a]);
      return Ok(());
    }

    /** ApprovalService.request */
    method RequestApproval(level: Level) returns (r: Result<nat, Failure>)
      requires Inv(t)
      modifies this
      ensures Inv(t) && Later(old(t), t)
      ensures r == if old(budget) == 0 then Err(Crashed) else Ok(|old(t).approvals|)
      ensures t == if r.Ok? then old(t).(approvals := old(t).approvals + [if level == AUTO then GRANTED else PENDING])
                   else old(t)
      ensures budget == if old(budget) == 0 then 0 else old(budget) - 1
    {
      var approval := PENDING;
      if level == AUTO {
        approval := GRANTED;
      }
      var _ :- Write();
      ApprovalsKeepInv(t, t.approvals + [approval]);
      t := t.(approvals := t.approvals + [approval]);
      return Ok(|t.approvals| - 1);
    }

    /** ApprovalService.decide */
    method Decide(p: nat, granted: bool, confirmed: bool) returns (r: Result<(), Failure>)
      requires Inv(t)
      modifies this
      ensures Inv(t) && Later(old(t), t)
      ensures r == if p >= |old(t).approvals| then Err(NoSuchRow)
                   else if old(t).approvals[p] != PENDING then Err(NoLongerPending)
                   else if !confirmed then Err(NotConfirmed)
                   else if old(budget) == 0 then Err(Crashed) else Ok(())
      ensures var decision := if granted then GRANTED else ApprovalStatus.DENIED;
              t == if r.Ok? then old(t).(approvals := old(t).approvals[p := decision]) else old(t)
    {
      if p >= |t.approvals| {
        return Err(NoSuchRow);
      }
      if t.approvals[p] != PENDING {
        return Err(NoLongerPending);
      }
      if !confirmed {
        return Err(NotConfirmed);
      }
      var _ :- Write();
      var decision := if granted then GRANTED else ApprovalStatus.DENIED;
      ApprovalsKeepInv(t, t.approvals[p := decision]);
      t := t.(approvals := t.approvals[p := decision]);
      return Ok(());
    }

    method InsertAction(a: Action) returns (r: Result<nat, Failure>)
      requires Inv(t) && BoundTo(t.actions, a.key).None? && a.status == PROPOSED && ActionOk(a, t.approvals, false)
      modifies this
      ensures Inv(t) && Later(old(t), t)
      ensures r == if old(budget) == 0 then Err(Crashed) else Ok(|old(t).actions|)
      ensures t == if r.Ok? then old(t).(actions := old(t).actions + [a]) else old(t)
    {
      var _ :- Write();
      ProposalKeepsInv(t, a);
      t := t.(actions := t.actions + [a]);
      return Ok(|t.actions| - 1);
    }

    method Propose(intent: Intent, key: Key) returns (r: Result<nat, Failure>)
      requires Inv(t)
      modifies this
      ensures Inv(t) && Later(old(t), t) && Untouched(old(t), t)
      ensures t.observations == old(t).observations && t.calls == old(t).calls
      ensures var prior := BoundTo(old(t).actions, key);
        r == if intent.level == AUTO then Err(AutoNotAllowed)
             else if |key| == 0 then Err(EmptyKey)
             else if prior.Some? then
               (if old(t).actions[prior.value].intent == intent then Ok(prior.value) else Err(KeyBoundToAnother))
             else if old(budget) < 2 then Err(Crashed) else Ok(|old(t).actions|)
      ensures (r.Err? && r.error != Crashed) || BoundTo(old(t).actions, key).Some? ==> t == old(t)
      ensures r == Err(Crashed) ==> t.actions == old(t).actions
      ensures r == Ok(|old(t).actions|) ==>
                t.actions == old(t).actions + [Action(intent, key, |old(t).approvals|, PROPOSED, None)]
                                            && t.approvals == old(t).approvals + [PENDING]
    {
      hide Inv, Later;
      LaterReflexive(t);
      if intent.level == AUTO {
        return Err(AutoNotAllowed);
      }
      if |key| == 0 {
        return Err(EmptyKey);
      }
      var prior := BoundTo(t.actions, key);
      if prior.Some? {
        if t.actions[prior.value].intent != intent {
          return Err(KeyBoundToAnother);
        }
        return Ok(prior.value);
      }
      var approval :- RequestApproval(intent.level);
      ghost var requested := t;
      r := InsertAction(Action(intent, key, approval, PROPOSED, None));
      LaterTransitive(old(t), requested, t);
    }

    /** APPROVED, then EXECUTING. */
    method Announce(i: nat) returns (r: Result<(), Failure>)
      requires Inv(t) && i < |t.actions| && LastMatch(t.observations, i).None? && !Resumable(t.actions[i])
      requires t.actions[i].approval < |t.approvals| && t.approvals[t.actions[i].approval] == GRANTED
      modifies this
      ensures Inv(t) && Later(old(t), t)
      ensures t == old(t).(actions := old(t).actions[i := t.actions[i]])
      ensures r == if old(budget) < 2 then Err(Crashed) else Ok(())
      ensures r.Ok? ==> t.actions[i] == old(t).actions[i].(status := EXECUTING) && budget == old(budget) - 2
    {
      hide Inv, Later;
      var a := t.actions[i];
      StoredAction(t, i);
      var _ :- SaveAction(i, a.(status := APPROVED));
      ghost var approved := t;
      r := SaveAction(i, a.(status := EXECUTING));
      LaterTransitive(old(t), approved, t);
    }

    /** The call, and what is saved of it. */
    method CallExecutor(i: nat, answer: Answer) returns (r: Result<(), Failure>)
      requires Inv(t) && i < |t.actions| && LastMatch(t.observations, i).None? && t.actions[i].status == EXECUTING
      modifies this
      ensures Inv(t) && Later(old(t), t)
      ensures t.approvals == old(t).approvals && t.observations == old(t).observations && t.evidence == old(t).evidence
      ensures |t.calls| == |old(t).calls| + 1 && t.calls[|old(t).calls|].action == i
      ensures t.actions == old(t).actions[i := if old(budget) == 0 then old(t).actions[i]
                                               else Performed(old(t).actions[i], answer)]
      ensures r == if old(budget) == 0 then Err(Crashed)
                   else match answer
                        case Returned(_) => Ok(())
                        case Raises => Err(CallRaised)
                        case AnswerUnavailable => Err(Unavailable)
      ensures budget == if old(budget) == 0 then 0 else old(budget) - 1
    {
      hide Inv, Later;
      var a := t.actions[i];
      StoredAction(t, i);
      CallKeepsInv(t, i);
      t := t.(calls := t.calls + [Call(i, a.key, t.approvals[a.approval], a.result.Some?)]);
      ghost var called := t;
      var after, reply := a, Ok(());
      match answer {
        case Returned(value) => after := a.(status := EXECUTED, result := Some(value));
        case Raises => after, reply := a.(status := FAILED), Err(CallRaised);
        case AnswerUnavailable => reply := Err(Unavailable);
      }
      r := SaveAction(i, after);
      LaterTransitive(old(t), called, t);
      if r.Ok? {
        r := reply;
      }
    }

    /** The executor's part of execute. */
    method Perform(i: nat, answer: Answer) returns (r: Result<(), Failure>)
      requires Inv(t) && i < |t.actions| && LastMatch(t.observations, i).None? && !Resumable(t.actions[i])
      requires t.actions[i].approval < |t.approvals| && t.approvals[t.actions[i].approval] == GRANTED
      modifies this
      ensures Inv(t) && Later(old(t), t) && OneCallAtMost(old(t), t, i)
      ensures t.approvals == old(t).approvals && t.observations == old(t).observations && t.evidence == old(t).evidence
      ensures t.actions == old(t).actions[i := t.actions[i]]
      ensures r != Err(Crashed) ==>
                t.actions[i] == Performed(old(t).actions[i], answer) && |t.calls| == |old(t).calls| + 1
      ensures r == if old(budget) < 3 then Err(Crashed)
                   else match answer
                        case Returned(_) => Ok(())
                        case Raises => Err(CallRaised)
                        case AnswerUnavailable => Err(Unavailable)
      ensures r != Err(Crashed) ==> budget == old(budget) - 3
    {
      hide Inv, Later;
      var _ :- Announce(i);
      ghost var announced := t;
      r := CallExecutor(i, answer);
      LaterTransitive(old(t), announced, t);
    }

    method SaveEvidence() returns (r: Result<nat, Failure>)
      requires Inv(t)
      modifies this
      ensures Inv(t) && Later(old(t), t)
      ensures r == if old(budget) == 0 then Err(Crashed) else Ok(old(t).evidence)
      ensures t == if r.Ok? then old(t).(evidence := old(t).evidence + 1) else old(t)
      ensures budget == if old(budget) == 0 then 0 else old(budget) - 1
    {
      var _ :- Write();
      t := t.(evidence := t.evidence + 1);
      return Ok(t.evidence - 1);
    }

    /** The evidence and the observation row that cites it. */
    method StoreObservation(i: nat, outcome: Outcome) returns (r: Result<nat, Failure>)
      requires Inv(t) && i < |t.actions| && t.actions[i].result.Some?
      modifies this
      ensures Inv(t) && Later(old(t), t)
      ensures r == if old(budget) < 2 then Err(Crashed) else Ok(|old(t).observations|)
      ensures t.actions == old(t).actions && t.approvals == old(t).approvals && t.calls == old(t).calls
      ensures r.Ok? ==>
                && t.observations == old(t).observations + [Observation(i, outcome, old(t).evidence)]
                && budget == old(budget) - 2
      ensures LastMatch(t.observations, i) == if r.Ok? && outcome == Match then Some(|old(t).observations|)
                                              else LastMatch(old(t).observations, i)
      ensures OthersKept(old(t).observations, t.observations, i)
      ensures r.Err? ==> t.observations == old(t).observations
    {
      hide Inv, Later;
      var id :- SaveEvidence();
      ghost var cited := t;
      var _ :- Write();
      ObservationKeepsInv(t, Observation(i, outcome, id));
      t := t.(observations := t.observations + [Observation(i, outcome, id)]);
      LaterTransitive(old(t), cited, t);
      return Ok(|t.observations| - 1);
    }

    method NoteOutcome(i: nat, outcome: Outcome) returns (r: Result<nat, Failure>)
      requires Inv(t) && i < |t.actions| && LastMatch(t.observations, i).None? && Resumable(t.actions[i])
      modifies this
      ensures Inv(t) && Later(old(t), t) && t.calls == old(t).calls && t.approvals == old(t).approvals
      ensures t.actions == old(t).actions[i := if r.Ok? then Noted(old(t).actions[i], Observed(outcome))
                                               else old(t).actions[i]]
      ensures r == if old(budget) < 3 then Err(Crashed) else Ok(|old(t).observations|)
      ensures r.Ok? || old(budget) == 2 ==>
                t.observations == old(t).observations + [Observation(i, outcome, old(t).evidence)]
      ensures LastMatch(t.observations, i) ==
                if outcome == Match && old(budget) >= 2 then Some(|old(t).observations|) else None
      ensures OthersKept(old(t).observations, t.observations, i)
    {
      hide Inv, Later;
      StoredAction(t, i);
      var row :- StoreObservation(i, outcome);
      ghost var stored := t;
      var saved := SaveAction(i, Noted(t.actions[i], Observed(outcome)));
      LaterTransitive(old(t), stored, t);
      return if saved.Ok? then Ok(row) else Err(Crashed);
    }

    /** The observer's part of execute. */
    method Note(i: nat, reading: Reading) returns (r: Result<nat, Failure>)
      requires Inv(t) && i < |t.actions| && LastMatch(t.observations, i).None? && Resumable(t.actions[i])
      modifies this
      ensures Inv(t) && Later(old(t), t) && t.calls == old(t).calls && t.approvals == old(t).approvals
      ensures t.actions == old(t).actions[i := if r == Err(Crashed) then old(t).actions[i]
                                               else Noted(old(t).actions[i], reading)]
      ensures r == if old(budget) < (if reading.Observed? then 3 else 1) then Err(Crashed)
                   else match reading
                        case Observed(Mismatch) => Err(DidNotMatch)
                        case Observed(_) => Ok(|old(t).observations|)
                        case ObserverRaises => Err(CallRaised)
                        case ReadingUnavailable => Err(Unavailable)
      ensures r.Ok? ==> t.observations == old(t).observations + [Observation(i, reading.outcome, old(t).evidence)]
      ensures LastMatch(t.observations, i) ==
                if reading == Observed(Match) && old(budget) >= 2 then Some(|old(t).observations|) else None
      ensures OthersKept(old(t).observations, t.observations, i)
    {
      hide Inv, Later;
      if reading.Observed? {
        r := NoteOutcome(i, reading.outcome);
        if r.Ok? && reading.outcome == Mismatch {
          r := Err(DidNotMatch);
        }
        return;
      }
      StoredAction(t, i);
      var _ :- SaveAction(i, Noted(t.actions[i], reading));
      return Err(if reading.ObserverRaises? then CallRaised else Unavailable);
    }

    /** execute, past the approval check. */
    method Attempt(i: nat, answer: Answer, reading: Reading) returns (r: Result<nat, Failure>)
      requires Inv(t) && i < |t.actions| && LastMatch(t.observations, i).None?
      requires t.actions[i].approval < |t.approvals| && t.approvals[t.actions[i].approval] == GRANTED
      modifies this
      ensures Inv(t) && Later(old(t), t) && OneCallAtMost(old(t), t, i) && t.approvals == old(t).approvals
      ensures t.actions == old(t).actions[i := t.actions[i]]
      ensures Resumable(old(t).actions[i]) ==>
                t.calls == old(t).calls && (r == Err(Crashed) ==> t.actions == old(t).actions)
      ensures r != Err(Crashed) ==> t.actions[i] == Settled(old(t).actions[i], answer, reading)
      ensures r != Err(Crashed) ==> r == Reply(old(t).actions[i], answer, reading, |old(t).observations|)
      ensures r != Err(Crashed) && !Resumable(old(t).actions[i]) ==> |t.calls| == |old(t).calls| + 1
      ensures Behind(t, i) <==> DiesBehind(old(t).actions[i], answer, reading, old(budget))
      ensures Behind(t, i) ==>
                && t.actions[i] == Performed(old(t).actions[i], answer)
                && LastMatch(t.observations, i) == Some(|old(t).observations|)
      ensures OthersKept(old(t).observations, t.observations, i)
      ensures r != Err(Crashed) ==> (LastMatch(t.observations, i).Some? <==>
                reading == Observed(Match) && (Resumable(old(t).actions[i]) || answer.Returned?))
      ensures old(budget) >= (if Resumable(old(t).actions[i]) then 3 else 6) ==> r != Err(Crashed)
    {
      hide Inv, Later;
      LaterReflexive(t);
      StoredAction(t, i);
      if !Resumable(t.actions[i]) {
        var _ :- Perform(i, answer);
      }
      ghost var performed := t;
      r := Note(i, reading);
      LaterTransitive(old(t), performed, t);
    }

    method Execute(i: nat, answer: Answer, reading: Reading) returns (r: Result<nat, Failure>)
      requires Inv(t)
      modifies this
      ensures Inv(t) && Later(old(t), t) && OneCallAtMost(old(t), t, i) && t.approvals == old(t).approvals
      ensures Untouched(old(t), t)
      ensures i >= |old(t).actions| ==> r == Err(NoSuchRow) && t == old(t)
      ensures i < |old(t).actions| && LastMatch(old(t).observations, i).Some? ==>
                r == Ok(LastMatch(old(t).observations, i).value) && t == old(t)
      ensures i < |old(t).actions| && LastMatch(old(t).observations, i).None? ==>
                var a := old(t).actions[i];
                && a.approval < |old(t).approvals| && t.actions == old(t).actions[i := t.actions[i]]
                && (Resumable(a) ==> t.calls == old(t).calls && (r == Err(Crashed) ==> t.actions == old(t).actions))
                && (old(t).approvals[a.approval] != GRANTED ==>
                       r.Err? && t.calls == old(t).calls && (r.error == Crashed || r.error == NotGranted))
                && (Behind(t, i) <==>
                      old(t).approvals[a.approval] == GRANTED && DiesBehind(a, answer, reading, old(budget)))
                && (Behind(t, i) ==>
                      && t.actions[i] == Performed(a, answer)
                      && LastMatch(t.observations, i) == Some(|old(t).observations|))
                && (old(t).approvals[a.approval] == PENDING ==> t == old(t))
                && (old(t).approvals[a.approval] in [ApprovalStatus.DENIED, EXPIRED] && r == Err(NotGranted) ==>
                      t.actions[i] == a.(status := REFUSED))
                && (old(t).approvals[a.approval] == GRANTED && r != Err(Crashed) ==>
                      && EndsAs(a, t.actions[i], answer, reading, r)
                      && |t.calls| == |old(t).calls| + (if Resumable(a) then 0 else 1)
                      && (LastMatch(t.observations, i).Some? <==>
                            reading == Observed(Match) && (Resumable(a) || answer.Returned?))
                      && t.actions[i] == Settled(a, answer, reading)
                      && r == Reply(a, answer, reading, |old(t).observations|))
      ensures old(budget) >= (if i < |old(t).actions| && Resumable(old(t).actions[i]) then 3 else 6) ==>
                r != Err(Crashed)
    {
      hide Inv, Later, LastMatch, Settled, Reply, EndsAs;
      LaterReflexive(t);
      if i >= |t.actions| {
        return Err(NoSuchRow);
      }
      var verified := LastMatch(t.observations, i);
      if verified.Some? {
        return Ok(verified.value);
      }
      var a := t.actions[i];
      StoredAction(t, i);
      var approval := t.approvals[a.approval];
      if approval.DENIED? || approval.EXPIRED? {
        var _ :- SaveAction(i, a.(status := REFUSED));
      }
      if approval != GRANTED {
        return Err(NotGranted);
      }
      SettledEndsAs(a, answer, reading, |t.observations|);
      r := Attempt(i, answer, reading);
    }

    /** _deliver_handoff: the delivery and the public marker. */
    method DeliverHandoff(i: nat, delivery: Delivery, registry: Registry) returns (r: Result<nat, Failure>)
      requires Inv(t)
      modifies this
      ensures Inv(t) && Later(old(t), t) && OneCallAtMost(old(t), t, i) && Untouched(old(t), t)
      ensures i >= |old(t).actions| ==> r == Err(NoSuchRow) && t == old(t)
      ensures i < |old(t).actions| && (LastMatch(old(t).observations, i).Some? || Resumable(old(t).actions[i])) ==>
                t.calls == old(t).calls
      ensures r != Err(DidNotMatch)
      ensures i < |old(t).actions| && !old(t).actions[i].intent.hasRoute ==> r == Err(NoContactRoute) && t == old(t)
      ensures i < |old(t).actions| && old(t).actions[i].intent.hasRoute ==>
                var a := old(t).actions[i];
                && a.approval < |old(t).approvals| && t.actions == old(t).actions[i := t.actions[i]]
                && (LastMatch(old(t).observations, i).Some? ==>
                      r == Ok(LastMatch(old(t).observations, i).value) && t == old(t))
                && (Resumable(a) && r == Err(Crashed) ==> t.actions == old(t).actions)
                && (old(budget) >= (if Resumable(a) then 3 else 6) ==> r != Err(Crashed))
                && (&& LastMatch(old(t).observations, i).None? && old(t).approvals[a.approval] == GRANTED
                    && r != Err(Crashed) ==>
                      && HandedOff(a, t.actions[i], delivery, registry, r)
                      && |t.calls| == |old(t).calls| + (if Resumable(a) then 0 else 1)
                      && (LastMatch(t.observations, i).Some? <==>
                            registry == Marker && (Resumable(a) || ToAnswer(delivery).Returned?))
                      && t.actions[i] == Settled(a, ToAnswer(delivery), ToReading(registry))
                      && r == Reply(a, ToAnswer(delivery), ToReading(registry), |old(t).observations|))
    {
      hide Inv, Later;
      LaterReflexive(t);
      if i >= |t.actions| {
        return Err(NoSuchRow);
      }
      StoredAction(t, i);
      if !t.actions[i].intent.hasRoute {
        return Err(NoContactRoute);
      }
      r := Execute(i, ToAnswer(delivery), ToReading(registry));
    }

    /** Re-observes a delivered handoff. The delivery it passes refuses; no
        call is ever made of it. */
    method PollHandoff(i: nat, registry: Registry) returns (r: Result<nat, Failure>)
      requires Inv(t)
      modifies this
      ensures Inv(t) && Later(old(t), t) && Untouched(old(t), t) && t.calls == old(t).calls
      ensures r != Err(NotGranted) && r != Err(DidNotMatch) && (r == Err(CallRaised) ==> registry == ReaderBroken)
      ensures i < |old(t).actions| && old(t).actions[i].status == AWAITING_EXTERNAL && registry != ReaderBroken ==>
                Delivered(t.actions[i].status) && (t.actions[i].status == VERIFIED ==> registry == Marker)
      ensures i < |old(t).actions| && old(t).actions[i].status != AWAITING_EXTERNAL ==>
                r == Err(NotDelivered) && t == old(t)
      ensures i < |old(t).actions| && old(t).actions[i].status == AWAITING_EXTERNAL
              && old(t).actions[i].intent.kind != OTHER && old(t).actions[i].intent.hasRoute
              && LastMatch(old(t).observations, i).None? && old(budget) >= 3 ==>
                && t.actions == old(t).actions[i := old(t).actions[i].(status := t.actions[i].status)]
                && (LastMatch(t.observations, i).Some? <==> registry == Marker)
                && match registry
                   case Marker => t.actions[i].status == VERIFIED && r.Ok?
                   case NoMarker => t.actions[i].status == AWAITING_EXTERNAL && r.Ok?
                   case Unreadable => t.actions[i].status == AWAITING_EXTERNAL && r == Err(Unavailable)
                   case ReaderBroken => t.actions[i].status == FAILED && r == Err(CallRaised)
    {
      hide Inv, Later;
      LaterReflexive(t);
      if i >= |t.actions| {
        return Err(NoSuchRow);
      }
      if t.actions[i].status != AWAITING_EXTERNAL {
        return Err(NotDelivered);
      }
      if t.actions[i].intent.kind == OTHER {
        return Err(NotAHandoff);
      }
      StoredAction(t, i);
      r := DeliverHandoff(i, DeliveryRaises, registry);
    }

    method Dispatch(request: Request)
      requires Inv(t)
      modifies this
      ensures Inv(t) && Later(old(t), t) && Untouched(old(t), t)
    {
      hide Inv, Later;
      match request {
        case ToPropose(intent, key) => var _ := Propose(intent, key);
        case ToDecide(p, granted, confirmed) => var _ := Decide(p, granted, confirmed);
        case ToExecute(i, answer, reading) => var _ := Execute(i, answer, reading);
        case ToDeliver(i, delivery, registry) => var _ := DeliverHandoff(i, delivery, registry);
        case ToPoll(i, registry) => var _ := PollHandoff(i, registry);
      }
    }

    /** Any number of requests, each served by a process with its own budget. */
    method Serve(requests: seq<(nat, Request)>)
      requires Inv(t)
      modifies this
      ensures Inv(t) && Later(old(t), t) && Untouched(old(t), t)
    {
      hide Inv, Later;
      LaterReflexive(t);
      var next := 0;
      while next < |requests|
        invariant 0 <= next <= |requests|
        invariant Inv(t) && Later(old(t), t) && Untouched(old(t), t)
      {
        ghost var before := t;
        budget := requests[next].0;
        Dispatch(requests[next].1);
        LaterTransitive(old(t), before, t);
        UntouchedTransitive(old(t), before, t);
        next := next + 1;
      }
    }
  }
  /** One whole run of a handoff: delivered while the registry shows nothing,
      then polled any number of times without an answer, then with the marker. */
  method DeliveredThenVerified(intent: Intent, key: Key, value: nat, unanswered: nat) returns (t: Tables)
    requires intent.level != AUTO && |key| > 0 && intent.hasRoute && intent.kind != OTHER
    ensures Inv(t) && |t.actions| == 1 && |t.calls| == 1
    ensures t.actions[0].status == VERIFIED && t.actions[0].result == Some(value)
  {
    hide Inv, Later, LastMatch, Untouched, OneCallAtMost;
    var service := new Service(2);
    var proposed := service.Propose(intent, key);
    service.budget := 1;
    var decided := service.Decide(0, true, true);
    service.budget := 6;
    var delivered := service.DeliverHandoff(0, Receipt(value, true), NoMarker);
    var n := 0;
    while n < unanswered
      invariant Inv(service.t) && |service.t.actions| == 1 && |service.t.calls| == 1
      invariant LastMatch(service.t.observations, 0).None?
      invariant service.t.actions[0].status == AWAITING_EXTERNAL && service.t.actions[0].result == Some(value)
      invariant service.t.actions[0].intent == intent
    {
      service.budget := 3;
      var answer := service.PollHandoff(0, NoMarker);
      n := n + 1;
    }
    service.budget := 3;
    var last := service.PollHandoff(0, Marker);
    t := service.t;
  }

  /** One whole run: proposed, granted, executed by a process that dies right
      after the matching observation row. Whatever is requested afterwards,
      the action stays EXECUTED and is returned as verified. */
  method VerifiedButBehind(
    intent: Intent, key: Key, value: nat, requests: seq<(nat, Request)>, answer: Answer, reading: Reading)
    returns (t: Tables, reply: Result<nat, Failure>)
    requires intent.level != AUTO && |key| > 0
    ensures Inv(t) && Behind(t, 0) && t.actions[0].status == EXECUTED
    ensures reply == Ok(0)
  {
    hide Inv, Later, LastMatch;
    var service := new Service(2);
    var proposed := service.Propose(intent, key);
    service.budget := 1;
    var decided := service.Decide(0, true, true);
    service.budget := 5;
    var dying := service.Execute(0, Returned(value), Observed(Match));
    service.Serve(requests);
    reply := service.Execute(0, answer, reading);
    t := service.t;
  }
}
