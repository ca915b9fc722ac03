/** The monitor lease: three atomic table operations, and every interleaving
    of any number of workers that call them with clock readings that may be
    old by the time the write happens. */
module MonitorLease {
  import opened Prelude

  type Key = nat
  type Token = nat
  datatype Row = Row(holder: Token, expires: int)
  type Rows = map<Key, Row>

  // ---- the three operations

  predicate Available(rows: Rows, key: Key, acquiredAt: int) {
    key !in rows || rows[key].expires <= acquiredAt
  }

  function Acquire(rows: Rows, key: Key, token: Token, acquiredAt: int, expires: int): Rows {
    if Available(rows, key, acquiredAt) then rows[key := Row(token, expires)] else rows
  }

  predicate Holds(rows: Rows, key: Key, token: Token) {
    key in rows && rows[key].holder == token
  }

  function Renew(rows: Rows, key: Key, token: Token, expires: int): Rows {
    if Holds(rows, key, token) then rows[key := Row(token, expires)] else rows
  }

  function Release(rows: Rows, key: Key, token: Token): Rows {
    if Holds(rows, key, token) then rows - {key} else rows
  }

  class LeaseTable {
    var rows: Rows

    constructor ()
      ensures rows == map[]
    {
      rows := map[];
    }

    /** BEGIN IMMEDIATE; SELECT; INSERT ... ON CONFLICT DO UPDATE */
    method AcquireLease(key: Key, token: Token, acquiredAt: int, expires: int) returns (acquired: bool)
      modifies this
      ensures acquired <==> key in old(rows) ==> old(rows)[key].expires <= acquiredAt
      ensures rows == if acquired then old(rows)[key := Row(token, expires)] else old(rows)
      ensures rows == Acquire(old(rows), key, token, acquiredAt, expires)
    {
      if key in rows {
        if acquiredAt < rows[key].expires {
          return false;
        }
      }
      rows := rows[key := Row(token, expires)];
      return true;
    }

    /** UPDATE ... WHERE lease_key = key AND holder = token */
    method RenewLease(key: Key, token: Token, expires: int) returns (renewed: bool)
      modifies this
      ensures renewed <==> key in old(rows) && old(rows)[key].holder == token
      ensures rows == if renewed then old(rows)[key := Row(token, expires)] else old(rows)
      ensures rows == Renew(old(rows), key, token, expires)
    {
      if key in rows && rows[key].holder == token {
        rows := rows[key := Row(token, expires)];
        return true;
      }
      return false;
    }

    /** DELETE ... WHERE lease_key = key AND holder = token */
    method ReleaseLease(key: Key, token: Token) returns (released: bool)
      modifies this
      ensures released <==> key in old(rows) && old(rows)[key].holder == token
      ensures rows == if released then old(rows) - {key} else old(rows)
      ensures rows == Release(old(rows), key, token)
    {
      if key in rows && rows[key].holder == token {
        rows := rows - {key};
        return true;
      }
      return false;
    }
  }

  // ---- all interleavings

  /** A worker that acquired and has not released: its key and the expiry it
      last wrote. */
  datatype Claim = Claim(key: Key, expires: int)

  datatype State = State(clock: int, rows: Rows, claims: map<Token, Claim>, used: set<Token>)

  datatype Step =
    | Tick(now: int)
    | TryAcquire(key: Key, token: Token, readAt: int, duration: int)
    | TryRenew(token: Token, readAt: int, duration: int)
    | DoRelease(token: Token)

  /** Tokens are fresh, a worker renews only its own claim, and a clock
      reading is never ahead of the shared clock. */
  predicate Enabled(s: State, step: Step) {
    match step
    case Tick(now) => s.clock <= now
    case TryAcquire(key, token, readAt, duration) => token !in s.used && readAt <= s.clock
    case TryRenew(token, readAt, duration) => token in s.claims && readAt <= s.clock
    case DoRelease(token) => token in s.claims
  }

  /** A crash is a worker that takes no further step: its row and its claim
      stay behind. */
  function Next(s: State, step: Step): State {
    if !Enabled(s, step) then s else
    match step
    case Tick(now) => s.(clock := now)
    case TryAcquire(key, token, readAt, duration) =>
      var t := s.(rows := Acquire(s.rows, key, token, readAt, readAt + duration), used := s.used + {token});
      if Available(s.rows, key, readAt) then t.(claims := t.claims[token := Claim(key, readAt + duration)]) else t
    case TryRenew(token, readAt, duration) =>
      var key := s.claims[token].key;
      var t := s.(rows := Renew(s.rows, key, token, readAt + duration));
      if Holds(s.rows, key, token) then t.(claims := t.claims[token := Claim(key, readAt + duration)]) else t
    case DoRelease(token) =>
      s.(rows := Release(s.rows, s.claims[token].key, token), claims := s.claims - {token})
  }

  /** Any interleaving; steps that are not enabled are skipped. */
  function Run(s: State, steps: seq<Step>): State
    decreases |steps|
  {
    if steps == [] then s else Run(Next(s, steps[0]), steps[1..])
  }

  function Initial(clock: int): State {
    State(clock, map[], map[], {})
  }

  ghost predicate Inv(s: State) {
    && s.claims.Keys <= s.used
    && (forall key :: key in s.rows ==> s.rows[key].holder in s.used)
    && (forall key :: key in s.rows && s.rows[key].holder in s.claims ==>
          s.claims[s.rows[key].holder] == Claim(key, s.rows[key].expires))
    && (forall token :: token in s.claims && !Holds(s.rows, s.claims[token].key, token) ==>
          s.claims[token].expires <= s.clock)
  }

  lemma StepKeepsInv(s: State, step: Step)
    requires Inv(s)
    ensures Inv(Next(s, step))
  {
  }

  lemma {:induction false} RunKeepsInv(s: State, steps: seq<Step>)
    requires Inv(s)
    ensures Inv(Run(s, steps))
    decreases |steps|
  {
    if steps != [] {
      StepKeepsInv(s, steps[0]);
      RunKeepsInv(Next(s, steps[0]), steps[1..]);
    }
  }

  /** At every moment of every run: a worker that is not the row's holder has
      a last-written expiry that has passed, so two unexpired claims on one
      key are the same claim, and that claim is the row. */
  lemma UnexpiredClaimIsUnique(clock: int, steps: seq<Step>, a: Token)
    requires a in Run(Initial(clock), steps).claims
    ensures var s := Run(Initial(clock), steps);
      var key := s.claims[a].key;
      && (!Holds(s.rows, key, a) ==> s.claims[a].expires <= s.clock)
      && (s.clock < s.claims[a].expires ==> s.rows[key] == Row(a, s.claims[a].expires))
      && (s.clock < s.claims[a].expires ==>
            forall b :: b in s.claims && s.claims[b].key == key && s.clock < s.claims[b].expires ==> a == b)
  {
    RunKeepsInv(Initial(clock), steps);
  }

  /** An expired lease is there for the taking: a fresh token whose clock
      reading has reached the expiry gets the row, whoever left it behind. */
  lemma ExpiredLeaseIsTakenOver(s: State, key: Key, token: Token, readAt: int, duration: int)
    requires Inv(s) && token !in s.used && readAt <= s.clock
    ensures var t := Next(s, TryAcquire(key, token, readAt, duration));
            (key in t.rows && t.rows[key] == Row(token, readAt + duration)) <==>
              (key in s.rows ==> s.rows[key].expires <= readAt)
  {
  }

  /** The steps of a worker do to the table what the three calls do. */
  lemma HolderRenewsAndReleases(s: State, token: Token, readAt: int, duration: int)
    requires token in s.claims && readAt <= s.clock
    ensures var key := s.claims[token].key;
            var mine := key in s.rows && s.rows[key].holder == token;
            && Next(s, TryRenew(token, readAt, duration)).rows ==
                 (if mine then s.rows[key := Row(token, readAt + duration)] else s.rows)
            && Next(s, DoRelease(token)).rows == (if mine then s.rows - {key} else s.rows)
            && token !in Next(s, DoRelease(token)).claims
  {
  }

  /** A token that was used and does not hold the row. */
  predicate Superseded(s: State, key: Key, token: Token) {
    token in s.used && !Holds(s.rows, key, token)
  }

  lemma {:induction false} SupersededForever(s: State, later: seq<Step>, key: Key, token: Token)
    requires Superseded(s, key, token)
    ensures Superseded(Run(s, later), key, token)
    decreases |later|
  {
    if later != [] {
      SupersededForever(Next(s, later[0]), later[1..], key, token);
    }
  }

  /** A superseded worker's renewals and releases, however late, fail and
      leave the successor's row as it is. */
  lemma SupersededCannotInterfere(s: State, later: seq<Step>, key: Key, token: Token, expires: int)
    requires Superseded(s, key, token)
    ensures var rows := Run(s, later).rows;
            Renew(rows, key, token, expires) == rows && Release(rows, key, token) == rows
  {
    SupersededForever(s, later, key, token);
  }

  /** Freshness is needed: once a second run has taken the row over, the first
      one's release removes it exactly if both pass the same holder string,
      which verification_monitor.py leaves to its callers. */
  lemma ReleaseInterferesIffReused(rows: Rows, key: Key, first: Token, second: Token, now: int, expires: int)
    requires Available(rows, key, now)
    ensures var taken := Acquire(rows, key, second, now, expires);
            && taken[key] == Row(second, expires)
            && (Release(taken, key, first) != taken <==> first == second)
            && (first == second ==> key !in Release(taken, key, first))
  {
    var taken := Acquire(rows, key, second, now, expires);
    assert key in taken && key !in taken - {key};
  }
}
