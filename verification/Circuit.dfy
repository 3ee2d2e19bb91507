/**
 The per-backend circuit breaker: its transitions as functions on values, and the
 mutable objects of `providers/circuit_breaker.py` proved against them.
 */
module Circuit {
  import opened Common
  import opened Schemas

  /** The three numbers a circuit is built with; settings reject anything smaller. */
  datatype Config = Config(failureThreshold: nat, openSeconds: real, halfOpenProbes: nat)
  {
    predicate Valid() {
      failureThreshold >= 1 && openSeconds > 0.0 && halfOpenProbes >= 1
    }
  }

  datatype CircuitState = CLOSED | OPEN | HALF_OPEN

  /** The fields of one `BackendCircuit` at one instant. */
  datatype Circuit =
    Circuit(state: CircuitState, consecutiveFailures: nat, openedAt: Option<real>, halfOpenInflight: nat)

  /** What a health endpoint is told; `openedAt` is not reported. */
  datatype Snapshot = Snapshot(state: CircuitState, consecutiveFailures: nat, halfOpenInflight: nat)

  /** How one admitted call ends, as the circuit sees it. */
  datatype Outcome = Success | TransientFailure | OtherFailure | Released

  const FRESH := Circuit(CLOSED, 0, None, 0)

  /** What every reachable circuit satisfies, whatever calls are in flight. */
  predicate WellFormed(cfg: Config, c: Circuit) {
    && (c.state == CLOSED <==> c.consecutiveFailures < cfg.failureThreshold)
    && (c.state == CLOSED <==> c.openedAt.None?)
    && c.halfOpenInflight <= cfg.halfOpenProbes
    && (c.state != HALF_OPEN ==> c.halfOpenInflight == 0)
  }

  /** An OPEN circuit whose cooldown is over. */
  predicate CooledDown(cfg: Config, c: Circuit, now: real) {
    c.state == OPEN && c.openedAt.Some? && now - c.openedAt.value >= cfg.openSeconds
  }

  /** An OPEN circuit still waiting out its cooldown. */
  predicate Cooling(cfg: Config, c: Circuit, now: real) {
    c.state == OPEN && c.openedAt.Some? && now - c.openedAt.value < cfg.openSeconds
  }

  function AfterCooldown(cfg: Config, c: Circuit, now: real): Circuit {
    if CooledDown(cfg, c, now) then c.(state := HALF_OPEN, halfOpenInflight := 0) else c
  }

  /** Whether `allow_request` says yes. */
  predicate Admits(cfg: Config, c: Circuit, now: real) {
    var d := AfterCooldown(cfg, c, now);
    d.state == CLOSED || (d.state == HALF_OPEN && d.halfOpenInflight < cfg.halfOpenProbes)
  }

  /** The circuit `allow_request` leaves behind. */
  function AfterAllow(cfg: Config, c: Circuit, now: real): Circuit {
    var d := AfterCooldown(cfg, c, now);
    if d.state == HALF_OPEN && d.halfOpenInflight < cfg.halfOpenProbes
    then d.(halfOpenInflight := d.halfOpenInflight + 1)
    else d
  }

  function Opened(c: Circuit, now: real): Circuit {
    c.(state := OPEN, openedAt := Some(now), halfOpenInflight := 0)
  }

  function AfterFailure(cfg: Config, c: Circuit, transient: bool, now: real): Circuit {
    if !transient then
      if c.state == HALF_OPEN then FRESH else c
    else if c.state == HALF_OPEN then
      Opened(c, now)
    else
      var d := c.(consecutiveFailures := c.consecutiveFailures + 1);
      if d.consecutiveFailures >= cfg.failureThreshold then Opened(d, now) else d
  }

  function AfterRelease(c: Circuit): Circuit {
    if c.state == HALF_OPEN && c.halfOpenInflight > 0
    then c.(halfOpenInflight := c.halfOpenInflight - 1)
    else c
  }

  /** One settlement, the only way an admitted call touches its circuit again. */
  function Settle(cfg: Config, c: Circuit, outcome: Outcome, now: real): Circuit {
    match outcome
    case Success => FRESH
    case TransientFailure => AfterFailure(cfg, c, true, now)
    case OtherFailure => AfterFailure(cfg, c, false, now)
    case Released => AfterRelease(c)
  }

  function SnapshotOf(cfg: Config, c: Circuit, now: real): Snapshot {
    Snapshot(if CooledDown(cfg, c, now) then HALF_OPEN else c.state, c.consecutiveFailures, c.halfOpenInflight)
  }

  /** Whether a reader of the snapshot should expect the next request to be let through. */
  predicate SnapshotPromisesAdmission(cfg: Config, s: Snapshot) {
    s.state == CLOSED || (s.state == HALF_OPEN && s.halfOpenInflight < cfg.halfOpenProbes)
  }

  lemma AllowKeepsWellFormed(cfg: Config, c: Circuit, now: real)
    requires cfg.Valid() && WellFormed(cfg, c)
    ensures WellFormed(cfg, AfterAllow(cfg, c, now))
  {
  }

  lemma SettleKeepsWellFormed(cfg: Config, c: Circuit, outcome: Outcome, now: real)
    requires cfg.Valid() && WellFormed(cfg, c)
    ensures WellFormed(cfg, Settle(cfg, c, outcome, now))
  {
  }

  /** A refused request leaves every field as it was. */
  lemma RefusalChangesNothing(cfg: Config, c: Circuit, now: real)
    requires cfg.Valid() && WellFormed(cfg, c) && !Admits(cfg, c, now)
    ensures AfterAllow(cfg, c, now) == c
    ensures c.state == OPEN || (c.state == HALF_OPEN && c.halfOpenInflight == cfg.halfOpenProbes)
  {
  }

  /** The snapshot foretells the answer to a request made at the same instant. */
  lemma SnapshotForetellsAdmission(cfg: Config, c: Circuit, now: real)
    requires cfg.Valid() && WellFormed(cfg, c)
    ensures SnapshotPromisesAdmission(cfg, SnapshotOf(cfg, c, now)) <==> Admits(cfg, c, now)
    ensures Admits(cfg, c, now) ==> SnapshotOf(cfg, AfterAllow(cfg, c, now), now).state == SnapshotOf(cfg, c, now).state
  {
  }

  /** Recording a failure never leaves a circuit half open, so a release after it does nothing. */
  lemma ReleaseAfterFailureDoesNothing(cfg: Config, c: Circuit, transient: bool, now: real)
    ensures AfterFailure(cfg, c, transient, now).state != HALF_OPEN
    ensures AfterRelease(AfterFailure(cfg, c, transient, now)) == AfterFailure(cfg, c, transient, now)
  {
  }

  /** One backend's circuit, updated in place. */
  class BackendCircuit {
    const cfg: Config
    /** The backend this circuit guards; circuits of different backends are different objects. */
    ghost const owner: Backend
    var state: CircuitState
    var consecutiveFailures: nat
    var openedAt: Option<real>
    var halfOpenInflight: nat

    function Value(): Circuit
      reads this
    {
      Circuit(state, consecutiveFailures, openedAt, halfOpenInflight)
    }

    predicate Valid()
      reads this
    {
      cfg.Valid() && WellFormed(cfg, Value())
    }

    constructor (cfg: Config, ghost owner: Backend)
      requires cfg.Valid()
      ensures this.cfg == cfg && this.owner == owner && Valid() && Value() == FRESH
    {
      this.cfg := cfg;
      this.owner := owner;
      state, consecutiveFailures, openedAt, halfOpenInflight := CLOSED, 0, None, 0;
    }

    method AllowRequest(now: real) returns (ok: bool)
      requires Valid()
      modifies this
      ensures Valid()
      ensures ok == old(Admits(cfg, Value(), now))
      ensures Value() == old(AfterAllow(cfg, Value(), now))
      ensures !ok ==> Value() == old(Value())
    {
      if state == OPEN {
        if now - openedAt.value < cfg.openSeconds {
          return false;
        }
        state := HALF_OPEN;
        halfOpenInflight := 0;
      }
      if state == HALF_OPEN {
        if halfOpenInflight >= cfg.halfOpenProbes {
          return false;
        }
        halfOpenInflight := halfOpenInflight + 1;
      }
      return true;
    }

    method RecordSuccess()
      requires Valid()
      modifies this
      ensures Valid() && Value() == FRESH
    {
      state := CLOSED;
      consecutiveFailures := 0;
      openedAt := None;
      halfOpenInflight := 0;
    }

    method RecordFailure(backendTransient: bool, now: real)
      requires Valid()
      modifies this
      ensures Valid() && Value() == old(AfterFailure(cfg, Value(), backendTransient, now))
      ensures state != HALF_OPEN
    {
      if !backendTransient {
        if state == HALF_OPEN {
          RecordSuccess();
        }
        return;
      }
      if state == HALF_OPEN {
        MarkOpen(now);
        return;
      }
      consecutiveFailures := consecutiveFailures + 1;
      if consecutiveFailures >= cfg.failureThreshold {
        MarkOpen(now);
      }
    }

    method MarkOpen(now: real)
      requires cfg.Valid() && consecutiveFailures >= cfg.failureThreshold
      modifies this
      ensures Valid() && Value() == old(Opened(Value(), now))
    {
      state := OPEN;
      openedAt := Some(now);
      halfOpenInflight := 0;
    }

    method ReleaseProbe()
      requires Valid()
      modifies this
      ensures Valid() && Value() == old(AfterRelease(Value()))
    {
      if state == HALF_OPEN {
        halfOpenInflight := if halfOpenInflight > 0 then halfOpenInflight - 1 else 0;
      }
    }

    /** Reads only; its answer foretells the next `AllowRequest` at the same instant. */
    method TakeSnapshot(now: real) returns (s: Snapshot)
      requires Valid()
      ensures s == SnapshotOf(cfg, Value(), now)
      ensures SnapshotPromisesAdmission(cfg, s) <==> Admits(cfg, Value(), now)
    {
      var shown := state;
      if shown == OPEN && openedAt.Some? && now - openedAt.value >= cfg.openSeconds {
        shown := HALF_OPEN;
      }
      s := Snapshot(shown, consecutiveFailures, halfOpenInflight);
    }
  }
}
