/**
 One backend's circuit shared by any number of calls: router calls and task calls
 alike are an admission followed, arbitrarily later, by one settlement. A run is any
 interleaving of admissions, settlements and passing time.
 */
module CircuitSystem {
  import opened Common
  import opened Circuit

  /** A call is named by the request that makes it and its place in that request. */
  datatype CallId = CallId(request: nat, serial: nat)

  /** When a call was let through, and during which half-open period it was numbered. */
  datatype Call = Call(admittedAt: real, epoch: nat)

  datatype Kind = Admitted | Refused | Succeeded | FailedTransient | FailedOther | SlotReleased

  /** One event of the log: when it happened, what it was, and which call it concerned. */
  datatype Entry = Entry(at: real, kind: Kind, id: CallId)

  /** `epoch` counts the half-open periods begun; `log` is everything that happened to the circuit. */
  datatype System = System(circuit: Circuit, now: real, epoch: nat, outstanding: map<CallId, Call>, log: seq<Entry>)

  datatype Event = Tick(elapsed: real) | Request(id: CallId) | Settlement(id: CallId, outcome: Outcome)

  const INITIAL := System(FRESH, 0.0, 0, map[], [])

  function KindOf(outcome: Outcome): Kind {
    match outcome
    case Success => Succeeded
    case TransientFailure => FailedTransient
    case OtherFailure => FailedOther
    case Released => SlotReleased
  }

  /** The event lets a new call through. */
  predicate StepAdmits(cfg: Config, s: System, e: Event) {
    e.Request? && e.id !in s.outstanding && Admits(cfg, s.circuit, s.now)
  }

  /** The event settles a call in a way that closes the circuit. */
  predicate StepCloses(s: System, e: Event) {
    && e.Settlement? && e.id in s.outstanding
    && (e.outcome == Success || (e.outcome == OtherFailure && s.circuit.state == HALF_OPEN))
  }

  /**
   One atomic block. A call settles only while outstanding, and a name in use is not
   requested again; time does not run backwards.
   */
  function Step(cfg: Config, s: System, e: Event): System {
    match e
    case Tick(elapsed) =>
      if elapsed > 0.0 then s.(now := s.now + elapsed) else s
    case Request(id) =>
      if id in s.outstanding then s
      else if Admits(cfg, s.circuit, s.now) then
        var epoch := if s.circuit.state == OPEN then s.epoch + 1 else s.epoch;
        System(AfterAllow(cfg, s.circuit, s.now), s.now, epoch,
               s.outstanding[id := Call(s.now, epoch)], s.log + [Entry(s.now, Admitted, id)])
      else
        s.(circuit := AfterAllow(cfg, s.circuit, s.now), log := s.log + [Entry(s.now, Refused, id)])
    case Settlement(id, outcome) =>
      if id !in s.outstanding then s
      else s.(circuit := Settle(cfg, s.circuit, outcome, s.now),
              outstanding := s.outstanding - {id},
              log := s.log + [Entry(s.now, KindOf(outcome), id)])
  }

  /** Only a tick moves the clock. */
  lemma StepTime(cfg: Config, s: System, e: Event)
    ensures s.now <= Step(cfg, s, e).now
    ensures !e.Tick? ==> Step(cfg, s, e).now == s.now
  {
  }

  /** What a first request of a name does. */
  lemma RequestEffect(cfg: Config, s: System, id: CallId)
    requires id !in s.outstanding
    ensures var t := Step(cfg, s, Request(id));
            && t.circuit == AfterAllow(cfg, s.circuit, s.now)
            && t.outstanding.Keys == s.outstanding.Keys + (if Admits(cfg, s.circuit, s.now) then {id} else {})
            && t.log == s.log + [Entry(s.now, if Admits(cfg, s.circuit, s.now) then Admitted else Refused, id)]
  {
  }

  /** What the settlement of an outstanding call does. */
  lemma SettlementEffect(cfg: Config, s: System, id: CallId, outcome: Outcome)
    requires id in s.outstanding
    ensures var t := Step(cfg, s, Settlement(id, outcome));
            && t.circuit == Settle(cfg, s.circuit, outcome, s.now)
            && t.outstanding.Keys == s.outstanding.Keys - {id}
            && t.log == s.log + [Entry(s.now, KindOf(outcome), id)]
  {
  }

  /** The state after all of `events`, in order. */
  function Run(cfg: Config, s: System, events: seq<Event>): System
    decreases |events|
  {
    if events == [] then s else Run(cfg, Step(cfg, s, events[0]), events[1..])
  }

  lemma {:induction false} RunConcat(cfg: Config, s: System, a: seq<Event>, b: seq<Event>)
    ensures Run(cfg, s, a + b) == Run(cfg, Run(cfg, s, a), b)
    decreases |a|
  {
    if a == [] {
      assert a + b == b;
    } else {
      assert (a + b)[1..] == a[1..] + b;
      RunConcat(cfg, Step(cfg, s, a[0]), a[1..], b);
    }
  }

  lemma RunOne(cfg: Config, s: System, a: Event)
    ensures Run(cfg, s, [a]) == Step(cfg, s, a)
  {
    var t := Step(cfg, s, a);
    assert [a][1..] == [];
    assert Run(cfg, t, []) == t;
  }

  lemma RunOneMore(cfg: Config, s: System, events: seq<Event>, i: nat)
    requires i < |events|
    ensures Run(cfg, s, events[..i + 1]) == Step(cfg, Run(cfg, s, events[..i]), events[i])
  {
    assert events[..i + 1] == events[..i] + [events[i]];
    RunConcat(cfg, s, events[..i], [events[i]]);
    var mid := Run(cfg, s, events[..i]);
    assert Run(cfg, mid, [events[i]]) == Run(cfg, Step(cfg, mid, events[i]), [events[i]][1..]);
  }

  /** The unsettled calls let through in the current half-open period. */
  function InPeriod(s: System): set<CallId> {
    set id | id in s.outstanding && s.outstanding[id].epoch == s.epoch
  }

  /** What holds in every reachable state, with no assumption on how long calls take. */
  ghost predicate Inv(cfg: Config, s: System) {
    && WellFormed(cfg, s.circuit)
    && (s.circuit.openedAt.Some? ==> s.circuit.openedAt.value <= s.now)
    && (s.circuit.state == HALF_OPEN ==> s.now - s.circuit.openedAt.value >= cfg.openSeconds)
    && (forall id :: id in s.outstanding
          ==> s.outstanding[id].admittedAt <= s.now && s.outstanding[id].epoch <= s.epoch)
    && (s.circuit.state == OPEN
        ==> forall id :: id in s.outstanding ==> s.outstanding[id].admittedAt <= s.circuit.openedAt.value)
    && (s.circuit.state == HALF_OPEN ==> s.circuit.halfOpenInflight <= |InPeriod(s)|)
  }

  lemma RequestKeepsInv(cfg: Config, s: System, id: CallId)
    requires cfg.Valid() && Inv(cfg, s)
    ensures Inv(cfg, Step(cfg, s, Request(id)))
  {
    AllowKeepsWellFormed(cfg, s.circuit, s.now);
    var t := Step(cfg, s, Request(id));
    if id !in s.outstanding && Admits(cfg, s.circuit, s.now) && t.circuit.state == HALF_OPEN {
      if s.circuit.state == OPEN {
        assert InPeriod(t) == {id};
      } else {
        assert InPeriod(t) == InPeriod(s) + {id};
      }
    } else if t.circuit.state == HALF_OPEN {
      assert InPeriod(t) == InPeriod(s);
    }
  }

  lemma SettlementKeepsInv(cfg: Config, s: System, id: CallId, outcome: Outcome)
    requires cfg.Valid() && Inv(cfg, s)
    ensures Inv(cfg, Step(cfg, s, Settlement(id, outcome)))
  {
    SettleKeepsWellFormed(cfg, s.circuit, outcome, s.now);
    var t := Step(cfg, s, Settlement(id, outcome));
    if id in s.outstanding && t.circuit.state == HALF_OPEN {
      assert InPeriod(t) == InPeriod(s) - {id};
    }
  }

  lemma StepKeepsInv(cfg: Config, s: System, e: Event)
    requires cfg.Valid() && Inv(cfg, s)
    ensures Inv(cfg, Step(cfg, s, e))
  {
    match e
    case Tick(_) => assert InPeriod(Step(cfg, s, e)) == InPeriod(s);
    case Request(id) => RequestKeepsInv(cfg, s, id);
    case Settlement(id, outcome) => SettlementKeepsInv(cfg, s, id, outcome);
  }

  lemma {:induction false} RunKeepsInv(cfg: Config, s: System, events: seq<Event>)
    requires cfg.Valid() && Inv(cfg, s)
    ensures Inv(cfg, Run(cfg, s, events))
    decreases |events|
  {
    if events != [] {
      StepKeepsInv(cfg, s, events[0]);
      RunKeepsInv(cfg, Step(cfg, s, events[0]), events[1..]);
    }
  }

  lemma ReachableInv(cfg: Config, events: seq<Event>)
    requires cfg.Valid()
    ensures Inv(cfg, Run(cfg, INITIAL, events))
  {
    RunKeepsInv(cfg, INITIAL, events);
  }

  /** Some interleaving of calls leads here from a fresh circuit. */
  ghost predicate Reachable(cfg: Config, s: System) {
    exists events :: s == Run(cfg, INITIAL, events)
  }

  lemma InitialReachable(cfg: Config)
    ensures Reachable(cfg, INITIAL)
  {
    assert Run(cfg, INITIAL, []) == INITIAL;
  }

  lemma StepReachable(cfg: Config, s: System, e: Event)
    requires Reachable(cfg, s)
    ensures Reachable(cfg, Step(cfg, s, e))
  {
    var events :| s == Run(cfg, INITIAL, events);
    RunConcat(cfg, INITIAL, events, [e]);
    RunOne(cfg, s, e);
    assert Run(cfg, INITIAL, events + [e]) == Step(cfg, s, e);
  }

  // ---- No probe slot is ever lost -------------------------------------------------

  /**
   Every slot a half-open circuit counts as taken belongs to a call that was let through
   in this half-open period and has not settled, however late other calls settle.
   */
  lemma SlotsAreBacked(cfg: Config, events: seq<Event>)
    requires cfg.Valid()
    ensures var s := Run(cfg, INITIAL, events);
            s.circuit.state == HALF_OPEN ==> s.circuit.halfOpenInflight <= |InPeriod(s)| <= |s.outstanding|
  {
    ReachableInv(cfg, events);
    var s := Run(cfg, INITIAL, events);
    assert InPeriod(s) <= s.outstanding.Keys;
    SubsetSize(InPeriod(s), s.outstanding.Keys);
  }

  lemma {:induction false} SubsetSize<T>(a: set<T>, b: set<T>)
    requires a <= b
    ensures |a| <= |b|
  {
    if a != {} {
      var x :| x in a;
      SubsetSize(a - {x}, b - {x});
    }
  }

  /** With nothing in flight on a backend, only an unfinished cooldown refuses the next request. */
  lemma IdleBackendRefusesOnlyWhileCooling(cfg: Config, events: seq<Event>)
    requires cfg.Valid()
    requires Run(cfg, INITIAL, events).outstanding == map[]
    ensures var s := Run(cfg, INITIAL, events);
            !Admits(cfg, s.circuit, s.now) <==> Cooling(cfg, s.circuit, s.now)
  {
    ReachableInv(cfg, events);
    var s := Run(cfg, INITIAL, events);
    assert InPeriod(s) == {};
  }

  // ---- The real number of probes in flight ----------------------------------------

  /** No outstanding call is older than `limit`. */
  ghost predicate Young(s: System, limit: real) {
    forall id :: id in s.outstanding ==> s.now - s.outstanding[id].admittedAt <= limit
  }

  /** Along the run every admitted call settles within `limit` of its admission. */
  ghost predicate Timely(cfg: Config, s: System, events: seq<Event>, limit: real)
    decreases |events|
  {
    Young(s, limit) && (events != [] ==> Timely(cfg, Step(cfg, s, events[0]), events[1..], limit))
  }

  /** While half open, the calls really in flight are exactly the probes being counted. */
  ghost predicate ProbesExact(s: System) {
    s.circuit.state == HALF_OPEN ==>
      && (forall id :: id in s.outstanding ==> s.outstanding[id].epoch == s.epoch)
      && |s.outstanding| == s.circuit.halfOpenInflight
  }

  /** The bound an operator expects from `half_open_probes`. */
  ghost predicate ProbesBounded(cfg: Config, s: System) {
    s.circuit.state == HALF_OPEN ==> |s.outstanding| <= cfg.halfOpenProbes
  }

  /**
   The drain argument: nothing is admitted while OPEN, so a call still outstanding when the
   cooldown ends is at least a cooldown old; if calls settle sooner than that there is none.
   */
  lemma DrainedWhenCooledDown(cfg: Config, s: System, limit: real)
    requires cfg.Valid() && Inv(cfg, s) && Young(s, limit) && limit < cfg.openSeconds
    requires CooledDown(cfg, s.circuit, s.now)
    ensures s.outstanding == map[]
  {
    assert forall id :: id !in s.outstanding;
  }

  lemma StepKeepsProbesExact(cfg: Config, s: System, e: Event, limit: real)
    requires cfg.Valid() && Inv(cfg, s) && Young(s, limit) && limit < cfg.openSeconds && ProbesExact(s)
    ensures ProbesExact(Step(cfg, s, e))
  {
    var t := Step(cfg, s, e);
    if StepAdmits(cfg, s, e) {
      if s.circuit.state == OPEN {
        DrainedWhenCooledDown(cfg, s, limit);
        assert t.outstanding == map[e.id := Call(s.now, t.epoch)];
      } else if s.circuit.state == HALF_OPEN {
        assert t.outstanding.Keys == s.outstanding.Keys + {e.id};
      }
    } else if e.Settlement? && e.id in s.outstanding && t.circuit.state == HALF_OPEN {
      assert e.id in s.outstanding.Keys;
      assert t.outstanding.Keys == s.outstanding.Keys - {e.id};
    }
  }

  lemma {:induction false} RunKeepsProbesExact(cfg: Config, s: System, events: seq<Event>, limit: real)
    requires cfg.Valid() && Inv(cfg, s) && ProbesExact(s)
    requires limit < cfg.openSeconds && Timely(cfg, s, events, limit)
    ensures ProbesExact(Run(cfg, s, events))
    decreases |events|
  {
    if events != [] {
      StepKeepsInv(cfg, s, events[0]);
      StepKeepsProbesExact(cfg, s, events[0], limit);
      RunKeepsProbesExact(cfg, Step(cfg, s, events[0]), events[1..], limit);
    }
  }

  /** Calls that settle faster than the cooldown keep the real number of probes within its bound. */
  lemma RealProbeBound(cfg: Config, events: seq<Event>, limit: real)
    requires cfg.Valid() && limit < cfg.openSeconds && Timely(cfg, INITIAL, events, limit)
    ensures ProbesExact(Run(cfg, INITIAL, events)) && ProbesBounded(cfg, Run(cfg, INITIAL, events))
  {
    RunKeepsProbesExact(cfg, INITIAL, events, limit);
    ReachableInv(cfg, events);
  }

  // The run that breaks the bound when calls may last as long as the cooldown.

  /** `n` calls in a row, each failing at once. */
  function FailingCalls(n: nat): seq<Event> {
    if n == 0 then []
    else FailingCalls(n - 1) + [Request(CallId(1, n)), Settlement(CallId(1, n), TransientFailure)]
  }

  /** `n` probes asked for at once. */
  function ProbeCalls(n: nat): seq<Event> {
    if n == 0 then [] else ProbeCalls(n - 1) + [Request(CallId(2, n))]
  }

  /** A call that hangs, enough failures to open the circuit, a cooldown, and every probe. */
  function LateCallRun(cfg: Config): seq<Event> {
    [Request(CallId(0, 0))] + FailingCalls(cfg.failureThreshold) + [Tick(cfg.openSeconds)]
      + ProbeCalls(cfg.halfOpenProbes)
  }

  lemma TimelyConcat(cfg: Config, s: System, a: seq<Event>, b: seq<Event>, limit: real)
    requires Timely(cfg, s, a, limit) && Timely(cfg, Run(cfg, s, a), b, limit)
    ensures Timely(cfg, s, a + b, limit)
    decreases |a|
  {
    if a == [] {
      assert a + b == b;
    } else {
      assert (a + b)[1..] == a[1..] + b;
      TimelyConcat(cfg, Step(cfg, s, a[0]), a[1..], b, limit);
    }
  }

  lemma RunTwo(cfg: Config, s: System, a: Event, b: Event)
    ensures Run(cfg, s, [a, b]) == Step(cfg, Step(cfg, s, a), b)
  {
    assert [a, b][1..] == [b];
    var t := Step(cfg, s, a);
    assert Run(cfg, t, [b]) == Run(cfg, Step(cfg, t, b), []);
  }

  lemma TimelyTwo(cfg: Config, s: System, a: Event, b: Event, limit: real)
    requires Young(s, limit) && Young(Step(cfg, s, a), limit) && Young(Step(cfg, Step(cfg, s, a), b), limit)
    ensures Timely(cfg, s, [a, b], limit)
  {
    assert [a, b][1..] == [b];
    var t := Step(cfg, s, a);
    var u := Step(cfg, t, b);
    assert Timely(cfg, u, [], limit);
    assert [b][1..] == [];
    assert Timely(cfg, t, [b], limit);
  }

  lemma TimelyOne(cfg: Config, s: System, a: Event, limit: real)
    requires Young(s, limit) && Young(Step(cfg, s, a), limit)
    ensures Timely(cfg, s, [a], limit)
  {
    assert [a][1..] == [];
    assert Timely(cfg, Step(cfg, s, a), [], limit);
  }

  lemma {:induction false} FailingCallsOpen(cfg: Config, s: System, n: nat, limit: real)
    requires cfg.Valid() && n <= cfg.failureThreshold && limit >= 0.0
    requires s.circuit == FRESH && s.outstanding == map[CallId(0, 0) := Call(s.now, 0)]
    ensures var t := Run(cfg, s, FailingCalls(n));
            && t.now == s.now && t.outstanding == s.outstanding && t.circuit.consecutiveFailures == n
            && (n < cfg.failureThreshold ==> t.circuit.state == CLOSED)
            && (n == cfg.failureThreshold ==> t.circuit.state == OPEN && t.circuit.openedAt == Some(s.now))
    ensures Timely(cfg, s, FailingCalls(n), limit)
  {
    if n > 0 {
      FailingCallsOpen(cfg, s, n - 1, limit);
      var mid := Run(cfg, s, FailingCalls(n - 1));
      var a, b := Request(CallId(1, n)), Settlement(CallId(1, n), TransientFailure);
      RunConcat(cfg, s, FailingCalls(n - 1), [a, b]);
      RunTwo(cfg, mid, a, b);
      assert Step(cfg, Step(cfg, mid, a), b).outstanding == mid.outstanding;
      TimelyTwo(cfg, mid, a, b, limit);
      TimelyConcat(cfg, s, FailingCalls(n - 1), [a, b], limit);
    }
  }

  /** The `n`th probe asked for is let through, as long as there are slots. */
  lemma ProbeStep(cfg: Config, s: System, n: nat, limit: real)
    requires cfg.Valid() && 1 <= n <= cfg.halfOpenProbes && limit >= 0.0 && Young(s, limit)
             && CallId(2, n) !in s.outstanding
    requires if n == 1 then CooledDown(cfg, s.circuit, s.now)
             else s.circuit.state == HALF_OPEN && s.circuit.halfOpenInflight == n - 1
    ensures var t := Step(cfg, s, Request(CallId(2, n)));
            && t.now == s.now && t.circuit.state == HALF_OPEN && t.circuit.halfOpenInflight == n
            && t.epoch == (if n == 1 then s.epoch + 1 else s.epoch) && Young(t, limit)
            && t.outstanding == s.outstanding[CallId(2, n) := Call(s.now, t.epoch)]
  {
  }

  /** A call left over from before this half-open period, and `n` probes. */
  ghost predicate Overlapping(s: System, late: Call, n: nat) {
    && CallId(0, 0) in s.outstanding && s.outstanding[CallId(0, 0)] == late
    && (n > 0 ==> late.epoch < s.epoch)
    && s.outstanding.Keys == {CallId(0, 0)} + ProbeIds(n)
    && forall id :: id in ProbeIds(n) ==> s.outstanding[id].epoch == s.epoch
  }

  function ProbeIds(n: nat): set<CallId> {
    if n == 0 then {} else ProbeIds(n - 1) + {CallId(2, n)}
  }

  lemma {:induction false} ProbeIdsAre(n: nat)
    ensures |ProbeIds(n)| == n && forall id :: id in ProbeIds(n) ==> id.request == 2 && 1 <= id.serial <= n
  {
    if n > 0 {
      ProbeIdsAre(n - 1);
    }
  }

  lemma OverlappingCounts(s: System, late: Call, n: nat)
    requires Overlapping(s, late, n) && n > 0
    ensures |s.outstanding| == n + 1 && InPeriod(s) == ProbeIds(n) && |InPeriod(s)| == n
    ensures forall k :: CallId(3, k) !in s.outstanding
  {
    ProbeIdsAre(n);
    assert s.outstanding.Keys == {CallId(0, 0)} + ProbeIds(n);
    assert |s.outstanding.Keys| == 1 + n;
    assert InPeriod(s) == ProbeIds(n);
  }

  /** One probe more. */
  lemma OverlappingProbe(s: System, t: System, late: Call, n: nat)
    requires n > 0 && Overlapping(s, late, n - 1) && late.epoch <= s.epoch
    requires t.epoch == if n == 1 then s.epoch + 1 else s.epoch
    requires t.outstanding == s.outstanding[CallId(2, n) := Call(s.now, t.epoch)]
    ensures Overlapping(t, late, n)
  {
    ProbeIdsAre(n - 1);
  }

  lemma {:induction false} ProbeCallsFill(cfg: Config, s: System, late: Call, n: nat, limit: real)
    requires cfg.Valid() && n <= cfg.halfOpenProbes && limit >= 0.0 && Young(s, limit)
    requires CooledDown(cfg, s.circuit, s.now)
    requires Overlapping(s, late, 0) && late.epoch <= s.epoch
    ensures var t := Run(cfg, s, ProbeCalls(n));
            && t.now == s.now && Young(t, limit) && Overlapping(t, late, n) && late.epoch <= t.epoch
            && (n == 0 ==> t == s)
            && (n > 0 ==> t.circuit.state == HALF_OPEN && t.circuit.halfOpenInflight == n)
    ensures Timely(cfg, s, ProbeCalls(n), limit)
  {
    if n > 0 {
      hide CooledDown, Young, Step, Overlapping;
      ProbeCallsFill(cfg, s, late, n - 1, limit);
      var mid := Run(cfg, s, ProbeCalls(n - 1));
      var a := Request(CallId(2, n));
      RunConcat(cfg, s, ProbeCalls(n - 1), [a]);
      RunOne(cfg, mid, a);
      ProbeIsNew(mid, late, n);
      ProbeStep(cfg, mid, n, limit);
      OverlappingProbe(mid, Step(cfg, mid, a), late, n);
      TimelyOne(cfg, mid, a, limit);
      TimelyConcat(cfg, s, ProbeCalls(n - 1), [a], limit);
    }
  }

  lemma ProbeIsNew(s: System, late: Call, n: nat)
    requires n > 0 && Overlapping(s, late, n - 1)
    ensures CallId(2, n) !in s.outstanding
  {
    ProbeIdsAre(n - 1);
  }

  /** One call may outlive the cooldown, and then one more call than allowed is in flight. */
  lemma LateCallBreaksBound(cfg: Config, limit: real)
    requires cfg.Valid() && limit >= cfg.openSeconds
    ensures Timely(cfg, INITIAL, LateCallRun(cfg), limit)
    ensures var s := Run(cfg, INITIAL, LateCallRun(cfg));
            s.circuit.state == HALF_OPEN && |s.outstanding| == cfg.halfOpenProbes + 1
  {
    LateCallRunEnds(cfg, limit);
    OverlappingCounts(Run(cfg, INITIAL, LateCallRun(cfg)), Call(0.0, 0), cfg.halfOpenProbes);
  }

  lemma LateCallRunEnds(cfg: Config, limit: real)
    requires cfg.Valid() && limit >= cfg.openSeconds
    ensures Timely(cfg, INITIAL, LateCallRun(cfg), limit)
    ensures var s := Run(cfg, INITIAL, LateCallRun(cfg));
            && s.circuit.state == HALF_OPEN && s.circuit.halfOpenInflight == cfg.halfOpenProbes && Young(s, limit)
            && Overlapping(s, Call(0.0, 0), cfg.halfOpenProbes)
  {
    var first, fails := [Request(CallId(0, 0))], FailingCalls(cfg.failureThreshold);
    var wait, probes := [Tick(cfg.openSeconds)], ProbeCalls(cfg.halfOpenProbes);
    RunOne(cfg, INITIAL, first[0]);
    TimelyOne(cfg, INITIAL, first[0], limit);
    var s1 := Run(cfg, INITIAL, first);
    FailingCallsOpen(cfg, s1, cfg.failureThreshold, limit);
    RunConcat(cfg, INITIAL, first, fails);
    TimelyConcat(cfg, INITIAL, first, fails, limit);
    var s2 := Run(cfg, INITIAL, first + fails);
    RunOne(cfg, s2, wait[0]);
    var s3 := Step(cfg, s2, wait[0]);
    TimelyOne(cfg, s2, wait[0], limit);
    RunConcat(cfg, INITIAL, first + fails, wait);
    TimelyConcat(cfg, INITIAL, first + fails, wait, limit);
    ProbeCallsFill(cfg, s3, Call(0.0, 0), cfg.halfOpenProbes, limit);
    RunConcat(cfg, INITIAL, first + fails + wait, probes);
    TimelyConcat(cfg, INITIAL, first + fails + wait, probes, limit);
  }

  /** The cooldown is the exact threshold: calls bounded by `limit` respect the probe bound iff `limit` is shorter. */
  lemma ProbeBoundExactlyBelowCooldown(cfg: Config, limit: real)
    requires cfg.Valid()
    ensures (forall events :: Timely(cfg, INITIAL, events, limit) ==> ProbesBounded(cfg, Run(cfg, INITIAL, events)))
            <==> limit < cfg.openSeconds
  {
    if limit < cfg.openSeconds {
      forall events | Timely(cfg, INITIAL, events, limit) ensures ProbesBounded(cfg, Run(cfg, INITIAL, events)) {
        RealProbeBound(cfg, events, limit);
      }
    } else {
      LateCallBreaksBound(cfg, limit);
    }
  }

  // ---- What a stale release does --------------------------------------------------

  /** In one half-open period no more calls are let through, and not yet settled, than its limit. */
  ghost predicate PeriodBounded(cfg: Config, s: System) {
    s.circuit.state == HALF_OPEN ==> |InPeriod(s)| <= cfg.halfOpenProbes
  }

  /** The call from before the period gives back a slot it never took, and one more probe takes it. */
  function StaleReleaseRun(cfg: Config): seq<Event> {
    LateCallRun(cfg) + [Settlement(CallId(0, 0), Released), Request(CallId(3, 0))]
  }

  /** All slots counted, one period has then one probe too many in flight. */
  lemma StaleReleaseBreaksPeriod(cfg: Config, limit: real)
    requires cfg.Valid() && limit >= cfg.openSeconds
    ensures Timely(cfg, INITIAL, StaleReleaseRun(cfg), limit)
    ensures var s := Run(cfg, INITIAL, StaleReleaseRun(cfg));
            && s.circuit.state == HALF_OPEN && s.circuit.halfOpenInflight == cfg.halfOpenProbes
            && |InPeriod(s)| == cfg.halfOpenProbes + 1
  {
    var a, b := Settlement(CallId(0, 0), Released), Request(CallId(3, 0));
    var s := Run(cfg, INITIAL, LateCallRun(cfg));
    LateCallRunEnds(cfg, limit);
    OverlappingCounts(s, Call(0.0, 0), cfg.halfOpenProbes);
    RunConcat(cfg, INITIAL, LateCallRun(cfg), [a, b]);
    RunTwo(cfg, s, a, b);
    TimelyTwo(cfg, s, a, b, limit);
    TimelyConcat(cfg, INITIAL, LateCallRun(cfg), [a, b], limit);
    assert InPeriod(Step(cfg, Step(cfg, s, a), b)) == InPeriod(s) + {b.id};
  }

  /** Even the probes of a single period respect their limit, for calls bounded by `limit`, iff `limit` is shorter. */
  lemma PeriodBoundExactlyBelowCooldown(cfg: Config, limit: real)
    requires cfg.Valid()
    ensures (forall events :: Timely(cfg, INITIAL, events, limit) ==> PeriodBounded(cfg, Run(cfg, INITIAL, events)))
            <==> limit < cfg.openSeconds
  {
    if limit < cfg.openSeconds {
      forall events | Timely(cfg, INITIAL, events, limit) ensures PeriodBounded(cfg, Run(cfg, INITIAL, events)) {
        RealProbeBound(cfg, events, limit);
        var s := Run(cfg, INITIAL, events);
        if s.circuit.state == HALF_OPEN {
          assert InPeriod(s) == s.outstanding.Keys;
        }
      }
    } else {
      StaleReleaseBreaksPeriod(cfg, limit);
      assert !PeriodBounded(cfg, Run(cfg, INITIAL, StaleReleaseRun(cfg)));
    }
  }

  /** A release keeps the count exact iff the released call is of this period, or no slot is counted. */
  lemma ReleaseKeepsCountIff(cfg: Config, s: System, id: CallId)
    requires s.circuit.state == HALF_OPEN && s.circuit.halfOpenInflight == |InPeriod(s)| && id in s.outstanding
    ensures var t := Step(cfg, s, Settlement(id, Released));
            t.circuit.halfOpenInflight == |InPeriod(t)| <==> id in InPeriod(s) || s.circuit.halfOpenInflight == 0
  {
    assert InPeriod(Step(cfg, s, Settlement(id, Released))) == InPeriod(s) - {id};
  }

  // ---- The open window ------------------------------------------------------------

  /** No event of the run, from `s` on, closes the circuit. */
  ghost predicate NeverCloses(cfg: Config, s: System, events: seq<Event>) {
    forall i :: 0 <= i < |events| ==> !StepCloses(Run(cfg, s, events[..i]), events[i])
  }

  /** Left open, the circuit stays open or half open and its opening time only moves forward. */
  lemma StepWithoutClosing(cfg: Config, s: System, e: Event)
    requires cfg.Valid() && Inv(cfg, s) && s.circuit.state != CLOSED && !StepCloses(s, e)
    ensures var t := Step(cfg, s, e);
            && t.circuit.state != CLOSED && t.circuit.openedAt.value >= s.circuit.openedAt.value
            && (StepAdmits(cfg, s, e) ==> s.now >= s.circuit.openedAt.value + cfg.openSeconds)
  {
  }

  lemma {:induction false} StaysOpenUpTo(cfg: Config, s: System, events: seq<Event>, i: nat)
    requires cfg.Valid() && Inv(cfg, s) && s.circuit.state != CLOSED
    requires i <= |events| && forall j :: 0 <= j < i ==> !StepCloses(Run(cfg, s, events[..j]), events[j])
    ensures var a := Run(cfg, s, events[..i]);
            Inv(cfg, a) && a.circuit.state != CLOSED && a.circuit.openedAt.value >= s.circuit.openedAt.value
  {
    if i > 0 {
      StaysOpenUpTo(cfg, s, events, i - 1);
      RunOneMore(cfg, s, events, i - 1);
      var a := Run(cfg, s, events[..i - 1]);
      StepWithoutClosing(cfg, a, events[i - 1]);
      StepKeepsInv(cfg, a, events[i - 1]);
    } else {
      assert events[..0] == [];
    }
  }

  /**
   From any open state, as long as nothing closes the circuit: the opening time never moves
   back and every admission waits for the latest one plus the cooldown, whatever late
   failures, releases and refused requests happen in between.
   */
  lemma OpenWindow(cfg: Config, s: System, events: seq<Event>, i: nat)
    requires cfg.Valid() && Inv(cfg, s) && s.circuit.state != CLOSED
    requires NeverCloses(cfg, s, events) && i < |events|
    ensures var a, b := Run(cfg, s, events[..i]), Run(cfg, s, events[..i + 1]);
            && a.circuit.openedAt.Some? && b.circuit.openedAt.Some?
            && s.circuit.openedAt.value <= a.circuit.openedAt.value <= b.circuit.openedAt.value
            && (StepAdmits(cfg, a, events[i]) ==> a.now >= a.circuit.openedAt.value + cfg.openSeconds)
  {
    StaysOpenUpTo(cfg, s, events, i);
    RunOneMore(cfg, s, events, i);
    var a := Run(cfg, s, events[..i]);
    StepWithoutClosing(cfg, a, events[i]);
    StepKeepsInv(cfg, a, events[i]);
  }

  /** Some event of the run is let through before `deadline`. */
  ghost predicate AdmitsBefore(cfg: Config, s: System, events: seq<Event>, deadline: real) {
    exists i :: 0 <= i < |events| && StepAdmits(cfg, Run(cfg, s, events[..i]), events[i])
                && Run(cfg, s, events[..i]).now < deadline
  }

  /** Some continuation of `s` admits a request before `deadline`. */
  ghost predicate CanAdmitBefore(cfg: Config, s: System, deadline: real) {
    exists events :: AdmitsBefore(cfg, s, events, deadline)
  }

  lemma {:induction false} RunTimeMonotone(cfg: Config, s: System, events: seq<Event>, i: nat, j: nat)
    requires i <= j <= |events|
    ensures Run(cfg, s, events[..i]).now <= Run(cfg, s, events[..j]).now
    decreases j - i
  {
    if i < j {
      RunTimeMonotone(cfg, s, events, i, j - 1);
      RunOneMore(cfg, s, events, j - 1);
    }
  }

  lemma {:induction false} NothingToSettle(cfg: Config, s: System, events: seq<Event>, i: nat)
    requires cfg.Valid() && s.circuit.state == OPEN && s.circuit.openedAt.Some? && s.outstanding == map[]
             && i <= |events|
    requires Run(cfg, s, events[..i]).now < s.circuit.openedAt.value + cfg.openSeconds
    ensures Run(cfg, s, events[..i]).circuit == s.circuit && Run(cfg, s, events[..i]).outstanding == map[]
  {
    if i > 0 {
      RunTimeMonotone(cfg, s, events, i - 1, i);
      NothingToSettle(cfg, s, events, i - 1);
      RunOneMore(cfg, s, events, i - 1);
    } else {
      assert events[..0] == [];
    }
  }

  /**
   An open circuit can be made to admit a request before its cooldown ends exactly when some
   call admitted earlier is still unsettled: its late success closes the circuit at once.
   */
  lemma EarlyAdmissionNeedsALateCall(cfg: Config, s: System)
    requires cfg.Valid() && Inv(cfg, s) && s.circuit.state == OPEN
    requires s.now < s.circuit.openedAt.value + cfg.openSeconds
    ensures CanAdmitBefore(cfg, s, s.circuit.openedAt.value + cfg.openSeconds) <==> s.outstanding != map[]
  {
    var deadline := s.circuit.openedAt.value + cfg.openSeconds;
    if s.outstanding == map[] {
      forall events ensures !AdmitsBefore(cfg, s, events, deadline) {
        forall i | 0 <= i < |events| && Run(cfg, s, events[..i]).now < deadline
          ensures !StepAdmits(cfg, Run(cfg, s, events[..i]), events[i])
        {
          NothingToSettle(cfg, s, events, i);
        }
      }
    } else {
      var id :| id in s.outstanding;
      var events := [Settlement(id, Success), Request(id)];
      assert events[..1] == [events[0]];
      RunOne(cfg, s, events[0]);
      assert StepAdmits(cfg, Run(cfg, s, events[..1]), events[1]);
      assert AdmitsBefore(cfg, s, events, deadline);
    }
  }

  // ---- The circuit as a function of its history -----------------------------------

  /** The latest entry of the log closed the circuit. */
  predicate EndsClosing(cfg: Config, log: seq<Entry>)
    requires log != []
    decreases |log|, 0
  {
    var last := log[|log| - 1];
    last.kind == Succeeded || (last.kind == FailedOther && HistoryState(cfg, log[..|log| - 1]) == HALF_OPEN)
  }

  /** Transient failures since the circuit last closed, those of half-open probes not counted. */
  function FailuresCounted(cfg: Config, log: seq<Entry>): nat
    decreases |log|, 1
  {
    if log == [] || EndsClosing(cfg, log) then 0
    else
      var before := log[..|log| - 1];
      FailuresCounted(cfg, before) +
      if log[|log| - 1].kind == FailedTransient && HistoryState(cfg, before) != HALF_OPEN then 1 else 0
  }

  /** When the latest transient failure since closing happened. */
  function LatestFailure(cfg: Config, log: seq<Entry>): Option<real>
    decreases |log|, 1
  {
    if log == [] || EndsClosing(cfg, log) then None
    else if log[|log| - 1].kind == FailedTransient then Some(log[|log| - 1].at)
    else LatestFailure(cfg, log[..|log| - 1])
  }

  /** Some call was let through after the latest transient failure or closing. */
  predicate AdmittedSince(cfg: Config, log: seq<Entry>)
    decreases |log|, 1
  {
    && log != [] && !EndsClosing(cfg, log)
    && var kind := log[|log| - 1].kind;
       kind != FailedTransient && (kind == Admitted || AdmittedSince(cfg, log[..|log| - 1]))
  }

  /** Calls let through since then, less the slots released, never below zero. */
  function SlotsTaken(cfg: Config, log: seq<Entry>): nat
    decreases |log|, 1
  {
    if log == [] || EndsClosing(cfg, log) then 0
    else
      var before := log[..|log| - 1];
      var kind := log[|log| - 1].kind;
      if kind == FailedTransient then 0
      else if kind == Admitted then SlotsTaken(cfg, before) + 1
      else if kind == SlotReleased && SlotsTaken(cfg, before) > 0 then SlotsTaken(cfg, before) - 1
      else SlotsTaken(cfg, before)
  }

  function HistoryState(cfg: Config, log: seq<Entry>): CircuitState
    decreases |log|, 2
  {
    if FailuresCounted(cfg, log) < cfg.failureThreshold then CLOSED
    else if AdmittedSince(cfg, log) then HALF_OPEN
    else OPEN
  }

  /** The circuit that a log of events alone determines. */
  function Remembered(cfg: Config, log: seq<Entry>): Circuit {
    var state := HistoryState(cfg, log);
    Circuit(state, FailuresCounted(cfg, log),
            if state == CLOSED then None else LatestFailure(cfg, log),
            if state == HALF_OPEN then SlotsTaken(cfg, log) else 0)
  }

  /** How each reading of the log changes when one entry is added. */
  lemma HistoryGrows(cfg: Config, log: seq<Entry>, e: Entry)
    ensures var more := log + [e];
            var closes := e.kind == Succeeded || (e.kind == FailedOther && HistoryState(cfg, log) == HALF_OPEN);
            var slots := SlotsTaken(cfg, log);
            && EndsClosing(cfg, more) == closes
            && FailuresCounted(cfg, more) == (if closes then 0
                 else FailuresCounted(cfg, log)
                      + if e.kind == FailedTransient && HistoryState(cfg, log) != HALF_OPEN then 1 else 0)
            && LatestFailure(cfg, more)
               == (if closes then None else if e.kind == FailedTransient then Some(e.at) else LatestFailure(cfg, log))
            && AdmittedSince(cfg, more)
               == (!closes && e.kind != FailedTransient && (e.kind == Admitted || AdmittedSince(cfg, log)))
            && SlotsTaken(cfg, more) == (if closes || e.kind == FailedTransient then 0
                 else if e.kind == Admitted then slots + 1
                 else if e.kind == SlotReleased && slots > 0 then slots - 1 else slots)
  {
    assert (log + [e])[..|log|] == log;
  }

  lemma RememberedStep(cfg: Config, s: System, e: Event)
    requires cfg.Valid() && Inv(cfg, s)
    requires s.circuit == Remembered(cfg, s.log)
    requires s.circuit.state == OPEN ==> SlotsTaken(cfg, s.log) == 0
    ensures var t := Step(cfg, s, e);
            t.circuit == Remembered(cfg, t.log) && (t.circuit.state == OPEN ==> SlotsTaken(cfg, t.log) == 0)
  {
    var t := Step(cfg, s, e);
    hide EndsClosing, FailuresCounted, LatestFailure, AdmittedSince, SlotsTaken;
    if t.log != s.log {
      HistoryGrows(cfg, s.log, t.log[|t.log| - 1]);
      assert t.log == s.log + [t.log[|t.log| - 1]];
    }
  }

  lemma {:induction false} RememberedRun(cfg: Config, s: System, events: seq<Event>)
    requires cfg.Valid() && Inv(cfg, s)
    requires s.circuit == Remembered(cfg, s.log)
    requires s.circuit.state == OPEN ==> SlotsTaken(cfg, s.log) == 0
    ensures var t := Run(cfg, s, events); t.circuit == Remembered(cfg, t.log)
    decreases |events|
  {
    if events != [] {
      RememberedStep(cfg, s, events[0]);
      StepKeepsInv(cfg, s, events[0]);
      RememberedRun(cfg, Step(cfg, s, events[0]), events[1..]);
    }
  }

  /** In every reachable state, all four fields of the circuit are determined by its log. */
  lemma CircuitIsItsHistory(cfg: Config, events: seq<Event>)
    requires cfg.Valid()
    ensures var s := Run(cfg, INITIAL, events); s.circuit == Remembered(cfg, s.log) && WellFormed(cfg, s.circuit)
  {
    RememberedRun(cfg, INITIAL, events);
    ReachableInv(cfg, events);
  }

  // ---- The log answers for itself -------------------------------------------------

  /** Every admission and refusal in the log is what the circuit, as its history then was, decides at that moment. */
  ghost predicate DecidedByCircuit(cfg: Config, log: seq<Entry>) {
    forall i :: 0 <= i < |log| && (log[i].kind == Admitted || log[i].kind == Refused) ==>
      (log[i].kind == Admitted <==> Admits(cfg, Remembered(cfg, log[..i]), log[i].at))
  }

  /** The latest event of the call is its admission. */
  predicate OpenIn(log: seq<Entry>, id: CallId) {
    && log != []
    && var last := log[|log| - 1];
       if last.id == id && last.kind != Refused then last.kind == Admitted else OpenIn(log[..|log| - 1], id)
  }

  /** Every settlement in the log answers an admission of the same call, and no admission is answered twice. */
  ghost predicate SettledOnce(log: seq<Entry>) {
    forall i :: 0 <= i < |log| && log[i].kind != Refused ==>
      (log[i].kind == Admitted <==> !OpenIn(log[..i], log[i].id))
  }

  lemma LogAppend(cfg: Config, log: seq<Entry>, e: Entry)
    requires DecidedByCircuit(cfg, log) && SettledOnce(log)
    requires e.kind == Admitted ==> Admits(cfg, Remembered(cfg, log), e.at) && !OpenIn(log, e.id)
    requires e.kind == Refused ==> !Admits(cfg, Remembered(cfg, log), e.at)
    requires e.kind != Admitted && e.kind != Refused ==> OpenIn(log, e.id)
    ensures DecidedByCircuit(cfg, log + [e]) && SettledOnce(log + [e])
    ensures forall id :: OpenIn(log + [e], id)
              <==> if e.id == id && e.kind != Refused then e.kind == Admitted else OpenIn(log, id)
  {
    hide Remembered, Admits;
    assert (log + [e])[..|log|] == log;
    forall i | 0 <= i < |log| ensures (log + [e])[..i] == log[..i] && (log + [e])[i] == log[i] {
    }
  }

  lemma LogGrows(cfg: Config, s: System, e: Event)
    requires s.circuit == Remembered(cfg, s.log)
    requires DecidedByCircuit(cfg, s.log) && SettledOnce(s.log)
    requires forall id :: id in s.outstanding <==> OpenIn(s.log, id)
    ensures var t := Step(cfg, s, e);
            && DecidedByCircuit(cfg, t.log) && SettledOnce(t.log)
            && forall id :: id in t.outstanding <==> OpenIn(t.log, id)
  {
    hide Remembered, DecidedByCircuit, SettledOnce, OpenIn;
    var t := Step(cfg, s, e);
    if t.log != s.log {
      LogAppend(cfg, s.log, t.log[|s.log|]);
      assert t.log == s.log + [t.log[|s.log|]];
    }
  }

  lemma {:induction false} LogRuns(cfg: Config, events: seq<Event>)
    requires cfg.Valid()
    ensures var s := Run(cfg, INITIAL, events);
            && DecidedByCircuit(cfg, s.log) && SettledOnce(s.log)
            && forall id :: id in s.outstanding <==> OpenIn(s.log, id)
    decreases |events|
  {
    if events != [] {
      var n := |events| - 1;
      LogRuns(cfg, events[..n]);
      CircuitIsItsHistory(cfg, events[..n]);
      RunOneMore(cfg, INITIAL, events, n);
      assert events[..n + 1] == events;
      hide Run;
      LogGrows(cfg, Run(cfg, INITIAL, events[..n]), events[n]);
    }
  }

  /**
   In every reachable state the log accounts for itself: each request was let through exactly if
   the circuit its history determines admits one, each settlement answers one admission, and the
   calls outstanding are those whose admission is still unanswered.
   */
  lemma LogAnswersForItself(cfg: Config, s: System)
    requires cfg.Valid() && Reachable(cfg, s)
    ensures DecidedByCircuit(cfg, s.log) && SettledOnce(s.log)
    ensures forall id :: id in s.outstanding <==> OpenIn(s.log, id)
  {
    var events :| s == Run(cfg, INITIAL, events);
    LogRuns(cfg, events);
  }

  // ---- Promptness, read off the log -----------------------------------------------

  predicate Settles(e: Entry, id: CallId) {
    e.id == id && e.kind != Admitted && e.kind != Refused
  }

  /** Admission `i` of the log was answered within `limit`, or is not yet older than that. */
  ghost predicate AnsweredSoon(s: System, i: nat, limit: real)
    requires i < |s.log|
  {
    || s.now - s.log[i].at <= limit
    || exists j :: i < j < |s.log| && Settles(s.log[j], s.log[i].id) && s.log[j].at - s.log[i].at <= limit
  }

  /** By the log alone, every call settled within `limit` of its admission, or still may. */
  ghost predicate Prompt(s: System, limit: real) {
    forall i :: 0 <= i < |s.log| && s.log[i].kind == Admitted ==> AnsweredSoon(s, i, limit)
  }

  /** Entry `i` let outstanding call `id` through, and the log has not settled it since. */
  predicate AdmittedAt(s: System, id: CallId, i: nat)
    requires id in s.outstanding
  {
    && i < |s.log| && s.log[i] == Entry(s.outstanding[id].admittedAt, Admitted, id)
    && forall j :: i < j < |s.log| ==> !Settles(s.log[j], id)
  }

  ghost predicate SettledLater(log: seq<Entry>, i: nat)
    requires i < |log|
  {
    exists j :: i < j < |log| && Settles(log[j], log[i].id)
  }

  /** The log lies in the past, and every admission in it is settled by it or outstanding, none of these missing. */
  ghost predicate Logged(s: System) {
    && (forall i :: 0 <= i < |s.log| ==> s.log[i].at <= s.now)
    && (forall id :: id in s.outstanding ==> exists i: nat :: AdmittedAt(s, id, i))
    && AdmissionsLogged(s)
  }

  ghost predicate AdmissionsLogged(s: System) {
    forall i :: 0 <= i < |s.log| && s.log[i].kind == Admitted && !SettledLater(s.log, i) ==>
      s.log[i].id in s.outstanding && s.outstanding[s.log[i].id].admittedAt == s.log[i].at
  }

  lemma StepLogged(cfg: Config, s: System, e: Event)
    requires Logged(s)
    ensures Logged(Step(cfg, s, e))
  {
    hide AdmittedAt, SettledLater;
    StepLogsOutstanding(cfg, s, e);
    StepLogsAdmissions(cfg, s, e);
  }

  lemma StepLogsOutstanding(cfg: Config, s: System, e: Event)
    requires forall id :: id in s.outstanding ==> exists i: nat :: AdmittedAt(s, id, i)
    ensures var t := Step(cfg, s, e); forall id :: id in t.outstanding ==> exists i: nat :: AdmittedAt(t, id, i)
  {
    var t := Step(cfg, s, e);
    hide Admits, AfterAllow, Settle;
    forall id | id in t.outstanding ensures exists i: nat :: AdmittedAt(t, id, i) {
      if id in s.outstanding {
        var i: nat :| AdmittedAt(s, id, i);
        assert AdmittedAt(t, id, i);
      } else {
        assert AdmittedAt(t, id, |s.log|);
      }
    }
  }

  lemma StepLogsAdmissions(cfg: Config, s: System, e: Event)
    requires AdmissionsLogged(s)
    ensures AdmissionsLogged(Step(cfg, s, e))
  {
    var t := Step(cfg, s, e);
    hide Admits, AfterAllow, Settle, SettledLater;
    forall i | 0 <= i < |s.log|
      ensures SettledLater(s.log, i) ==> SettledLater(t.log, i)
      ensures t.log != s.log && Settles(t.log[|s.log|], s.log[i].id) ==> SettledLater(t.log, i)
    {
      SettledLaterGrows(s.log, t.log, i);
    }
  }

  lemma SettledLaterGrows(log: seq<Entry>, more: seq<Entry>, i: nat)
    requires log <= more && i < |log|
    ensures SettledLater(log, i) ==> SettledLater(more, i)
    ensures |log| < |more| && Settles(more[|log|], log[i].id) ==> SettledLater(more, i)
  {
    if j :| i < j < |log| && Settles(log[j], log[i].id) {
      assert Settles(more[j], more[i].id);
    }
  }

  /** What an outstanding call's age is, its admission's is. */
  lemma PromptIsYoung(s: System, limit: real)
    requires Logged(s) && Prompt(s, limit)
    ensures Young(s, limit)
  {
    forall id | id in s.outstanding ensures s.now - s.outstanding[id].admittedAt <= limit {
      var i: nat :| AdmittedAt(s, id, i);
      assert AnsweredSoon(s, i, limit);
    }
  }

  lemma WasPrompt(cfg: Config, s: System, e: Event, limit: real)
    requires Prompt(Step(cfg, s, e), limit)
    ensures Prompt(s, limit)
  {
    var t := Step(cfg, s, e);
    hide Admits, AfterAllow, Settle;
    forall i | 0 <= i < |s.log| && s.log[i].kind == Admitted ensures AnsweredSoon(s, i, limit) {
      assert t.log[i] == s.log[i];
      assert AnsweredSoon(t, i, limit);
      if t.now - t.log[i].at > limit {
        var j :| i < j < |t.log| && Settles(t.log[j], t.log[i].id) && t.log[j].at - t.log[i].at <= limit;
        if j < |s.log| {
          assert Settles(s.log[j], s.log[i].id);
        }
      }
    }
  }

  lemma StaysPrompt(cfg: Config, s: System, e: Event, limit: real)
    requires Logged(s) && Prompt(s, limit) && Young(Step(cfg, s, e), limit)
    ensures Prompt(Step(cfg, s, e), limit)
  {
    var t := Step(cfg, s, e);
    hide Admits, AfterAllow, Settle;
    assert s.log <= t.log;
    forall i | 0 <= i < |s.log| && s.log[i].kind == Admitted ensures AnsweredSoon(t, i, limit) {
      assert AnsweredSoon(s, i, limit);
      if SettledLater(s.log, i) {
        AnsweredByThen(s, t, i, limit);
      }
    }
  }

  /** An admission settled by the time it was not yet too old was settled in time. */
  lemma AnsweredByThen(s: System, t: System, i: nat, limit: real)
    requires i < |s.log| && s.log <= t.log && SettledLater(s.log, i) && AnsweredSoon(s, i, limit)
    requires forall j :: 0 <= j < |s.log| ==> s.log[j].at <= s.now
    ensures AnsweredSoon(t, i, limit)
  {
    var j :| i < j < |s.log| && Settles(s.log[j], s.log[i].id)
             && (s.now - s.log[i].at <= limit || s.log[j].at - s.log[i].at <= limit);
    assert t.log[j] == s.log[j] && t.log[i] == s.log[i] && Settles(t.log[j], t.log[i].id);
  }

  lemma {:induction false} TimelyOneMore(cfg: Config, s: System, events: seq<Event>, e: Event, limit: real)
    ensures Timely(cfg, s, events + [e], limit)
            <==> Timely(cfg, s, events, limit) && Young(Step(cfg, Run(cfg, s, events), e), limit)
    decreases |events|
  {
    if events == [] {
      assert [] + [e] == [e] && [e][1..] == [];
      assert Timely(cfg, Step(cfg, s, e), [], limit) <==> Young(Step(cfg, s, e), limit);
    } else {
      assert (events + [e])[1..] == events[1..] + [e];
      TimelyOneMore(cfg, Step(cfg, s, events[0]), events[1..], e, limit);
    }
  }

  /** Whether a run was timely can be read off the log it leaves. */
  lemma {:induction false} TimelyIffPrompt(cfg: Config, events: seq<Event>, limit: real)
    ensures Logged(Run(cfg, INITIAL, events))
    ensures Timely(cfg, INITIAL, events, limit) <==> Prompt(Run(cfg, INITIAL, events), limit)
    decreases |events|
  {
    if events != [] {
      var n := |events| - 1;
      var s, e := Run(cfg, INITIAL, events[..n]), events[n];
      TimelyIffPrompt(cfg, events[..n], limit);
      RunOneMore(cfg, INITIAL, events, n);
      assert events[..n + 1] == events == events[..n] + [e];
      hide *;
      TimelyOneMore(cfg, INITIAL, events[..n], e, limit);
      StepLogged(cfg, s, e);
      if Prompt(Step(cfg, s, e), limit) {
        WasPrompt(cfg, s, e, limit);
        PromptIsYoung(Step(cfg, s, e), limit);
      }
      if Prompt(s, limit) && Young(Step(cfg, s, e), limit) {
        StaysPrompt(cfg, s, e, limit);
      }
    }
  }

  /** The bound on real probes, for a circuit whose log shows that calls settle faster than the cooldown. */
  lemma PromptProbesExact(cfg: Config, s: System, limit: real)
    requires cfg.Valid() && Reachable(cfg, s) && Prompt(s, limit) && limit < cfg.openSeconds
    ensures ProbesExact(s) && ProbesBounded(cfg, s)
  {
    var events :| s == Run(cfg, INITIAL, events);
    TimelyIffPrompt(cfg, events, limit);
    RealProbeBound(cfg, events, limit);
  }

  // ---- One request's calls --------------------------------------------------------

  /** One event in the life of one call. */
  datatype Mark = Mark(id: CallId, kind: Kind)

  /** What the log says of the calls of one request, in order. */
  function MarksOf(log: seq<Entry>, request: nat): seq<Mark> {
    if log == [] then []
    else
      var last := log[|log| - 1];
      MarksOf(log[..|log| - 1], request) + (if last.id.request == request then [Mark(last.id, last.kind)] else [])
  }

  lemma MarksAppend(log: seq<Entry>, e: Entry, request: nat)
    ensures MarksOf(log + [e], request)
            == MarksOf(log, request) + (if e.id.request == request then [Mark(e.id, e.kind)] else [])
  {
    assert (log + [e])[..|log|] == log;
  }

  // ---- Whose calls a change concerns ----------------------------------------------

  /**
   From `p` to `q`, only calls of `request` were made or settled, or, with `own` false, only calls
   of others: the log went on with entries of such calls, and every other call is in flight or not
   as it was.
   */
  ghost predicate Touched(p: System, q: System, request: nat, own: bool) {
    && p.log <= q.log
    && (forall i :: |p.log| <= i < |q.log| ==> (q.log[i].id.request == request) == own)
    && (forall id: CallId :: (id.request == request) != own ==> (id in p.outstanding <==> id in q.outstanding))
  }

  lemma TouchedTwice(p: System, q: System, r: System, request: nat, own: bool)
    requires Touched(p, q, request, own) && Touched(q, r, request, own)
    ensures Touched(p, r, request, own)
  {
    forall i | |p.log| <= i < |r.log| ensures (r.log[i].id.request == request) == own {
      if i < |q.log| {
        assert r.log[i] == q.log[i];
      }
    }
  }

  /** One block of the request's own. */
  lemma StepTouches(cfg: Config, p: System, e: Event, request: nat)
    requires !e.Tick? ==> e.id.request == request
    ensures Touched(p, Step(cfg, p, e), request, true)
  {
  }

  /** What one request touches of its own, another sees as touched by others. */
  lemma TouchedByOther(p: System, q: System, request: nat, other: nat)
    requires Touched(p, q, request, true) && request != other
    ensures Touched(p, q, other, false)
  {
  }

  /** What others touch leaves a request's marks alone. */
  lemma {:induction false} MarksKept(p: System, q: System, request: nat)
    requires Touched(p, q, request, false)
    ensures MarksOf(q.log, request) == MarksOf(p.log, request)
    decreases |q.log|
  {
    if p.log != q.log {
      var n := |q.log| - 1;
      assert q.log[n].id.request != request;
      MarksKept(p, q.(log := q.log[..n]), request);
    }
  }
}
