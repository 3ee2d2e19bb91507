/**
 The circuits of all backends behind one clock, with the ghost account of every call
 that router and task code has in flight on each.
 */
module Backends {
  import opened Schemas
  import opened Circuit
  import opened CircuitSystem

  class BackendCircuits {
    const cfg: Config
    const circuits: map<Backend, BackendCircuit>
    /** The monotonic clock all circuits read. */
    var now: real
    /** Each backend as a shared system: its circuit and the calls outstanding on it. */
    ghost var systems: map<Backend, System>

    /** The circuits are separate, well-formed objects. */
    ghost predicate Ready()
      reads this, circuits.Values
    {
      && cfg.Valid()
      && (forall b: Backend :: b in circuits)
      && (forall b :: b in circuits ==> circuits[b].owner == b && circuits[b].cfg == cfg && circuits[b].Valid())
    }

    /** The account agrees with the circuit of `b`, and some interleaving of calls leads to it. */
    ghost predicate Agrees(b: Backend)
      requires b in circuits
      reads this, circuits[b]
    {
      b in systems && systems[b].circuit == circuits[b].Value() && Reachable(cfg, systems[b]) && systems[b].now <= now
    }

    ghost predicate Valid()
      reads this, circuits.Values
    {
      Ready() && forall b :: b in circuits ==> Agrees(b)
    }

    /** No backend has an unsettled call of this request. */
    ghost predicate NothingInFlight(request: nat)
      reads this
    {
      NoneOf(systems, request)
    }

    /** The only unsettled call of the request is `id`, on backend `b`. */
    ghost predicate OnlyInFlight(b: Backend, id: CallId)
      reads this
    {
      OnlyOf(systems, b, id)
    }

    /** What happened to the calls of one request, on each backend, in order. */
    ghost function Account(request: nat): map<Backend, seq<Mark>>
      reads this
    {
      AccountOf(systems, request)
    }

    /** The account of `b` brought up to the present. */
    ghost function Current(b: Backend): System
      requires b in systems
      reads this
    {
      Step(cfg, systems[b], Tick(now - systems[b].now))
    }

    /** Mid-block: only the circuit of `b` may have moved since it was last accounted for. */
    ghost predicate Pending(b: Backend)
      reads this, circuits.Values
    {
      && Ready() && b in systems && Reachable(cfg, systems[b]) && systems[b].now <= now
      && forall c :: c in circuits && c != b ==> Agrees(c)
    }

    /** What the shared circuit objects inherit from every run: their history, their slots, their liveness. */
    lemma SharedCircuitFacts(b: Backend)
      requires Valid()
      ensures circuits[b].Value() == Remembered(cfg, systems[b].log)
      ensures circuits[b].state == HALF_OPEN
              ==> circuits[b].halfOpenInflight <= |InPeriod(systems[b])| <= |systems[b].outstanding|
      ensures systems[b].outstanding == map[] ==>
                (!Admits(cfg, circuits[b].Value(), now) <==> Cooling(cfg, circuits[b].Value(), now))
    {
      assert Agrees(b);
      var s := Current(b);
      assert s.circuit == circuits[b].Value() && s.now == now && s.outstanding == systems[b].outstanding
             && s.log == systems[b].log && InPeriod(s) == InPeriod(systems[b]);
      StepReachable(cfg, systems[b], Tick(now - systems[b].now));
      var events :| s == Run(cfg, INITIAL, events);
      hide *;
      CircuitIsItsHistory(cfg, events);
      SlotsAreBacked(cfg, events);
      if s.outstanding == map[] {
        IdleBackendRefusesOnlyWhileCooling(cfg, events);
      }
    }

    /** And the bound on real probes, if a backend's log shows its calls to settle in less than the cooldown. */
    lemma SharedProbeBound(b: Backend, limit: real)
      requires Valid() && limit < cfg.openSeconds && Prompt(systems[b], limit)
      ensures ProbesExact(systems[b])
      ensures circuits[b].state == HALF_OPEN ==>
                |systems[b].outstanding| == circuits[b].halfOpenInflight <= cfg.halfOpenProbes
    {
      assert Agrees(b);
      PromptProbesExact(cfg, systems[b], limit);
    }

    constructor (cfg: Config)
      requires cfg.Valid()
      ensures Valid() && this.cfg == cfg
      ensures forall b :: b in systems ==> systems[b] == INITIAL
    {
      var google := new BackendCircuit(cfg, Google);
      var nvidia := new BackendCircuit(cfg, Nvidia);
      var openRouter := new BackendCircuit(cfg, OpenRouter);
      var groq := new BackendCircuit(cfg, Groq);
      this.cfg := cfg;
      circuits := map b: Backend {:trigger Chosen(b, google, nvidia, openRouter, groq)}
        :: Chosen(b, google, nvidia, openRouter, groq);
      now := 0.0;
      systems := map b: Backend {:trigger InitialOf(b)} :: InitialOf(b);
      new;
      hide Reachable;
      InitialReachable(cfg);
      forall b: Backend
        ensures b in circuits && circuits[b].owner == b && circuits[b].cfg == cfg && circuits[b].Value() == FRESH
      {
        match b
        case Google => assert circuits[b] == google;
        case Nvidia => assert circuits[b] == nvidia;
        case OpenRouter => assert circuits[b] == openRouter;
        case Groq => assert circuits[b] == groq;
      }
      forall b: Backend ensures circuits[b].Valid() && Agrees(b) {
      }
    }

    method AllowRequest(b: Backend) returns (ok: bool)
      requires Ready()
      modifies circuits[b]
      ensures Ready()
      ensures ok == old(Admits(cfg, circuits[b].Value(), now))
      ensures circuits[b].Value() == old(AfterAllow(cfg, circuits[b].Value(), now))
      ensures !ok ==> circuits[b].Value() == old(circuits[b].Value())
    {
      ok := circuits[b].AllowRequest(now);
    }

    method RecordSuccess(b: Backend)
      requires Ready()
      modifies circuits[b]
      ensures Ready() && circuits[b].Value() == FRESH
    {
      circuits[b].RecordSuccess();
    }

    method RecordFailure(b: Backend, backendTransient: bool)
      requires Ready()
      modifies circuits[b]
      ensures Ready() && circuits[b].Value() == old(AfterFailure(cfg, circuits[b].Value(), backendTransient, now))
    {
      circuits[b].RecordFailure(backendTransient, now);
    }

    method ReleaseProbe(b: Backend)
      requires Ready()
      modifies circuits[b]
      ensures Ready() && circuits[b].Value() == old(AfterRelease(circuits[b].Value()))
    {
      circuits[b].ReleaseProbe();
    }

    /** Enters a finished block into the account. */
    ghost method Note(b: Backend, e: Event)
      requires Pending(b) && !e.Tick?
      requires Step(cfg, Current(b), e).circuit == circuits[b].Value()
      modifies this`systems
      ensures Valid() && systems == old(systems)[b := old(Step(cfg, Current(b), e))]
    {
      assert Current(b).now == now;
      hide Reachable, Step;
      StepReachable(cfg, systems[b], Tick(now - systems[b].now));
      StepReachable(cfg, Current(b), e);
      StepTime(cfg, Current(b), e);
      systems := systems[b := Step(cfg, Current(b), e)];
    }

    /** The account of an admission request that has just reached its circuit. */
    ghost method NoteRequest(b: Backend, id: CallId, ok: bool)
      requires Pending(b) && NothingInFlight(id.request)
      requires ok == Admits(cfg, systems[b].circuit, now)
      requires circuits[b].Value() == AfterAllow(cfg, systems[b].circuit, now)
      modifies this`systems
      ensures Valid() && systems == old(systems)[b := old(Step(cfg, Current(b), Request(id)))]
      ensures if ok then OnlyInFlight(b, id) else NothingInFlight(id.request)
      ensures Account(id.request) == Added(old(Account(id.request)), b, [Mark(id, if ok then Admitted else Refused)])
    {
      CurrentIsLater(b);
      hide *;
      ghost var before, t := systems, Step(cfg, Current(b), Request(id));
      NoneInFlight(before, b, id);
      RequestEffect(cfg, Current(b), id);
      if ok {
        OneInFlight(before, b, t, id);
      } else {
        StillNoneInFlight(before, b, t, id);
      }
      AccountGrows(before, b, t, Entry(now, if ok then Admitted else Refused, id), id.request);
      Note(b, Request(id));
    }

    /** An admission request and its entry in the account. */
    method Admit(b: Backend, ghost id: CallId) returns (ok: bool)
      requires Valid() && NothingInFlight(id.request)
      modifies this`systems, circuits.Values
      ensures Valid() && if ok then OnlyInFlight(b, id) else NothingInFlight(id.request)
      ensures ok == old(Admits(cfg, circuits[b].Value(), now))
      ensures !ok ==> circuits[b].Value() == old(circuits[b].Value())
      ensures systems == old(systems)[b := old(Step(cfg, Current(b), Request(id)))]
      ensures Account(id.request) == Added(old(Account(id.request)), b, [Mark(id, if ok then Admitted else Refused)])
    {
      hide Reachable, Admits, AfterAllow, Step, AccountOf, Added, NoneOf, OnlyOf;
      assert Agrees(b);
      ok := AllowRequest(b);
      NoteRequest(b, id, ok);
    }

    lemma CurrentIs(b: Backend)
      requires b in systems
      ensures Current(b) == Step(cfg, systems[b], Tick(now - systems[b].now))
    {
    }

    lemma CurrentIsLater(b: Backend)
      requires b in systems && systems[b].now <= now
      ensures Current(b) == systems[b].(now := now)
    {
    }

    /** The account of a call whose settlement has just reached its circuit. */
    ghost method NoteSettled(b: Backend, id: CallId, outcome: Outcome)
      requires Pending(b) && OnlyInFlight(b, id)
      requires circuits[b].Value() == Settle(cfg, systems[b].circuit, outcome, now)
      modifies this`systems
      ensures Valid() && NothingInFlight(id.request)
      ensures systems == old(systems)[b := old(Step(cfg, Current(b), Settlement(id, outcome)))]
      ensures Account(id.request) == Added(old(Account(id.request)), b, [Mark(id, KindOf(outcome))])
    {
      SettlementEffect(cfg, Current(b), id, outcome);
      CurrentIsLater(b);
      hide Step, Settle, KindOf, AccountOf, Reachable, Added;
      ghost var before, t := systems, Step(cfg, Current(b), Settlement(id, outcome));
      AccountGrows(before, b, t, Entry(now, KindOf(outcome), id), id.request);
      Note(b, Settlement(id, outcome));
    }
  }

  ghost predicate NoneOf(systems: map<Backend, System>, request: nat) {
    forall b, id :: b in systems && id in systems[b].outstanding ==> id.request != request
  }

  ghost predicate OnlyOf(systems: map<Backend, System>, b: Backend, id: CallId) {
    && b in systems && id in systems[b].outstanding
    && forall c, other :: c in systems && other in systems[c].outstanding && other.request == id.request
         ==> c == b && other == id
  }

  lemma NoneInFlight(systems: map<Backend, System>, b: Backend, id: CallId)
    requires NoneOf(systems, id.request) && b in systems
    ensures id !in systems[b].outstanding
  {
  }

  lemma OneInFlight(systems: map<Backend, System>, b: Backend, t: System, id: CallId)
    requires NoneOf(systems, id.request) && b in systems && t.outstanding.Keys == systems[b].outstanding.Keys + {id}
    ensures OnlyOf(systems[b := t], b, id)
  {
    assert forall other :: other in t.outstanding <==> other in systems[b].outstanding || other == id;
  }

  lemma StillNoneInFlight(systems: map<Backend, System>, b: Backend, t: System, id: CallId)
    requires NoneOf(systems, id.request) && b in systems && t.outstanding.Keys == systems[b].outstanding.Keys + {}
    ensures NoneOf(systems[b := t], id.request)
  {
    assert forall other :: other in t.outstanding <==> other in systems[b].outstanding;
  }

  function AccountOf(systems: map<Backend, System>, request: nat): map<Backend, seq<Mark>> {
    map b | b in systems :: MarksOf(systems[b].log, request)
  }

  lemma AccountGrows(systems: map<Backend, System>, b: Backend, t: System, e: Entry, request: nat)
    requires b in systems && t.log == systems[b].log + [e] && e.id.request == request
    ensures AccountOf(systems[b := t], request) == Added(AccountOf(systems, request), b, [Mark(e.id, e.kind)])
  {
    MarksAppend(systems[b].log, e, request);
  }

  /** An account with further marks on one backend. */
  function Added(account: map<Backend, seq<Mark>>, b: Backend, marks: seq<Mark>): map<Backend, seq<Mark>> {
    if b in account then account[b := account[b] + marks] else account
  }

  lemma AddedTwice(account: map<Backend, seq<Mark>>, b: Backend, x: seq<Mark>, y: seq<Mark>)
    ensures Added(Added(account, b, x), b, y) == Added(account, b, x + y)
  {
    if b in account {
      assert account[b] + x + y == account[b] + (x + y);
    }
  }

  lemma AddedNone(account: map<Backend, seq<Mark>>, b: Backend)
    ensures Added(account, b, []) == account
  {
    if b in account {
      assert account[b] + [] == account[b];
    }
  }

  function Chosen(b: Backend, google: BackendCircuit, nvidia: BackendCircuit, openRouter: BackendCircuit,
                  groq: BackendCircuit): BackendCircuit
  {
    match b
    case Google => google
    case Nvidia => nvidia
    case OpenRouter => openRouter
    case Groq => groq
  }

  function InitialOf(b: Backend): System {
    INITIAL
  }
}
