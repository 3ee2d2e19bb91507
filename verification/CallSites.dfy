/**
 The two kinds of call that share a backend's circuit: task dispatches and router
 decisions. Each is one admission block, a wait, and at most one settlement.
 */
module CallSites {
  import opened Common
  import opened Schemas
  import opened Registry
  import opened Circuit
  import opened CircuitSystem
  import opened Conversation
  import opened Backends
  import opened EventLoop

  // ---- Task dispatch --------------------------------------------------------------

  /** How the awaited provider call comes back, whatever the provider and network do. */
  datatype GenerateReply =
    | Generated(response: string)
    | TimedOut
    | ProviderFailed(scope: FailureScope, blocksBackend: bool)
    | ProviderDisabled
    | CallCancelled
    | CallCrashed

  /** What `dispatch` returns or raises. */
  datatype DispatchReply =
    | Responded(response: string)
    | Unavailable(blocksBackend: bool)
    | CircuitOpen
    | Cancelled
    | Unexpected

  function DispatchOutcome(g: GenerateReply): Outcome {
    match g
    case Generated(_) => Success
    case TimedOut => TransientFailure
    case ProviderFailed(scope, _) => if scope == BackendTransient then TransientFailure else OtherFailure
    case ProviderDisabled => Released
    case CallCancelled => Released
    case CallCrashed => Released
  }

  function DispatchReplyOf(g: GenerateReply): DispatchReply {
    match g
    case Generated(response) => Responded(response)
    case TimedOut => Unavailable(false)
    case ProviderFailed(_, blocks) => Unavailable(blocks)
    case ProviderDisabled => Unavailable(false)
    case CallCancelled => Cancelled
    case CallCrashed => Unexpected
  }

  /**
   Which settlement each end of a provider call makes: a response resets the circuit; a timeout, or
   a failure laid to the backend, counts against it; any other failure of the provider does not;
   and whatever else ends the call gives its slot back.
   */
  lemma DispatchSettles(g: GenerateReply)
    ensures DispatchOutcome(g) == Success <==> g.Generated?
    ensures DispatchOutcome(g) == TransientFailure <==>
            g == TimedOut || exists blocks :: g == ProviderFailed(BackendTransient, blocks)
    ensures DispatchOutcome(g) == OtherFailure <==> g.ProviderFailed? && g.scope != BackendTransient
    ensures DispatchOutcome(g) == Released <==> g == ProviderDisabled || g == CallCancelled || g == CallCrashed
  {
    if g.ProviderFailed? {
      assert g == ProviderFailed(g.scope, g.blocksBackend);
    }
  }

  /** What is noted of a call that its circuit refused. */
  function RefusedMarks(id: CallId): seq<Mark> {
    [Mark(id, Refused)]
  }

  /** What is noted of a call that was made: its admission, and one settlement. */
  function MadeMarks(id: CallId, outcome: Outcome): seq<Mark> {
    [Mark(id, Admitted), Mark(id, KindOf(outcome))]
  }

  class ProviderDispatcher {
    const registry: ModelRegistry
    const world: World

    constructor (registry: ModelRegistry, world: World)
      ensures this.registry == registry && this.world == world
    {
      this.registry, this.world := registry, world;
    }

    /**
     One attempt at one provider. An unknown provider makes no call and changes nothing. A refused
     admission changes no circuit and notes the refusal. An admitted call is settled exactly once,
     on every exit.
     */
    method Dispatch(providerId: string, generate: GenerateReply, ghost id: CallId, ghost key: Key, ghost alone: bool)
      returns (reply: DispatchReply, ghost admitted: bool)
      requires registry.Valid() && world.Idle(id.request, key)
      modifies world, world.store, world.circuits, world.circuits.circuits.Values
      ensures world.Idle(id.request, key)
      ensures RecordsRelied(old(world.store.Contents()), world.store.Contents(), key, alone)
      ensures match Find(registry.ListProviders(), providerId)
              case None => reply == Unexpected && !admitted && world.circuits.systems == old(world.circuits.systems)
              case Some(config) =>
                && admitted
                   == old(Admits(world.circuits.cfg, world.circuits.circuits[config.backend].Value(),
                                 world.circuits.now))
                && reply == (if admitted then DispatchReplyOf(generate) else CircuitOpen)
                && world.circuits.Account(id.request)
                   == Added(old(world.circuits.Account(id.request)), config.backend,
                            if admitted then MadeMarks(id, DispatchOutcome(generate)) else RefusedMarks(id))
                && (!admitted ==> world.circuits.circuits[config.backend].Value()
                                  == old(world.circuits.circuits[config.backend].Value()))
    {
      hide Admits, DispatchReplyOf, MadeMarks, RefusedMarks, Guarantee, Reachable, AccountOf, Added, RecordsRelied,
        GoodRecords, NoneOf;
      RecordsReliedAtOnce(world.store.Contents(), key, alone);
      var config := registry.GetProvider(providerId);
      if config.None? {
        return Unexpected, false;
      }
      reply, admitted := Call(config.value.backend, generate, id, key, alone);
    }

    method Call(b: Backend, generate: GenerateReply, ghost id: CallId, ghost key: Key, ghost alone: bool)
      returns (reply: DispatchReply, ghost admitted: bool)
      requires world.Idle(id.request, key)
      modifies world, world.store, world.circuits, world.circuits.circuits.Values
      ensures world.Idle(id.request, key)
      ensures RecordsRelied(old(world.store.Contents()), world.store.Contents(), key, alone)
      ensures admitted == old(Admits(world.circuits.cfg, world.circuits.circuits[b].Value(), world.circuits.now))
      ensures reply == if admitted then DispatchReplyOf(generate) else CircuitOpen
      ensures !admitted ==> world.circuits.circuits[b].Value() == old(world.circuits.circuits[b].Value())
      ensures world.circuits.Account(id.request)
              == Added(old(world.circuits.Account(id.request)), b,
                       if admitted then MadeMarks(id, DispatchOutcome(generate)) else RefusedMarks(id))
    {
      hide *;
      ghost var account := world.circuits.Account(id.request);
      var ok := Begin(world, b, id, key, alone);
      admitted := ok;
      if ok {
        reply := Conclude(b, generate, id, key);
        Made(account, b, id, DispatchOutcome(generate));
      } else {
        reply := CircuitOpen;
      }
      NotMade(id);
    }

    /** The block after the provider call: one settlement, of the kind each exit makes. */
    method Conclude(b: Backend, generate: GenerateReply, ghost id: CallId, ghost key: Key)
      returns (reply: DispatchReply)
      requires world.Calling(b, id, key)
      modifies world.circuits`systems, world.circuits.circuits.Values
      ensures world.Idle(id.request, key)
      ensures reply == DispatchReplyOf(generate)
      ensures world.store.Contents() == old(world.store.Contents())
      ensures world.circuits.systems == old(world.circuits.systems)[b :=
                old(Step(world.circuits.cfg, world.circuits.Current(b), Settlement(id, DispatchOutcome(generate))))]
      ensures world.circuits.Account(id.request)
              == Added(old(world.circuits.Account(id.request)), b, [Mark(id, KindOf(DispatchOutcome(generate)))])
    {
      hide *;
      world.CallingMeans(b, id, key);
      world.circuits.CurrentIs(b);
      ghost var a, outcome := world.Snapshot(), DispatchOutcome(generate);
      reply := SettleAndNote(b, generate, id);
      world.IdleMeans(id.request, key);
      OwnCallGuaranteed(world.circuits.cfg, world.seen, a, world.Snapshot(), id.request, key, b,
                        Settlement(id, outcome), world.circuits.now - a.systems[b].now);
    }

    method SettleAndNote(b: Backend, generate: GenerateReply, ghost id: CallId) returns (reply: DispatchReply)
      requires world.circuits.Valid() && world.circuits.OnlyInFlight(b, id)
      modifies world.circuits`systems, world.circuits.circuits.Values
      ensures world.circuits.Valid() && world.circuits.NothingInFlight(id.request)
      ensures reply == DispatchReplyOf(generate)
      ensures world.circuits.systems == old(world.circuits.systems)[b :=
                old(Step(world.circuits.cfg, world.circuits.Current(b), Settlement(id, DispatchOutcome(generate))))]
      ensures world.circuits.Account(id.request)
              == Added(old(world.circuits.Account(id.request)), b, [Mark(id, KindOf(DispatchOutcome(generate)))])
    {
      hide DispatchReplyOf, DispatchOutcome, Settle, Reachable, Step, KindOf, AccountOf, Added;
      assert world.circuits.Agrees(b);
      reply := SettleCircuit(b, generate);
      world.circuits.NoteSettled(b, id, DispatchOutcome(generate));
    }

    method SettleCircuit(b: Backend, generate: GenerateReply) returns (reply: DispatchReply)
      requires world.circuits.Ready()
      modifies world.circuits.circuits[b]
      ensures world.circuits.Ready()
      ensures reply == DispatchReplyOf(generate)
      ensures world.circuits.circuits[b].Value()
              == old(Settle(world.circuits.cfg, world.circuits.circuits[b].Value(), DispatchOutcome(generate),
                            world.circuits.now))
    {
      match generate {
        case Generated(response) =>
          world.circuits.RecordSuccess(b);
          reply := Responded(response);
        case TimedOut =>
          world.circuits.RecordFailure(b, true);
          reply := Unavailable(false);
        case ProviderFailed(scope, blocks) =>
          world.circuits.RecordFailure(b, scope == BackendTransient);
          reply := Unavailable(blocks);
        case ProviderDisabled =>
          world.circuits.ReleaseProbe(b);
          reply := Unavailable(false);
        case CallCancelled =>
          world.circuits.ReleaseProbe(b);
          reply := Cancelled;
        case CallCrashed =>
          world.circuits.ReleaseProbe(b);
          reply := Unexpected;
      }
    }
  }

  lemma Made(account: map<Backend, seq<Mark>>, b: Backend, id: CallId, outcome: Outcome)
    ensures Added(Added(account, b, [Mark(id, Admitted)]), b, [Mark(id, KindOf(outcome))])
            == Added(account, b, MadeMarks(id, outcome))
  {
    AddedTwice(account, b, [Mark(id, Admitted)], [Mark(id, KindOf(outcome))]);
    assert [Mark(id, Admitted)] + [Mark(id, KindOf(outcome))] == MadeMarks(id, outcome);
  }

  lemma NotMade(id: CallId)
    ensures RefusedMarks(id) == [Mark(id, Refused)]
  {
  }

  /** The admission block both kinds of call begin with. */
  method Admit(world: World, b: Backend, ghost id: CallId, ghost key: Key) returns (ok: bool)
    requires world.Idle(id.request, key)
    modifies world.circuits`systems, world.circuits.circuits.Values
    ensures world.store.Contents() == old(world.store.Contents())
    ensures if ok then world.Calling(b, id, key) else world.Idle(id.request, key)
    ensures ok == old(Admits(world.circuits.cfg, world.circuits.circuits[b].Value(), world.circuits.now))
    ensures !ok ==> world.circuits.circuits[b].Value() == old(world.circuits.circuits[b].Value())
    ensures world.circuits.systems ==
            old(world.circuits.systems)[b := old(Step(world.circuits.cfg, world.circuits.Current(b), Request(id)))]
    ensures world.circuits.Account(id.request)
            == Added(old(world.circuits.Account(id.request)), b, [Mark(id, if ok then Admitted else Refused)])
  {
    hide *;
    world.IdleMeans(id.request, key);
    world.CallingMeans(b, id, key);
    world.circuits.CurrentIs(b);
    ghost var a := world.Snapshot();
    ok := world.circuits.Admit(b, id);
    world.IdleMeans(id.request, key);
    world.CallingMeans(b, id, key);
    OwnCallGuaranteed(world.circuits.cfg, world.seen, a, world.Snapshot(), id.request, key, b, Request(id),
                      world.circuits.now - a.systems[b].now);
  }

  /** Admission, and, if admitted, the wait for the call to come back. */
  method Begin(world: World, b: Backend, ghost id: CallId, ghost key: Key, ghost alone: bool) returns (ok: bool)
    requires world.Idle(id.request, key)
    modifies world, world.store, world.circuits, world.circuits.circuits.Values
    ensures if ok then world.Calling(b, id, key) else world.Idle(id.request, key)
    ensures RecordsRelied(old(world.store.Contents()), world.store.Contents(), key, alone)
    ensures ok == old(Admits(world.circuits.cfg, world.circuits.circuits[b].Value(), world.circuits.now))
    ensures !ok ==> world.circuits.circuits[b].Value() == old(world.circuits.circuits[b].Value())
    ensures world.circuits.Account(id.request)
            == Added(old(world.circuits.Account(id.request)), b, [Mark(id, if ok then Admitted else Refused)])
  {
    hide Reachable, Admits, Step, Guarantee, Touched;
    ok := Admit(world, b, id, key);
    if ok {
      Wait(world, b, id, key, alone);
    }
  }

  /** A wait for the call in flight: others run, and the call stays in flight. */
  method Wait(world: World, b: Backend, ghost id: CallId, ghost key: Key, ghost alone: bool)
    requires world.Calling(b, id, key)
    modifies world, world.store, world.circuits, world.circuits.circuits.Values
    ensures world.Calling(b, id, key)
    ensures RecordsRelied(old(world.store.Contents()), world.store.Contents(), key, alone)
    ensures world.circuits.Account(id.request) == old(world.circuits.Account(id.request))
  {
    hide Reachable, Touched;
    ghost var a := world.Snapshot();
    world.Await(id.request, key, alone);
    RelyKeepsCalls(a, world.Snapshot(), id.request, key, alone);
    world.ResumedKeeps(id.request, key);
  }

  // ---- Router decisions -----------------------------------------------------------

  /**
   How one POST to a router backend comes back; a 2xx body may fail to parse. A timeout, a
   cancellation or a crash may also come before the POST is sent, while its client is obtained.
   */
  datatype PostReply =
    | HttpOk(parsed: Option<RouterDecision>)
    | HttpFailed(scope: FailureScope, unauthorized: bool)
    | TierTimedOut(sent: bool)
    | PostCancelled(sent: bool)
    | PostCrashed(sent: bool)
  {
    predicate Sent() {
      HttpOk? || HttpFailed? || sent
    }
  }

  /** What `decide` returns or raises; a failure may name a backend to avoid. */
  datatype RouterReply =
    | Decided(decision: RouterDecision)
    | RouterFailed(blocks: Option<Backend>)
    | RouterRefused
    | RouterCancelled

  /** What an admitted `decide` does, given its first POST and, if needed, its repair. */
  datatype Verdict = Verdict(reply: RouterReply, outcome: Outcome, posts: nat)

  function FailedPost(b: Backend, p: PostReply, before: nat): Verdict
    requires !p.HttpOk?
  {
    var posts := if p.Sent() then before + 1 else before;
    match p
    case HttpFailed(scope, unauthorized) =>
      Verdict(RouterFailed(if unauthorized then Some(b) else None),
              if scope == BackendTransient then TransientFailure else OtherFailure, posts)
    case TierTimedOut(_) => Verdict(RouterFailed(None), TransientFailure, posts)
    case PostCancelled(_) => Verdict(RouterCancelled, Released, posts)
    case PostCrashed(_) => Verdict(RouterFailed(None), Released, posts)
  }

  function VerdictOf(b: Backend, first: PostReply, repair: PostReply): (v: Verdict)
    ensures !v.reply.RouterRefused? && v.posts <= 2
    ensures v.posts == 0 <==> !first.Sent()
    ensures v.posts == 2 <==> first == HttpOk(None) && repair.Sent()
  {
    if !first.HttpOk? then FailedPost(b, first, 0)
    else if first.parsed.Some? then Verdict(Decided(first.parsed.value), Success, 1)
    else if !repair.HttpOk? then FailedPost(b, repair, 1)
    else if repair.parsed.Some? then Verdict(Decided(repair.parsed.value), Success, 2)
    else Verdict(RouterFailed(None), OtherFailure, 2)
  }

  /** The POST whose reply decides: the first, or the repair of one whose body did not parse. */
  function DecidingPost(first: PostReply, repair: PostReply): PostReply {
    if first == HttpOk(None) then repair else first
  }

  /** What an admitted decide returns or raises, read off the deciding POST. */
  lemma DecideReplies(b: Backend, first: PostReply, repair: PostReply)
    ensures var last, reply := DecidingPost(first, repair), VerdictOf(b, first, repair).reply;
            && (forall d :: reply == Decided(d) <==> last == HttpOk(Some(d)))
            && (reply.RouterFailed? <==>
                  last == HttpOk(None) || last.HttpFailed? || last.TierTimedOut? || last.PostCrashed?)
            && (forall c :: reply == RouterFailed(Some(c)) <==> c == b && last.HttpFailed? && last.unauthorized)
            && (reply == RouterCancelled <==> last.PostCancelled?)
  {
  }

  /** And which settlement it makes. */
  lemma DecideSettles(b: Backend, first: PostReply, repair: PostReply)
    ensures var last, outcome := DecidingPost(first, repair), VerdictOf(b, first, repair).outcome;
            && (outcome == Success <==> last.HttpOk? && last.parsed.Some?)
            && (outcome == TransientFailure <==>
                  last.TierTimedOut? || (last.HttpFailed? && last.scope == BackendTransient))
            && (outcome == OtherFailure <==>
                  last == HttpOk(None) || (last.HttpFailed? && last.scope != BackendTransient))
            && (outcome == Released <==> last.PostCancelled? || last.PostCrashed?)
  {
  }

  class StructuredHTTPRouter {
    const backend: Backend
    const world: World

    constructor (backend: Backend, world: World)
      ensures this.backend == backend && this.world == world
    {
      this.backend, this.world := backend, world;
    }

    /**
     One structured decision: at most one repair, and one settlement whichever of the nested
     handlers make it. A recorded failure is followed by a release that changes nothing.
     */
    method Decide(first: PostReply, repair: PostReply, ghost id: CallId, ghost key: Key, ghost alone: bool)
      returns (reply: RouterReply, posts: nat, ghost admitted: bool)
      requires world.Idle(id.request, key)
      modifies world, world.store, world.circuits, world.circuits.circuits.Values
      ensures world.Idle(id.request, key)
      ensures RecordsRelied(old(world.store.Contents()), world.store.Contents(), key, alone)
      ensures admitted == old(Admits(world.circuits.cfg, world.circuits.circuits[backend].Value(), world.circuits.now))
      ensures reply == if admitted then VerdictOf(backend, first, repair).reply else RouterRefused
      ensures posts == if admitted then VerdictOf(backend, first, repair).posts else 0
      ensures !admitted ==> world.circuits.circuits[backend].Value() == old(world.circuits.circuits[backend].Value())
      ensures world.circuits.Account(id.request)
              == Added(old(world.circuits.Account(id.request)), backend,
                       if admitted then MadeMarks(id, VerdictOf(backend, first, repair).outcome) else RefusedMarks(id))
    {
      hide *;
      ghost var account, records := world.circuits.Account(id.request), world.store.Contents();
      var ok := Begin(world, backend, id, key, alone);
      admitted := ok;
      if ok {
        ghost var later := world.store.Contents();
        posts := Exchange(first, repair, id, key, alone);
        RecordsReliedTwice(records, later, world.store.Contents(), key, alone);
        reply := Conclude(first, repair, id, key);
        Made(account, backend, id, VerdictOf(backend, first, repair).outcome);
      } else {
        reply, posts := RouterRefused, 0;
      }
      NotMade(id);
    }

    /** The POSTs: a second one only to repair a first whose body did not parse. */
    method Exchange(first: PostReply, repair: PostReply, ghost id: CallId, ghost key: Key, ghost alone: bool)
      returns (posts: nat)
      requires world.Calling(backend, id, key)
      modifies world, world.store, world.circuits, world.circuits.circuits.Values
      ensures world.Calling(backend, id, key)
      ensures RecordsRelied(old(world.store.Contents()), world.store.Contents(), key, alone)
      ensures world.circuits.Account(id.request) == old(world.circuits.Account(id.request))
      ensures posts == VerdictOf(backend, first, repair).posts
    {
      posts := if first.Sent() then 1 else 0;
      if first == HttpOk(None) {
        Wait(world, backend, id, key, alone);
        posts := if repair.Sent() then 2 else 1;
      }
    }

    /** The block after the last POST: one settlement, of the same kind of step a dispatch makes. */
    method Conclude(first: PostReply, repair: PostReply, ghost id: CallId, ghost key: Key) returns (reply: RouterReply)
      requires world.Calling(backend, id, key)
      modifies world.circuits`systems, world.circuits.circuits.Values
      ensures world.Idle(id.request, key)
      ensures reply == VerdictOf(backend, first, repair).reply
      ensures world.store.Contents() == old(world.store.Contents())
      ensures world.circuits.systems == old(world.circuits.systems)[backend :=
                old(Step(world.circuits.cfg, world.circuits.Current(backend),
                         Settlement(id, VerdictOf(backend, first, repair).outcome)))]
      ensures world.circuits.Account(id.request)
              == Added(old(world.circuits.Account(id.request)), backend,
                       [Mark(id, KindOf(VerdictOf(backend, first, repair).outcome))])
    {
      hide *;
      world.CallingMeans(backend, id, key);
      world.circuits.CurrentIs(backend);
      ghost var a, outcome := world.Snapshot(), VerdictOf(backend, first, repair).outcome;
      reply := SettleAndNote(first, repair, id);
      world.IdleMeans(id.request, key);
      OwnCallGuaranteed(world.circuits.cfg, world.seen, a, world.Snapshot(), id.request, key, backend,
                        Settlement(id, outcome), world.circuits.now - a.systems[backend].now);
    }

    method SettleAndNote(first: PostReply, repair: PostReply, ghost id: CallId) returns (reply: RouterReply)
      requires world.circuits.Valid() && world.circuits.OnlyInFlight(backend, id)
      modifies world.circuits`systems, world.circuits.circuits.Values
      ensures world.circuits.Valid() && world.circuits.NothingInFlight(id.request)
      ensures reply == VerdictOf(backend, first, repair).reply
      ensures world.circuits.systems == old(world.circuits.systems)[backend :=
                old(Step(world.circuits.cfg, world.circuits.Current(backend),
                         Settlement(id, VerdictOf(backend, first, repair).outcome)))]
      ensures world.circuits.Account(id.request)
              == Added(old(world.circuits.Account(id.request)), backend,
                       [Mark(id, KindOf(VerdictOf(backend, first, repair).outcome))])
    {
      hide VerdictOf, Settle, Reachable, Step, KindOf, AccountOf, Added;
      assert world.circuits.Agrees(backend);
      reply := SettleCircuit(first, repair);
      world.circuits.NoteSettled(backend, id, VerdictOf(backend, first, repair).outcome);
    }

    /** Records and releases in the order the exception handlers nest. */
    method SettleCircuit(first: PostReply, repair: PostReply) returns (reply: RouterReply)
      requires world.circuits.Ready()
      modifies world.circuits.circuits[backend]
      ensures world.circuits.Ready()
      ensures reply == VerdictOf(backend, first, repair).reply
      ensures world.circuits.circuits[backend].Value()
              == old(Settle(world.circuits.cfg, world.circuits.circuits[backend].Value(),
                            VerdictOf(backend, first, repair).outcome, world.circuits.now))
    {
      var last := if first == HttpOk(None) then repair else first;
      match last {
        case HttpOk(Some(d)) =>
          world.circuits.RecordSuccess(backend);
          reply := Decided(d);
        case HttpOk(None) =>
          FailThenRelease(false);
          reply := RouterFailed(None);
        case HttpFailed(scope, unauthorized) =>
          FailThenRelease(scope == BackendTransient);
          reply := RouterFailed(if unauthorized then Some(backend) else None);
        case TierTimedOut(_) =>
          world.circuits.RecordFailure(backend, true);
          reply := RouterFailed(None);
        case PostCancelled(_) =>
          world.circuits.ReleaseProbe(backend);
          reply := RouterCancelled;
        case PostCrashed(_) =>
          world.circuits.ReleaseProbe(backend);
          reply := RouterFailed(None);
      }
    }

    /** A failure recorded inside the timeout scope meets the outer handler, which releases. */
    method FailThenRelease(backendTransient: bool)
      requires world.circuits.Ready()
      modifies world.circuits.circuits[backend]
      ensures world.circuits.Ready()
      ensures world.circuits.circuits[backend].Value()
              == old(AfterFailure(world.circuits.cfg, world.circuits.circuits[backend].Value(), backendTransient,
                                  world.circuits.now))
    {
      ReleaseAfterFailureDoesNothing(world.circuits.cfg, world.circuits.circuits[backend].Value(), backendTransient,
                                     world.circuits.now);
      world.circuits.RecordFailure(backend, backendTransient);
      world.circuits.ReleaseProbe(backend);
    }
  }
}
