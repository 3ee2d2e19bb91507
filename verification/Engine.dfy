/** The request lifecycle of `routing/engine.py`, over the shared store and circuits. */
module Engine {
  import opened Common
  import opened Schemas
  import opened Registry
  import opened ControlPlane
  import opened Conversation
  import opened Circuit
  import opened CircuitSystem
  import opened Backends
  import opened EventLoop
  import opened CallSites
  import opened Lifecycle
  import opened Accounting

  /** What one request records about itself on the way. */
  class Capture {
    var routerAttempts: seq<RouterAttempt>
    var providerAttempts: seq<ProviderAttempt>
    var selectedProvider: Option<string>
    var taskGroup: Option<TaskGroup>
    /** The references this request appended to the audit log. */
    var audited: seq<PolicyAuditReference>
    /** Router rounds begun. */
    var rounds: nat
    /** POSTs sent to router backends. */
    ghost var posts: nat
    /** The providers the request dispatches along, once a round has decided. */
    ghost var chain: seq<ProviderConfig>
    /** What the circuits had noted in the request's name when it began. */
    ghost const began: map<Backend, seq<Mark>>

    constructor (ghost began: map<Backend, seq<Mark>>)
      ensures Ladder() == NO_LADDER && Phase() == NO_PHASE && this.began == began
    {
      routerAttempts, providerAttempts, selectedProvider, taskGroup, audited := [], [], None, None, [];
      rounds, posts, chain, this.began := 0, 0, [], began;
    }

    ghost function Ladder(): Ladder
      reads `rounds, `posts, `routerAttempts, `audited
    {
      Accounting.Ladder(rounds, posts, routerAttempts, audited)
    }

    ghost function Phase(): Phase
      reads `taskGroup, `chain, `providerAttempts, `selectedProvider
    {
      Accounting.Phase(taskGroup, chain, providerAttempts, selectedProvider)
    }
  }

  /** How one pass of the routing loop goes on. */
  datatype NextStep = Again | Finish(reply: Reply) | Execute(group: TaskGroup, chain: seq<ProviderConfig>)

  /** What one turn of the provider loop came to. */
  datatype Visited = GoOn | GotResponse(response: string) | WasCancelled | HasCrashed

  class RoutingEngine {
    const maxAttempts: nat
    const controlled: bool
    const world: World
    const registry: ModelRegistry
    const primary: StructuredHTTPRouter
    const fallback: StructuredHTTPRouter
    const dispatcher: ProviderDispatcher

    constructor (maxAttempts: nat, controlled: bool, world: World, registry: ModelRegistry, primaryBackend: Backend,
                 fallbackBackend: Backend)
      ensures Wired() && this.world == world && this.registry == registry
      ensures this.maxAttempts == maxAttempts && this.controlled == controlled
    {
      this.maxAttempts, this.controlled, this.world, this.registry := maxAttempts, controlled, world, registry;
      primary := new StructuredHTTPRouter(primaryBackend, world);
      fallback := new StructuredHTTPRouter(fallbackBackend, world);
      dispatcher := new ProviderDispatcher(registry, world);
    }

    ghost predicate Wired() {
      && primary.world == world && fallback.world == world
      && dispatcher.world == world && dispatcher.registry == registry
    }

    /** What requests are served with; the registry does not change while they are. */
    function Site(): Site
      requires registry.Valid()
      reads registry
    {
      Lifecycle.Site(maxAttempts, controlled, registry.ListProviders(), primary.backend, fallback.backend)
    }

    /** The store is sound, and the request's copy of its record is its own. */
    ghost predicate Owns(s: Session, state: ConversationState)
      reads world.store, world.store.conversations.Values, state
    {
      && world.store.Valid() && world.store.AllGood() && !state.stored
      && s.Key() in world.store.Contents() && state.conversationId == s.Key().conversationId && Good(state.Value())
    }

    /** And, for a request working alone on its conversation, the copy is what the store holds. */
    ghost predicate Holds(s: Session, state: ConversationState)
      reads world.store, world.store.conversations.Values, state
    {
      Owns(s, state) && (s.alone ==> world.RecordAt(s.Key()) == Some(state.Value()))
    }

    /** The copy is what the store holds. */
    ghost predicate Stored(s: Session, state: ConversationState)
      reads world.store, world.store.conversations.Values, state
    {
      world.RecordAt(s.Key()) == Some(state.Value())
    }

    /** What holds whenever this request is between atomic blocks. */
    ghost predicate Serving(s: Session, state: ConversationState)
      reads world, world.store, world.store.conversations.Values, world.circuits, world.circuits.circuits.Values,
            registry, state
    {
      Wired() && registry.Valid() && Holds(s, state) && world.Idle(s.request, s.Key())
    }

    /** The circuits have noted this request's attempts, each as it was recorded, and nothing else in its name. */
    ghost predicate Booked(s: Session, capture: Capture)
      requires registry.Valid()
      reads world.circuits, registry, capture`routerAttempts, capture`providerAttempts
    {
      world.circuits.Account(s.request)
        == Noted(capture.began, Site(), s, capture.routerAttempts, capture.providerAttempts)
    }

    /** The circuit of `b` would refuse a request now. */
    ghost predicate Open(b: Backend)
      requires world.circuits.Ready()
      reads world.circuits, world.circuits.circuits.Values
    {
      !Admits(world.circuits.cfg, world.circuits.circuits[b].Value(), world.circuits.now)
    }

    // ---- Writing the record -------------------------------------------------------

    /** `_prepare_retry`: unless the turn is already over, excludes the last answerer and counts an attempt. */
    method PrepareRetry(state: ConversationState, s: Session) returns (stop: bool)
      requires registry.Valid() && Owns(s, state)
      modifies world.store, state
      ensures Owns(s, state)
      ensures if old(TurnOver(registry.ListProviders(), state.Value()))
              then && stop && state.Value() == old(state.Value())
                   && world.store.Contents() == old(world.store.Contents())
              else && Holds(s, state) && state.Value() == Retried(old(state.Value()))
                   && world.store.Contents() == old(world.store.Contents())[s.Key() := state.Value()]
                   && stop == TurnOver(registry.ListProviders(), state.Value())
    {
      hide ConversationStateManager.Contents, Retried, AvailableForRouter;
      stop := TurnOver(registry.ListProviders(), state.Value());
      if !stop {
        CountRetry(state, s);
        stop := TurnOver(registry.ListProviders(), state.Value());
      }
    }

    /**
     The two writes of one retry. Between them the stored record may have one exclusion too many
     (`GoodBetweenWritesIff`); no await separates them.
     */
    method CountRetry(state: ConversationState, s: Session)
      requires Owns(s, state) && state.attemptCount < state.maxAttempts
      modifies world.store, state
      ensures Holds(s, state) && state.Value() == Retried(old(state.Value()))
      ensures world.store.Contents() == old(world.store.Contents())[s.Key() := state.Value()]
    {
      ghost var before, r := world.store.Contents(), state.Value();
      RetriedGood(r);
      OwnedMeans(s, state);
      hide *;
      ExcludeLast(state, s);
      IncrementOwn(state, s);
      CountedMeans(r, state.Value());
      LastWriteWins(before, s.Key(), Excluding(r), state.Value());
      GoodAfter(before, s.Key(), state.Value());
      HeldMeans(s, state);
    }

    method ExcludeLast(state: ConversationState, s: Session)
      requires world.store.Valid() && !state.stored
      requires s.Key() in world.store.Contents() && state.conversationId == s.Key().conversationId
      modifies world.store, state
      ensures world.store.Valid() && state.Value() == Excluding(old(state.Value()))
      ensures world.store.Contents() == old(world.store.Contents())
              || world.store.Contents() == old(world.store.Contents())[s.Key() := state.Value()]
    {
      hide ConversationStateManager.Contents;
      if state.lastProvider.Some? && state.lastProvider.value != "" {
        var known := world.store.ExcludeProvider(state, state.lastProvider.value, s.Key().tenantId);
      }
    }

    method IncrementOwn(state: ConversationState, s: Session)
      requires world.store.Valid() && !state.stored
      requires s.Key() in world.store.Contents() && state.conversationId == s.Key().conversationId
      modifies world.store, state
      ensures world.store.Valid()
      ensures state.Value() == old(state.Value()).(attemptCount := old(state.Value()).attemptCount + 1)
      ensures world.store.Contents() == old(world.store.Contents())[s.Key() := state.Value()]
    {
      hide ConversationStateManager.Contents;
      var known := world.store.IncrementAttempt(state, s.Key().tenantId);
    }

    lemma OwnedMeans(s: Session, state: ConversationState)
      requires Owns(s, state)
      ensures world.store.Valid() && world.store.AllGood() && GoodRecords(world.store.Contents()) && !state.stored
      ensures s.Key() in world.store.Contents() && state.conversationId == s.Key().conversationId && Good(state.Value())
    {
    }

    lemma HeldMeans(s: Session, state: ConversationState)
      requires world.store.Valid() && !state.stored && state.conversationId == s.Key().conversationId
               && Good(state.Value())
      requires GoodRecords(world.store.Contents())
      requires s.Key() in world.store.Contents() && world.store.Contents()[s.Key()] == state.Value()
      ensures Holds(s, state)
    {
    }

    lemma StoredMeans(s: Session, state: ConversationState)
      ensures Stored(s, state) <==>
              s.Key() in world.store.Contents() && world.store.Contents()[s.Key()] == state.Value()
      ensures Stored(s, state) ==> RecordIn(world.store.Contents(), s.Key()) == Some(state.Value())
      ensures Holds(s, state) && s.alone ==> Stored(s, state)
    {
    }

    // ---- The provider loop --------------------------------------------------------

    lemma ServingMeans(s: Session, state: ConversationState)
      requires Serving(s, state)
      ensures Wired() && registry.Valid() && Holds(s, state) && Owns(s, state) && world.Idle(s.request, s.Key())
      ensures world.circuits.Ready() && dispatcher.world == world && dispatcher.registry == registry
    {
    }

    /** After a wait, as far as others are relied on, and after a block that leaves the records alone. */
    lemma StillServing(s: Session, state: ConversationState, r: Record, before: map<Key, Record>)
      requires Wired() && registry.Valid() && world.Idle(s.request, s.Key()) && state.Value() == r
      requires !state.stored && state.conversationId == s.Key().conversationId && Good(r)
      requires s.Key() in before && RecordsRelied(before, world.store.Contents(), s.Key(), s.alone)
      requires s.alone ==> RecordIn(before, s.Key()) == Some(r)
      ensures Serving(s, state)
    {
    }

    lemma HoldsMeans(s: Session, state: ConversationState)
      requires Holds(s, state)
      ensures !state.stored && state.conversationId == s.Key().conversationId && Good(state.Value())
      ensures s.Key() in world.store.Contents()
      ensures s.alone ==> RecordIn(world.store.Contents(), s.Key()) == Some(state.Value())
      ensures world.store.Valid() && world.store.AllGood() && GoodRecords(world.store.Contents())
    {
    }

    /** One dispatch, with every other request free to run while it waits. */
    method Try(provider: ProviderConfig, generate: GenerateReply, ghost id: CallId, state: ConversationState,
               s: Session) returns (reply: DispatchReply)
      requires Serving(s, state) && Find(registry.ListProviders(), provider.id) == Some(provider)
               && id.request == s.request
      modifies world, world.store, world.circuits, world.circuits.circuits.Values
      ensures Serving(s, state)
      ensures reply == if old(Open(provider.backend)) then CircuitOpen else DispatchReplyOf(generate)
      ensures world.circuits.Account(s.request)
              == Added(old(world.circuits.Account(s.request)), provider.backend,
                       if old(Open(provider.backend)) then RefusedMarks(id)
                       else MadeMarks(id, DispatchOutcome(generate)))
    {
      hide *;
      ghost var r, records := state.Value(), world.store.Contents();
      ServingMeans(s, state);
      HoldsMeans(s, state);
      OpenMeans(provider.backend);
      ghost var admitted;
      reply, admitted := dispatcher.Dispatch(provider.id, generate, id, s.Key(), s.alone);
      StillServing(s, state, r, records);
    }

    lemma OpenMeans(b: Backend)
      requires world.circuits.Ready()
      ensures b in world.circuits.circuits
      ensures Open(b) <==> !Admits(world.circuits.cfg, world.circuits.circuits[b].Value(), world.circuits.now)
    {
    }

    /** The answer is committed: the copy, and with it the whole stored record. */
    method Commit(state: ConversationState, response: string, providerId: string, s: Session)
      requires Owns(s, state)
      modifies world.store, state
      ensures Holds(s, state)
      ensures state.Value() == Committed(old(state.Value()), response, providerId)
      ensures world.store.Contents() == old(world.store.Contents())[s.Key() := state.Value()]
    {
      ghost var records, r := world.store.Contents(), state.Value();
      OwnedMeans(s, state);
      hide ConversationStateManager.Contents, GoodRecords, Owns, Holds;
      state.previousResponse := Some(response);
      state.lastProvider := Some(providerId);
      var known := world.store.Update(state, s.Key().tenantId);
      GoodAfter(records, s.Key(), state.Value());
      HeldMeans(s, state);
    }

    /** A block that wrote the request's own record and did nothing else keeps its guarantee. */
    lemma StillServingAfterWrite(s: Session, state: ConversationState, before: Shared)
      requires Wired() && registry.Valid() && Holds(s, state)
      requires world.circuits.Valid() && world.circuits.NothingInFlight(s.request)
      requires Guarantee(world.seen, before, s.request, s.Key())
      requires world.circuits.systems == before.systems
               && world.store.Contents() == before.records[s.Key() := state.Value()]
      ensures Serving(s, state)
    {
      hide Guarantee;
      OwnWriteGuaranteed(world.seen, before, world.Snapshot(), s.request, s.Key(), state.Value());
    }

    /** After a response: the gateway, the last look at the clock, and the commit. */
    method Deliver(state: ConversationState, generated: string, providerId: string, index: nat, s: Session)
      returns (r: Reply)
      requires Serving(s, state) && s.script.generate(index) == Generated(generated)
      modifies world.store, state
      ensures Serving(s, state) && DeliveredAs(s, index, r) && (r.Ok? ==> Stored(s, state))
      ensures state.Value()
              == if r.Ok? then Committed(old(state.Value()), r.value.response, providerId) else old(state.Value())
    {
      hide *;
      var clean := s.script.gateway(generated);
      if clean.None? {
        r := Err(GatewayFailure);
      } else if s.script.late(BeforeCommit(index)) {
        r := Err(DeadlineExceeded);
      } else {
        ghost var before := world.Snapshot();
        ServingMeans(s, state);
        world.IdleMeans(s.request, s.Key());
        Commit(state, clean.value, providerId, s);
        StoredMeans(s, state);
        StillServingAfterWrite(s, state, before);
        r := Ok(s.Answer(clean.value));
      }
      DeliveredMeans(s, index, r, generated);
    }

    lemma DeliveredMeans(s: Session, index: nat, r: Reply, generated: string)
      requires s.script.generate(index) == Generated(generated)
      requires r == match s.script.gateway(generated)
                    case None => Err(GatewayFailure)
                    case Some(clean) =>
                      if s.script.late(BeforeCommit(index)) then Err(DeadlineExceeded) else Ok(s.Answer(clean))
      ensures DeliveredAs(s, index, r)
      ensures r.Ok? ==> Some(r.value.response) == s.script.gateway(generated)
    {
    }

    /** Adds one finished attempt at the head of what is left of the chain. */
    method Record(candidate: ProviderConfig, outcome: AttemptOutcome, capture: Capture, ghost blocked: set<Backend>,
                  ghost chain: seq<ProviderConfig>, s: Session)
      requires FollowsChain(blocked, chain, capture.providerAttempts, s)
      requires |capture.providerAttempts| < |chain| && candidate == chain[|capture.providerAttempts|]
      requires Extends(blocked, chain, capture.providerAttempts,
                       ProviderAttempt(candidate.id, candidate.backend, outcome), s)
      modifies capture`providerAttempts
      ensures capture.providerAttempts
              == old(capture.providerAttempts) + [ProviderAttempt(candidate.id, candidate.backend, outcome)]
      ensures FollowsChain(blocked, chain, capture.providerAttempts, s)
      ensures BlockedAfter(blocked, capture.providerAttempts)
              == BlockedAfter(blocked, old(capture.providerAttempts))
                 + if outcome == AttemptFailed(true) then {candidate.backend} else {}
    {
      hide *;
      var attempt := ProviderAttempt(candidate.id, candidate.backend, outcome);
      FollowsChainAppend(blocked, chain, capture.providerAttempts, attempt, s);
      BlockedAppend(blocked, capture.providerAttempts, attempt);
      capture.providerAttempts := capture.providerAttempts + [attempt];
    }

    /** Every candidate after a cancelled one is recorded as skipped, if the deadline cancelled it. */
    method SkipPending(chain: seq<ProviderConfig>, index: nat, capture: Capture, ghost blocked: set<Backend>,
                       s: Session)
      requires index < |chain| && |capture.providerAttempts| == index + 1
      requires FollowsChain(blocked, chain, capture.providerAttempts, s) && AllPassed(capture.providerAttempts[..index])
      requires capture.providerAttempts[index].outcome.AttemptCancelled?
      modifies capture`providerAttempts
      ensures FollowsChain(blocked, chain, capture.providerAttempts, s)
      ensures CancelledAt(index, chain, capture.providerAttempts, s.script.late(OnCancelled(index)))
      ensures old(capture.providerAttempts) <= capture.providerAttempts
      ensures forall i :: index < i < |capture.providerAttempts|
                ==> capture.providerAttempts[i].outcome.SkippedDeadline?
    {
      hide *;
      ghost var before := capture.providerAttempts;
      if s.script.late(OnCancelled(index)) {
        for k := index + 1 to |chain|
          invariant |capture.providerAttempts| == k && before <= capture.providerAttempts
          invariant FollowsChain(blocked, chain, capture.providerAttempts, s)
          invariant forall i :: index < i < k ==> capture.providerAttempts[i].outcome.SkippedDeadline?
        {
          ExtendsBySkip(blocked, chain, capture.providerAttempts, s);
          Record(chain[k], SkippedDeadline, capture, blocked, chain, s);
        }
      }
      CancelledIf(index, chain, before, capture.providerAttempts, s.script.late(OnCancelled(index)));
    }

    lemma ExtendsBySkip(blocked: set<Backend>, chain: seq<ProviderConfig>, attempts: seq<ProviderAttempt>, s: Session)
      requires |attempts| < |chain|
      ensures Extends(blocked, chain, attempts,
                      ProviderAttempt(chain[|attempts|].id, chain[|attempts|].backend, SkippedDeadline), s)
    {
    }

    lemma CancelledIf(c: nat, chain: seq<ProviderConfig>, before: seq<ProviderAttempt>, attempts: seq<ProviderAttempt>,
                      deadline: bool)
      requires |before| == c + 1 && before[c].outcome.AttemptCancelled? && AllPassed(before[..c]) && before <= attempts
      requires forall i :: c < i < |attempts| ==> attempts[i].outcome.SkippedDeadline?
      requires |attempts| == if deadline then |chain| else c + 1
      ensures CancelledAt(c, chain, attempts, deadline)
    {
      assert attempts[..c] == before[..c];
    }

    /** The account is in order again after an attempt that noted what it should. */
    lemma StillBooked(s: Session, capture: Capture, account: map<Backend, seq<Mark>>, attempts: seq<ProviderAttempt>,
                      a: ProviderAttempt)
      requires registry.Valid() && account == Noted(capture.began, Site(), s, capture.routerAttempts, attempts)
      requires capture.providerAttempts == attempts + [a]
      requires world.circuits.Account(s.request)
               == Added(account, a.backend, AttemptMarks(s, |capture.routerAttempts|, |attempts|, a))
      ensures Booked(s, capture)
    {
      AttemptNoted(capture.began, Site(), s, capture.routerAttempts, attempts, a);
    }

    /** So it is after candidates that were only skipped. */
    lemma BookedAfterSkips(s: Session, capture: Capture, account: map<Backend, seq<Mark>>,
                           attempts: seq<ProviderAttempt>)
      requires registry.Valid() && account == Noted(capture.began, Site(), s, capture.routerAttempts, attempts)
      requires world.circuits.Account(s.request) == account && attempts <= capture.providerAttempts
      requires forall i :: |attempts| <= i < |capture.providerAttempts| ==> !Dispatched(capture.providerAttempts[i])
      ensures Booked(s, capture)
    {
      SkippedNoted(capture.began, Site(), s, capture.routerAttempts, attempts, capture.providerAttempts);
    }

    lemma BookedMeans(s: Session, capture: Capture)
      requires registry.Valid() && Booked(s, capture)
      ensures world.circuits.Account(s.request)
              == Noted(capture.began, Site(), s, capture.routerAttempts, capture.providerAttempts)
    {
    }

    /** A candidate on a backend that refused the request's credentials is passed over. */
    method PassOver(chain: seq<ProviderConfig>, index: nat, capture: Capture, ghost blocked: set<Backend>, s: Session)
      requires registry.Valid() && Booked(s, capture) && index < |chain| && |capture.providerAttempts| == index
      requires FollowsChain(blocked, chain, capture.providerAttempts, s) && AllPassed(capture.providerAttempts)
      requires chain[index].backend in BlockedAfter(blocked, capture.providerAttempts)
               && !s.script.late(BeforeCandidate(index))
      modifies capture`providerAttempts
      ensures Booked(s, capture) && FollowsChain(blocked, chain, capture.providerAttempts, s)
              && AllPassed(capture.providerAttempts)
      ensures |capture.providerAttempts| == index + 1 && capture.providerAttempts[index].outcome == SkippedAuth
      ensures BlockedAfter(blocked, capture.providerAttempts) == BlockedAfter(blocked, old(capture.providerAttempts))
    {
      hide Booked, Noted, FollowsChain, BlockedAfter;
      ghost var attempts, account := capture.providerAttempts, world.circuits.Account(s.request);
      BookedMeans(s, capture);
      Record(chain[index], SkippedAuth, capture, blocked, chain, s);
      BookedAfterSkips(s, capture, account, attempts);
    }

    /** A candidate is dispatched to, and the attempt recorded as the reply makes it. */
    method Attempt(chain: seq<ProviderConfig>, index: nat, state: ConversationState, capture: Capture,
                   ghost blocked: set<Backend>, s: Session)
      returns (reply: DispatchReply)
      requires Serving(s, state) && Booked(s, capture) && index < |chain| && |capture.providerAttempts| == index
      requires Find(registry.ListProviders(), chain[index].id) == Some(chain[index])
               && !s.script.late(BeforeCandidate(index))
      requires FollowsChain(blocked, chain, capture.providerAttempts, s)
      requires chain[index].backend !in BlockedAfter(blocked, capture.providerAttempts)
      modifies world, world.store, world.circuits, world.circuits.circuits.Values, capture`providerAttempts
      ensures Serving(s, state) && Booked(s, capture) && FollowsChain(blocked, chain, capture.providerAttempts, s)
      ensures reply
              == if old(Open(chain[index].backend)) then CircuitOpen else DispatchReplyOf(s.script.generate(index))
      ensures capture.providerAttempts
              == old(capture.providerAttempts)
                 + [ProviderAttempt(chain[index].id, chain[index].backend, AttemptOutcomeOf(reply))]
      ensures BlockedAfter(blocked, capture.providerAttempts) == BlockedAfter(blocked, old(capture.providerAttempts))
              + if AttemptOutcomeOf(reply) == AttemptFailed(true) then {chain[index].backend} else {}
    {
      hide *;
      ghost var attempts, account := capture.providerAttempts, world.circuits.Account(s.request);
      ServingMeans(s, state);
      BookedMeans(s, capture);
      OpenMeans(chain[index].backend);
      ghost var refused := Open(chain[index].backend);
      reply := Try(chain[index], s.script.generate(index), CallId(s.request, |capture.routerAttempts| + index), state,
                   s);
      ghost var a := ProviderAttempt(chain[index].id, chain[index].backend, AttemptOutcomeOf(reply));
      ServingMeans(s, state);
      DispatchMarks(s, |capture.routerAttempts|, index, a, refused);
      ExtendsByDispatch(blocked, chain, attempts, a, s);
      Record(chain[index], AttemptOutcomeOf(reply), capture, blocked, chain, s);
      StillBooked(s, capture, account, attempts, a);
    }

    lemma ExtendsByDispatch(blocked: set<Backend>, chain: seq<ProviderConfig>, attempts: seq<ProviderAttempt>,
                            a: ProviderAttempt, s: Session)
      requires |attempts| < |chain| && a.providerId == chain[|attempts|].id && a.backend == chain[|attempts|].backend
      requires Dispatched(a) && AttemptGenuine(s.script.generate(|attempts|), a.outcome)
      requires a.backend !in BlockedAfter(blocked, attempts) && !s.script.late(BeforeCandidate(|attempts|))
      ensures Extends(blocked, chain, attempts, a, s)
    {
    }

    /** What one dispatched attempt leads to. */
    lemma AttemptLeads(attempts: seq<ProviderAttempt>, a: ProviderAttempt, reply: DispatchReply,
                       generate: GenerateReply)
      requires AllPassed(attempts) && a.outcome == AttemptOutcomeOf(reply)
      requires reply == CircuitOpen || reply == DispatchReplyOf(generate)
      ensures match reply
              case Responded(response) => RespondedLast(attempts + [a]) && generate == Generated(response)
              case Unavailable(blocks) => AllPassed(attempts + [a]) && a.outcome == AttemptFailed(blocks)
              case CircuitOpen => AllPassed(attempts + [a])
              case Cancelled => a.outcome.AttemptCancelled?
              case Unexpected => CrashedLast(attempts + [a])
      ensures a.outcome == AttemptFailed(true) <==> reply == Unavailable(true)
      ensures (attempts + [a])[..|attempts|] == attempts
    {
    }

    /** One turn of the provider loop. */
    method Visit(chain: seq<ProviderConfig>, index: nat, state: ConversationState, capture: Capture,
                 ghost blockedBefore: set<Backend>, blocked: set<Backend>, s: Session)
      returns (visit: Visited, blockedNow: set<Backend>)
      requires Serving(s, state) && Booked(s, capture) && index < |chain| && |capture.providerAttempts| == index
      requires Find(registry.ListProviders(), chain[index].id) == Some(chain[index])
               && !s.script.late(BeforeCandidate(index))
      requires FollowsChain(blockedBefore, chain, capture.providerAttempts, s) && AllPassed(capture.providerAttempts)
      requires blocked == BlockedAfter(blockedBefore, capture.providerAttempts)
      modifies world, world.store, world.circuits, world.circuits.circuits.Values, capture`providerAttempts
      ensures Serving(s, state) && Booked(s, capture) && FollowsChain(blockedBefore, chain, capture.providerAttempts, s)
      ensures match visit
              case GoOn =>
                && |capture.providerAttempts| == index + 1 && AllPassed(capture.providerAttempts)
                && blockedNow == BlockedAfter(blockedBefore, capture.providerAttempts)
              case GotResponse(response) =>
                && |capture.providerAttempts| == index + 1 && RespondedLast(capture.providerAttempts)
                && s.script.generate(index) == Generated(response)
              case WasCancelled => CancelledAt(index, chain, capture.providerAttempts,
                                               s.script.late(OnCancelled(index)))
              case HasCrashed => CrashedLast(capture.providerAttempts)
      ensures |capture.providerAttempts| > index
      ensures capture.providerAttempts[index].outcome ==
                if chain[index].backend in blocked then SkippedAuth
                else if old(Open(chain[index].backend)) then AttemptRefused
                else AttemptOutcomeOf(DispatchReplyOf(s.script.generate(index)))
    {
      hide *;
      ServingMeans(s, state);
      if chain[index].backend in blocked {
        PassOver(chain, index, capture, blockedBefore, s);
        visit, blockedNow := GoOn, blocked;
      } else {
        ghost var attempts := capture.providerAttempts;
        var reply := Attempt(chain, index, state, capture, blockedBefore, s);
        ServingMeans(s, state);
        RefusalRecorded();
        AttemptLeads(attempts, capture.providerAttempts[index], reply, s.script.generate(index));
        visit := match reply
          case Responded(response) => GotResponse(response)
          case Cancelled => WasCancelled
          case Unexpected => HasCrashed
          case _ => GoOn;
        blockedNow := if reply == Unavailable(true) then blocked + {chain[index].backend} else blocked;
        if reply.Cancelled? {
          ghost var upTo := capture.providerAttempts;
          BookedMeans(s, capture);
          SkipPending(chain, index, capture, blockedBefore, s);
          SkippedAreNoCalls(capture.providerAttempts, index + 1);
          BookedAfterSkips(s, capture, world.circuits.Account(s.request), upTo);
        }
      }
    }

    lemma RefusalRecorded()
      ensures AttemptOutcomeOf(CircuitOpen) == AttemptRefused
    {
    }

    lemma SkippedAreNoCalls(attempts: seq<ProviderAttempt>, n: nat)
      requires forall i :: n <= i < |attempts| ==> attempts[i].outcome.SkippedDeadline?
      ensures forall i :: n <= i < |attempts| ==> !Dispatched(attempts[i])
    {
    }

    /**
     `_execute_with_fallback`: the candidates in order, each at most once, skipping blocked
     backends, until one answers or the loop ends otherwise. Only an answer writes the record.
     */
    method ExecuteWithFallback(chain: seq<ProviderConfig>, state: ConversationState, capture: Capture,
                               blockedBefore: set<Backend>, s: Session) returns (r: Reply)
      requires Serving(s, state) && Booked(s, capture) && capture.providerAttempts == []
               && capture.selectedProvider == None
      requires forall i :: 0 <= i < |chain| ==> Find(registry.ListProviders(), chain[i].id) == Some(chain[i])
      modifies world, world.store, world.circuits, world.circuits.circuits.Values, state
      modifies capture`providerAttempts, capture`selectedProvider
      ensures Serving(s, state) && Booked(s, capture)
      ensures FollowsChain(blockedBefore, chain, capture.providerAttempts, s)
      ensures LoopEnded(r, chain, capture.providerAttempts, s)
      ensures capture.selectedProvider == SelectedBy(capture.providerAttempts)
      ensures r.Ok? ==> Answered(r) && capture.selectedProvider.Some? && Stored(s, state)
      ensures state.Value()
              == if r.Ok? then Committed(old(state.Value()), r.value.response, capture.selectedProvider.value)
                 else old(state.Value())
    {
      hide *;
      NothingAttempted(blockedBefore, chain, s);
      ServingMeans(s, state);
      var blocked := blockedBefore;
      var index := 0;
      r := Err(ProviderFailure);
      while index < |chain|
        invariant 0 <= index <= |chain| && |capture.providerAttempts| == index
        invariant registry.Valid() && Serving(s, state) && Booked(s, capture) && state.Value() == old(state.Value())
        invariant FollowsChain(blockedBefore, chain, capture.providerAttempts, s) && AllPassed(capture.providerAttempts)
        invariant blocked == BlockedAfter(blockedBefore, capture.providerAttempts)
        invariant r == Err(ProviderFailure) && capture.selectedProvider == None
      {
        if s.script.late(BeforeCandidate(index)) {
          r := Err(DeadlineExceeded);
          EndsLate(chain, capture.providerAttempts, s);
          return;
        }
        ServingMeans(s, state);
        var visit;
        visit, blocked := Visit(chain, index, state, capture, blockedBefore, blocked, s);
        if visit.GotResponse? {
          capture.selectedProvider := Some(chain[index].id);
          r := Deliver(state, visit.response, chain[index].id, index, s);
          EndsWithResponse(blockedBefore, chain, capture.providerAttempts, s, r);
          return;
        } else if !visit.GoOn? {
          r := Err(if visit.WasCancelled? then RequestCancelled else Internal);
          EndsAborted(chain, capture.providerAttempts, s, index, visit.WasCancelled?);
          return;
        }
        index := index + 1;
      }
      EndsExhausted(chain, capture.providerAttempts, s);
    }

    // ---- The router ladder --------------------------------------------------------

    /** Every recorded router attempt is what replies and validator make it, and every POST and call accounted for. */
    ghost predicate Recorded(s: Session, capture: Capture)
      requires registry.Valid()
      reads world.circuits, registry, capture`routerAttempts, capture`providerAttempts, capture`posts
    {
      && Booked(s, capture) && capture.providerAttempts == []
      && RoutersGenuine(Site(), s, capture.routerAttempts)
      && capture.posts == PostsSent(Site(), s, capture.routerAttempts)
    }

    lemma RecordedMeans(s: Session, capture: Capture)
      requires registry.Valid()
      ensures Recorded(s, capture) <==>
              && world.circuits.Account(s.request)
                 == Noted(capture.began, Site(), s, capture.routerAttempts, capture.providerAttempts)
              && capture.providerAttempts == []
              && RoutersGenuine(Site(), s, capture.routerAttempts)
              && capture.posts == PostsSent(Site(), s, capture.routerAttempts)
    {
    }

    lemma SiteMeans()
      requires registry.Valid()
      ensures Site().primary == primary.backend && Site().fallback == fallback.backend
      ensures Site().reg == registry.ListProviders() && WellListed(Site().reg)
      ensures Site().Tier(true) == primary.backend && Site().Tier(false) == fallback.backend
    {
    }

    /** One `decide`, with every other request free to run while it waits. */
    method Ask(router: StructuredHTTPRouter, first: PostReply, repair: PostReply, ghost id: CallId,
               state: ConversationState, s: Session) returns (reply: RouterReply, posts: nat)
      requires Serving(s, state) && router.world == world && id.request == s.request
      modifies world, world.store, world.circuits, world.circuits.circuits.Values
      ensures Serving(s, state)
      ensures reply
              == if old(Open(router.backend)) then RouterRefused else VerdictOf(router.backend, first, repair).reply
      ensures posts == if old(Open(router.backend)) then 0 else VerdictOf(router.backend, first, repair).posts
      ensures world.circuits.Account(s.request)
              == Added(old(world.circuits.Account(s.request)), router.backend,
                       if old(Open(router.backend)) then RefusedMarks(id)
                       else MadeMarks(id, VerdictOf(router.backend, first, repair).outcome))
    {
      hide *;
      ghost var r, records := state.Value(), world.store.Contents();
      ServingMeans(s, state);
      HoldsMeans(s, state);
      OpenMeans(router.backend);
      ghost var admitted;
      reply, posts, admitted := router.Decide(first, repair, id, s.Key(), s.alone);
      StillServing(s, state, r, records);
    }

    /** One tier: a decision that the validator rejects is as good as none. */
    method Tier(primaryTier: bool, round: nat, groups: seq<TaskGroup>, state: ConversationState, capture: Capture,
                s: Session) returns (outcome: TierOutcome)
      requires Serving(s, state) && Recorded(s, capture)
      modifies world, world.store, world.circuits, world.circuits.circuits.Values, capture`routerAttempts, capture`posts
      ensures Serving(s, state) && Recorded(s, capture)
      ensures capture.routerAttempts
              == old(capture.routerAttempts) + [RouterAttempt(round, primaryTier, groups, outcome)]
      ensures outcome == if old(Open(Site().Tier(primaryTier))) then TierRefused
                         else TierOutcomeOf(VerdictAt(Site(), s, old(|capture.routerAttempts|), primaryTier).reply,
                                            groups, s.inbound.chat)
    {
      hide *;
      ServingMeans(s, state);
      ghost var before, account, site := capture.routerAttempts, world.circuits.Account(s.request), Site();
      var i := |capture.routerAttempts|;
      RecordedMeans(s, capture);
      SiteMeans();
      var router := if primaryTier then primary else fallback;
      OpenMeans(router.backend);
      ghost var refused := Open(router.backend);
      VerdictMeans(site, s, i, primaryTier);
      var reply, posts := Ask(router, s.script.firstPost(i), s.script.repairPost(i), CallId(s.request, i), state, s);
      ServingMeans(s, state);
      capture.posts := capture.posts + posts;
      outcome := TierOutcomeOf(reply, groups, s.inbound.chat);
      var a := RouterAttempt(round, primaryTier, groups, outcome);
      capture.routerAttempts := capture.routerAttempts + [a];
      TierMarks(site, s, i, a, reply);
      RouterRecorded(site, s, before, a, reply, posts);
      RouterNoted(capture.began, site, s, before, a);
      RecordedMeans(s, capture);
    }

    lemma VerdictMeans(site: Site, s: Session, i: nat, primaryTier: bool)
      ensures VerdictAt(site, s, i, primaryTier)
              == VerdictOf(site.Tier(primaryTier), s.script.firstPost(i), s.script.repairPost(i))
    {
    }

    /** `_decision_from_ladder`: the fallback tier is asked exactly when the primary one gave up. */
    method DecideByLadder(round: nat, groups: seq<TaskGroup>, state: ConversationState, capture: Capture, s: Session)
      returns (r: Result<RouterDecision, RequestError>, blocked: set<Backend>)
      requires Serving(s, state) && Recorded(s, capture)
      modifies world, world.store, world.circuits, world.circuits.circuits.Values, capture`routerAttempts, capture`posts
      ensures Serving(s, state) && Recorded(s, capture)
      ensures old(capture.routerAttempts) <= capture.routerAttempts
      ensures LadderClimbed(round, groups, capture.routerAttempts[old(|capture.routerAttempts|)..], r)
      ensures blocked == BlockedByRouters(capture.routerAttempts[old(|capture.routerAttempts|)..])
    {
      hide *;
      ghost var n := |capture.routerAttempts|;
      ServingMeans(s, state);
      var outcome := Tier(true, round, groups, state, capture, s);
      ghost var first := outcome;
      blocked := BlockedBy(outcome);
      OneTier(round, groups, first, capture.routerAttempts[n..]);
      if TierGaveUp(outcome) {
        ServingMeans(s, state);
        outcome := Tier(false, round, groups, state, capture, s);
        blocked := blocked + BlockedBy(outcome);
        TwoTiers(round, groups, first, outcome, capture.routerAttempts[n..]);
      }
      r := LadderSays(outcome);
    }

    /** What `_route` is told of a ladder that ended with this outcome. */
    function LadderSays(outcome: TierOutcome): Result<RouterDecision, RequestError> {
      match outcome
      case TierSucceeded(d) => Ok(d)
      case TierCancelled => Err(RequestCancelled)
      case _ => Err(RouterFailure)
    }

    lemma OneTier(round: nat, groups: seq<TaskGroup>, outcome: TierOutcome, climbed: seq<RouterAttempt>)
      requires climbed == [RouterAttempt(round, true, groups, outcome)]
      ensures !TierGaveUp(outcome) ==> LadderClimbed(round, groups, climbed, LadderSays(outcome))
      ensures BlockedByRouters(climbed) == BlockedBy(outcome)
    {
      assert climbed[..0] == [];
    }

    lemma TwoTiers(round: nat, groups: seq<TaskGroup>, first: TierOutcome, second: TierOutcome,
                   climbed: seq<RouterAttempt>)
      requires climbed == [RouterAttempt(round, true, groups, first), RouterAttempt(round, false, groups, second)]
      requires TierGaveUp(first)
      ensures LadderClimbed(round, groups, climbed, LadderSays(second))
      ensures BlockedByRouters(climbed) == BlockedBy(first) + BlockedBy(second)
    {
      assert climbed[..1] == [RouterAttempt(round, true, groups, first)];
      OneTier(round, groups, first, climbed[..1]);
    }

    // ---- Rounds -------------------------------------------------------------------

    /** `_resolve_candidates`, with the first candidate set of a request entered in the audit log. */
    method ResolveCandidates(round: nat, excluded: seq<string>, capture: Capture, s: Session)
      returns (allowed: Result<seq<string>, RequestError>)
      requires registry.Valid()
      modifies capture`audited
      ensures allowed == AllowedIds(Site(), s, round, excluded)
      ensures AuditStep(Site(), s, round, excluded, old(capture.audited), capture.audited)
      ensures Site().Governs(s) && allowed.Ok? ==> capture.audited != []
    {
      var reg, view := registry.ListProviders(), s.script.plane(round);
      if !controlled || s.inbound.tenant.None? {
        return Ok(AvailableForRouter(reg, excluded));
      }
      if view.policy.None? {
        return Err(PolicyNotFound);
      }
      var c := Resolve(reg, view.governance, view.policy.value, s.inbound.context, excluded);
      if capture.audited == [] {
        capture.audited := [PolicyAuditReference(s.request, s.Key().tenantId, c.policy.policyId, c.policy.version,
                                                 c.governance.policyId, c.governance.version, c.providers,
                                                 c.exclusions, c.rankings)];
      }
      allowed := Ok(c.providers);
    }

    lemma GroupsMean(site: Site, s: Session, round: nat, excluded: seq<string>, ids: seq<string>)
      requires AllowedIds(site, s, round, excluded) == Ok(ids)
      ensures GroupsOf(site, s, round, excluded) == AvailableTaskGroups(site.reg, Some(ids), s.inbound.chat.hasImage)
    {
    }

    /** Candidates, groups and a validated decision for one round; nothing here touches the record. */
    method Consult(state: ConversationState, capture: Capture, blocked: set<Backend>, s: Session)
      returns (d: Result<RouterDecision, RequestError>, allowed: seq<string>, blockedNow: set<Backend>)
      requires Serving(s, state) && Recorded(s, capture) && blocked == BlockedByRouters(capture.routerAttempts)
      modifies world, world.store, world.circuits, world.circuits.circuits.Values
      modifies capture`routerAttempts, capture`posts, capture`rounds, capture`audited
      ensures Serving(s, state) && Recorded(s, capture) && blockedNow == BlockedByRouters(capture.routerAttempts)
      ensures RoundTaken(Site(), s, old(state.Value()), old(capture.Ladder()), capture.Ladder(), d)
      ensures d.Ok? ==>
                && AllowedIds(Site(), s, old(capture.rounds), state.excludedProviders) == Ok(allowed)
                && Accepted(Site(), s, old(capture.rounds), state.excludedProviders, d.value)
                && (Site().Governs(s) ==> capture.audited != [])
    {
      hide *;
      ghost var l, x, n := capture.Ladder(), state.Value(), |capture.routerAttempts|;
      var round := capture.rounds;
      LadderMeans(capture);
      ServingMeans(s, state);
      RecordedMeans(s, capture);
      SiteMeans();
      ValueExcludes(state);
      ghost var site := Site();
      capture.rounds := round + 1;
      var resolved := ResolveCandidates(round, state.excludedProviders, capture, s);
      RecordedMeans(s, capture);
      allowed, blockedNow := [], blocked;
      if resolved.Err? || resolved.value == [] {
        d := Err(if resolved.Err? then resolved.error else GovernanceDenied);
      } else {
        allowed := resolved.value;
        var groups := AvailableTaskGroups(registry.ListProviders(), Some(allowed), s.inbound.chat.hasImage);
        GroupsMean(site, s, round, x.excludedProviders, allowed);
        var newlyBlocked;
        ghost var before := capture.routerAttempts;
        d, newlyBlocked := DecideByLadder(round, groups, state, capture, s);
        ServingMeans(s, state);
        RecordedMeans(s, capture);
        blockedNow := blocked + newlyBlocked;
        RouterBlockedConcat(before, capture.routerAttempts[n..]);
        assert capture.routerAttempts == before + capture.routerAttempts[n..];
        if d.Ok? {
          DecisionAccepted(site, s, round, x.excludedProviders, capture.routerAttempts, n, d.value);
        }
      }
      LadderMeans(capture);
      RoundTakenIf(site, s, x, l, capture.Ladder(), d);
    }

    lemma ValueExcludes(state: ConversationState)
      ensures state.Value().excludedProviders == state.excludedProviders
    {
    }

    lemma LadderMeans(capture: Capture)
      ensures capture.Ladder()
              == Accounting.Ladder(capture.rounds, capture.posts, capture.routerAttempts, capture.audited)
    {
    }

    /** A router's RETRY, in a round whose guard has not fired: the turn may be over with it. */
    method CountedRetry(state: ConversationState, s: Session) returns (stop: bool)
      requires Serving(s, state) && !TurnOver(registry.ListProviders(), state.Value())
      modifies world.store, state
      ensures Serving(s, state) && Stored(s, state) && state.Value() == Retried(old(state.Value()))
      ensures stop == TurnOver(registry.ListProviders(), state.Value())
    {
      hide *;
      ghost var before := world.Snapshot();
      ServingMeans(s, state);
      world.IdleMeans(s.request, s.Key());
      stop := PrepareRetry(state, s);
      StoredMeans(s, state);
      StillServingAfterWrite(s, state, before);
    }

    /** What a step that ends the rounds is good for, on the record `x` as retried by then. */
    ghost predicate Decides(s: Session, x: Conversation.Record, l: Ladder, next: NextStep)
      requires registry.Valid()
      reads registry
    {
      match next
      case Again => MayBegin(l.routers, l.rounds)
      case Finish(r) => EndedEarly(Site(), s, x, l, r)
      case Execute(group, chain) =>
        && l.rounds > 0 && LastDecision(l.routers, l.rounds) == Some(RouterDecision(ANSWER, Some(group)))
        && RoundChain(Site(), s, l.rounds - 1, x.excludedProviders, group, chain)
    }

    /** What a validated decision leads to; only RETRY touches the record, and it always counts. */
    method Act(decision: RouterDecision, allowed: seq<string>, state: ConversationState, s: Session, ghost round: nat)
      returns (next: NextStep)
      requires Serving(s, state) && !TurnOver(registry.ListProviders(), state.Value())
      requires AllowedIds(Site(), s, round, state.excludedProviders) == Ok(allowed)
      requires Accepted(Site(), s, round, state.excludedProviders, decision)
      modifies world.store, state
      ensures Serving(s, state)
      ensures state.Value() == if decision.action == RETRY then Retried(old(state.Value())) else old(state.Value())
      ensures decision.action == RETRY ==> s.inbound.chat.retry && decision == RETRY_DECISION && Stored(s, state)
      ensures match decision.action
              case RETRY =>
                next == if TurnOver(registry.ListProviders(), state.Value()) then Finish(Ok(s.Stopped())) else Again
              case CLARIFY => next == Finish(Ok(s.Clarified())) && decision == RouterDecision(CLARIFY, None)
              case STOP => next == Finish(Ok(s.Stopped())) && decision == RouterDecision(STOP, None)
              case ANSWER =>
                && next.Execute? && decision == RouterDecision(ANSWER, Some(next.group))
                && RoundChain(Site(), s, round, state.excludedProviders, next.group, next.chain)
    {
      hide *;
      ServingMeans(s, state);
      DecisionMeans(Site(), s, round, state.excludedProviders, decision);
      SiteMeans();
      match decision.action {
        case RETRY =>
          var stop := CountedRetry(state, s);
          next := if stop then Finish(Ok(s.Stopped())) else Again;
        case CLARIFY =>
          next := Finish(Ok(s.Clarified()));
        case STOP =>
          next := Finish(Ok(s.Stopped()));
        case ANSWER =>
          var group := decision.taskGroup.value;
          var hasImage := s.inbound.chat.hasImage;
          var chain := CandidatesFor(registry.ListProviders(),
                                     ChainQuery(group, hasImage, state.excludedProviders, Some(allowed)),
                                     s.inbound.tenant.Some?);
          ChainMeans(Site(), s, round, state.excludedProviders, allowed, group, chain);
          next := Execute(group, chain);
      }
    }

    /** One pass of the `while` loop, up to the provider loop if it gets that far. */
    method Round(state: ConversationState, capture: Capture, blocked: set<Backend>, s: Session,
                 ghost start: Conversation.Record) returns (next: NextStep, blockedNow: set<Backend>)
      requires Serving(s, state) && Recorded(s, capture) && blocked == BlockedByRouters(capture.routerAttempts)
      requires Counted(Site(), s, start, capture.Ladder()) && state.Value() == Now(start, capture.Ladder())
      requires MayBegin(capture.routerAttempts, capture.rounds) && Stored(s, state)
      modifies world, world.store, world.circuits, world.circuits.circuits.Values, state
      modifies capture`routerAttempts, capture`posts, capture`rounds, capture`audited
      ensures Serving(s, state) && Recorded(s, capture) && blockedNow == BlockedByRouters(capture.routerAttempts)
      ensures Counted(Site(), s, start, capture.Ladder()) && state.Value() == Now(start, capture.Ladder())
      ensures Decides(s, state.Value(), capture.Ladder(), next)
      ensures capture.Ladder().Retries() == capture.rounds ==> Stored(s, state)
      ensures if old(TurnOver(registry.ListProviders(), state.Value()))
              then next == Finish(Ok(s.Stopped())) && capture.Ladder() == old(capture.Ladder())
              else capture.rounds == old(capture.rounds) + 1
      ensures next.Again? ==>
                && old(state.Value()).attemptCount < state.Value().attemptCount < state.Value().maxAttempts
                && state.Value().maxAttempts == old(state.Value()).maxAttempts
    {
      hide *;
      ServingMeans(s, state);
      SiteMeans();
      LadderMeans(capture);
      ValueExcludes(state);
      ghost var l, x := capture.Ladder(), state.Value();
      if TurnOver(registry.ListProviders(), state.Value()) {
        next, blockedNow := Finish(Ok(s.Stopped())), blocked;
        EndsStopped(Site(), s, x, l);
        FinishDecides(s, x, l, next);
      } else {
        var decision, allowed;
        decision, allowed, blockedNow := Consult(state, capture, blocked, s);
        next := FollowUp(decision, allowed, state, capture, s, start, l);
      }
    }

    /** What a round comes to once its routers have been asked. */
    method FollowUp(decision: Result<RouterDecision, RequestError>, allowed: seq<string>, state: ConversationState,
                    capture: Capture, s: Session, ghost start: Conversation.Record, ghost l: Ladder)
      returns (next: NextStep)
      requires Serving(s, state) && !TurnOver(registry.ListProviders(), state.Value())
      requires Counted(Site(), s, start, l) && state.Value() == Now(start, l) && MayBegin(l.routers, l.rounds)
      requires RoundTaken(Site(), s, state.Value(), l, capture.Ladder(), decision)
      requires decision.Ok? ==>
                 && AllowedIds(Site(), s, l.rounds, state.excludedProviders) == Ok(allowed)
                 && Accepted(Site(), s, l.rounds, state.excludedProviders, decision.value)
                 && (Site().Governs(s) ==> capture.audited != [])
      modifies world.store, state
      ensures Serving(s, state)
      ensures Counted(Site(), s, start, capture.Ladder()) && state.Value() == Now(start, capture.Ladder())
      ensures Decides(s, state.Value(), capture.Ladder(), next) && capture.rounds == l.rounds + 1
      ensures capture.Ladder().Retries() == capture.rounds ==> Stored(s, state)
      ensures next.Again? ==>
                && old(state.Value()).attemptCount < state.Value().attemptCount < state.Value().maxAttempts
                && state.Value().maxAttempts == old(state.Value()).maxAttempts
    {
      hide *;
      ServingMeans(s, state);
      ghost var m, x, site := capture.Ladder(), state.Value(), Site();
      SiteMeans();
      LadderMeans(capture);
      ValueExcludes(state);
      if decision.Ok? {
        DecisionMeans(site, s, l.rounds, x.excludedProviders, decision.value);
      }
      RoundCases(site, s, x, l, m, decision);
      RoundCounted(site, s, start, l, m, decision);
      NowSteps(start, l, m);
      if decision.Err? {
        next := Finish(Err(decision.error));
        EndsWithError(site, s, x, m, decision.error);
      } else {
        next := Act(decision.value, allowed, state, s, l.rounds);
        ServingMeans(s, state);
        ValueExcludes(state);
        ActionEnds(site, s, state.Value(), m, decision.value, next);
      }
      FinishDecides(s, state.Value(), m, next);
    }

    lemma ActionEnds(site: Site, s: Session, x: Conversation.Record, m: Ladder, d: RouterDecision, next: NextStep)
      requires LastDecision(m.routers, m.rounds) == Some(d)
      requires match d.action
               case RETRY =>
                 next == (if TurnOver(site.reg, x) then Finish(Ok(s.Stopped())) else Again) && d == RETRY_DECISION
               case CLARIFY => next == Finish(Ok(s.Clarified())) && d == RouterDecision(CLARIFY, None)
               case STOP => next == Finish(Ok(s.Stopped())) && d == RouterDecision(STOP, None)
               case ANSWER => next.Execute? && d == RouterDecision(ANSWER, Some(next.group))
      ensures next.Finish? ==> EndedEarly(site, s, x, m, next.reply)
      ensures next.Again? ==> m.rounds > 0 && MayBegin(m.routers, m.rounds) && x.attemptCount < x.maxAttempts
    {
    }

    lemma FinishDecides(s: Session, x: Conversation.Record, l: Ladder, next: NextStep)
      requires registry.Valid()
      requires match next
               case Again => MayBegin(l.routers, l.rounds)
               case Finish(r) => EndedEarly(Site(), s, x, l, r)
               case Execute(group, chain) =>
                 && l.rounds > 0 && LastDecision(l.routers, l.rounds) == Some(RouterDecision(ANSWER, Some(group)))
                 && RoundChain(Site(), s, l.rounds - 1, x.excludedProviders, group, chain)
      ensures Decides(s, x, l, next)
    {
    }

    /**
     The rounds of `_route`, until one decides. Every further round has counted an attempt, so
     the attempts left are its measure.
     */
    method Rounds(state: ConversationState, capture: Capture, s: Session)
      returns (next: NextStep, blocked: set<Backend>)
      requires Serving(s, state) && Stored(s, state)
      requires Booked(s, capture) && capture.Ladder() == NO_LADDER && capture.providerAttempts == []
      modifies world, world.store, world.circuits, world.circuits.circuits.Values, state
      modifies capture`routerAttempts, capture`posts, capture`rounds, capture`audited
      ensures Serving(s, state) && Recorded(s, capture) && blocked == BlockedByRouters(capture.routerAttempts)
      ensures Counted(Site(), s, old(state.Value()), capture.Ladder())
              && state.Value() == Now(old(state.Value()), capture.Ladder())
      ensures capture.rounds == 0 <==> TurnOver(registry.ListProviders(), old(state.Value()))
      ensures !next.Again? && Decides(s, state.Value(), capture.Ladder(), next)
      ensures capture.Ladder().Retries() == capture.rounds ==> Stored(s, state)
    {
      hide *;
      ghost var start := state.Value();
      ServingMeans(s, state);
      SiteMeans();
      BookedMeans(s, capture);
      LadderMeans(capture);
      NoLadderMeans();
      NothingSent(Site(), s);
      RecordedMeans(s, capture);
      BlockedByNone();
      CountedNone(Site(), s, start);
      AgainDecides(s, start, capture.Ladder());
      blocked := {};
      next := Again;
      while next.Again?
        invariant registry.Valid() && Serving(s, state) && Recorded(s, capture)
                  && blocked == BlockedByRouters(capture.routerAttempts)
        invariant Counted(Site(), s, start, capture.Ladder()) && state.Value() == Now(start, capture.Ladder())
        invariant Decides(s, state.Value(), capture.Ladder(), next)
        invariant capture.Ladder().Retries() == capture.rounds ==> Stored(s, state)
        invariant capture.rounds == 0 ==> next.Again? || TurnOver(registry.ListProviders(), start)
        decreases next.Again?, state.Value().maxAttempts - state.Value().attemptCount
      {
        LadderMeans(capture);
        AgainMeans(s, state.Value(), capture.Ladder());
        StartMeans(start, capture.Ladder());
        ghost var l := capture.Ladder();
        next, blocked := Round(state, capture, blocked, s, start);
        ServingMeans(s, state);
        SiteMeans();
        LadderMeans(capture);
      }
      LadderMeans(capture);
      NoRoundIffTurnOver(Site(), s, start, capture.Ladder());
    }

    lemma NoLadderMeans()
      ensures NO_LADDER == Accounting.Ladder(0, 0, [], []) && NO_PHASE == Accounting.Phase(None, [], [], None)
    {
    }

    lemma NothingSent(site: Site, s: Session)
      ensures RoutersGenuine(site, s, []) && PostsSent(site, s, []) == 0
    {
    }

    lemma AgainDecides(s: Session, x: Conversation.Record, l: Ladder)
      requires registry.Valid() && MayBegin(l.routers, l.rounds)
      ensures Decides(s, x, l, Again)
    {
    }

    lemma AgainMeans(s: Session, x: Conversation.Record, l: Ladder)
      requires registry.Valid() && Decides(s, x, l, Again)
      ensures MayBegin(l.routers, l.rounds) && l.Retries() == l.rounds
    {
    }

    lemma StartMeans(start: Conversation.Record, l: Ladder)
      ensures l.rounds == 0 ==> Now(start, l) == start
    {
    }

    /** The decided round's provider phase: the chain is tried, and only an answer writes the record. */
    method Perform(group: TaskGroup, chain: seq<ProviderConfig>, state: ConversationState, capture: Capture,
                   blocked: set<Backend>, s: Session) returns (r: Reply)
      requires Serving(s, state) && Recorded(s, capture) && capture.Phase() == NO_PHASE
      requires blocked == BlockedByRouters(capture.routerAttempts) && capture.rounds > 0
      requires LastDecision(capture.routerAttempts, capture.rounds) == Some(RouterDecision(ANSWER, Some(group)))
      requires RoundChain(Site(), s, capture.rounds - 1, state.excludedProviders, group, chain)
      modifies world, world.store, world.circuits, world.circuits.circuits.Values, state
      modifies capture`providerAttempts, capture`selectedProvider, capture`taskGroup, capture`chain
      ensures Serving(s, state) && Booked(s, capture) && capture.Phase().chain != []
      ensures DispatchedAlong(Site(), s, old(state.excludedProviders), capture.Ladder(), capture.Phase(), r)
      ensures r.Ok? ==> capture.Phase().selected.Some? && Stored(s, state)
      ensures state.Value()
              == if r.Ok? then Committed(old(state.Value()), r.value.response, capture.Phase().selected.value)
                 else old(state.Value())
    {
      hide *;
      ServingMeans(s, state);
      SiteMeans();
      RecordedMeans(s, capture);
      NoLadderMeans();
      PhaseMeans(capture);
      LadderMeans(capture);
      ghost var excluded, site := state.excludedProviders, Site();
      capture.taskGroup := Some(group);
      capture.chain := chain;
      RoundChainFacts(site, s, capture.rounds - 1, excluded, group, chain);
      BookedIf(s, capture);
      r := ExecuteWithFallback(chain, state, capture, blocked, s);
      ServingMeans(s, state);
      PhaseMeans(capture);
      LadderMeans(capture);
      DispatchedAs(site, s, excluded, capture.Ladder(), capture.Phase(), r);
    }

    lemma PhaseMeans(capture: Capture)
      ensures capture.Phase()
              == Accounting.Phase(capture.taskGroup, capture.chain, capture.providerAttempts, capture.selectedProvider)
    {
    }

    lemma BookedIf(s: Session, capture: Capture)
      requires registry.Valid()
      requires world.circuits.Account(s.request)
               == Noted(capture.began, Site(), s, capture.routerAttempts, capture.providerAttempts)
      ensures Booked(s, capture)
    {
    }

    /** `_route`: the rounds, and the provider phase of the round that decided to answer. */
    method Route(state: ConversationState, capture: Capture, s: Session) returns (r: Reply)
      requires Serving(s, state) && Stored(s, state)
      requires Booked(s, capture) && capture.Ladder() == NO_LADDER && capture.Phase() == NO_PHASE
      modifies world, world.store, world.circuits, world.circuits.circuits.Values, state, capture
      ensures Serving(s, state) && Booked(s, capture) && (Lasting(s, capture.Ladder(), r) ==> Stored(s, state))
      ensures Routed(Site(), s, old(state.Value()), capture.Ladder(), capture.Phase(), r)
      ensures RoutedFrom(Now(old(state.Value()), capture.Ladder()), Some(state.Value()), r,
                         AnswererOf(capture.Phase(), r))
    {
      hide *;
      ghost var start := state.Value();
      NoLadderMeans();
      PhaseMeans(capture);
      var next, blocked := Rounds(state, capture, s);
      ServingMeans(s, state);
      SiteMeans();
      PhaseMeans(capture);
      LadderMeans(capture);
      ValueExcludes(state);
      RecordedMeans(s, capture);
      ghost var site, x, l := Site(), state.Value(), capture.Ladder();
      DecidesMeans(s, x, l, next);
      match next {
        case Finish(reply) =>
          r := reply;
          RoutedEarly(site, s, start, l, r);
          BookedIf(s, capture);
        case Execute(group, chain) =>
          r := Perform(group, chain, state, capture, blocked, s);
          ServingMeans(s, state);
          LadderMeans(capture);
          RoutedOn(site, s, start, l, capture.Phase(), r, state.Value());
      }
      StoredMeans(s, state);
      LastingMeans(s, capture.Ladder(), r);
    }

    lemma DecidesMeans(s: Session, x: Conversation.Record, l: Ladder, next: NextStep)
      requires registry.Valid() && Decides(s, x, l, next)
      ensures match next
              case Again => true
              case Finish(r) => EndedEarly(Site(), s, x, l, r)
              case Execute(group, chain) =>
                && l.rounds > 0 && LastDecision(l.routers, l.rounds) == Some(RouterDecision(ANSWER, Some(group)))
                && RoundChain(Site(), s, l.rounds - 1, x.excludedProviders, group, chain)
    {
    }

    // ---- Whole requests -----------------------------------------------------------

    /** A new message: the record is loaded or created, restarted and stored, all before the first await. */
    method BeginFresh(s: Session) returns (state: ConversationState)
      requires Wired() && registry.Valid() && world.Idle(s.request, s.Key())
      modifies world.store
      ensures fresh(state) && Serving(s, state)
      ensures state.Value() == FreshBase(maxAttempts, s.inbound, old(world.RecordAt(s.Key())))
      ensures world.store.Contents() == old(world.store.Contents())[s.Key() := state.Value()]
    {
      hide *;
      ghost var before := world.Snapshot();
      world.IdleMeans(s.request, s.Key());
      RecordMeans(s);
      state := LoadOrCreate(s);
      ghost var found := state.Value();
      Restart(state, s);
      BegunGood(found, s.inbound.chat.message, s.inbound.chat.hasImage);
      LastWriteWins(before.records, s.Key(), found, state.Value());
      GoodAfter(before.records, s.Key(), state.Value());
      FreshMeans(s, RecordIn(before.records, s.Key()), found, state.Value());
      HeldMeans(s, state);
      StillServingAfterWrite(s, state, before);
    }

    lemma RecordMeans(s: Session)
      ensures world.RecordAt(s.Key()) == RecordIn(world.store.Contents(), s.Key())
      ensures RecordIn(world.store.Contents(), s.Key()) ==
              if s.Key() in world.store.Contents() then Some(world.store.Contents()[s.Key()]) else None
      ensures world.store.AllGood() ==> GoodRecords(world.store.Contents())
      ensures world.store.Valid() && s.Key() in world.store.Contents() ==>
                world.store.Contents()[s.Key()].conversationId == s.Key().conversationId
      ensures s.Key().conversationId == s.inbound.chat.conversationId
    {
    }

    lemma FreshMeans(s: Session, before: Option<Conversation.Record>, found: Conversation.Record,
                     x: Conversation.Record)
      requires found == if before.Some? then before.value
                        else NewRecord(s.inbound.chat.conversationId, s.inbound.chat.message, maxAttempts)
      requires x == Begun(found, s.inbound.chat.message, s.inbound.chat.hasImage)
      ensures x == FreshBase(maxAttempts, s.inbound, before)
    {
    }

    /** A copy of the record, which is created if there is none. */
    method LoadOrCreate(s: Session) returns (state: ConversationState)
      requires world.store.Valid()
      modifies world.store
      ensures world.store.Valid() && fresh(state) && !state.stored && state.conversationId == s.Key().conversationId
      ensures s.Key() in world.store.Contents()
      ensures world.store.Contents() == old(world.store.Contents())
              || world.store.Contents() == old(world.store.Contents())[s.Key() := state.Value()]
      ensures state.Value() == if s.Key() in old(world.store.Contents()) then old(world.store.Contents())[s.Key()]
                               else NewRecord(s.inbound.chat.conversationId, s.inbound.chat.message, maxAttempts)
    {
      hide ConversationStateManager.Contents;
      RecordMeans(s);
      var loaded := world.store.Load(s.Key());
      if loaded.Some? {
        state := loaded.value;
      } else {
        state := world.store.Create(s.inbound.chat.conversationId, s.inbound.chat.message, maxAttempts,
                                    s.Key().tenantId);
      }
    }

    method Restart(state: ConversationState, s: Session)
      requires world.store.Valid() && !state.stored
      requires s.Key() in world.store.Contents() && state.conversationId == s.Key().conversationId
      modifies world.store, state
      ensures world.store.Valid()
              && state.Value() == Begun(old(state.Value()), s.inbound.chat.message, s.inbound.chat.hasImage)
      ensures world.store.Contents() == old(world.store.Contents())[s.Key() := state.Value()]
    {
      hide ConversationStateManager.Contents;
      state.BeginTurn(s.inbound.chat.message, s.inbound.chat.hasImage);
      var known := world.store.Update(state, s.Key().tenantId);
    }

    /** A retry: a copy of the record, or the error that ends the request before anything is written. */
    method LoadForRetry(s: Session) returns (loaded: Result<ConversationState, RequestError>)
      requires world.store.Valid() && world.store.AllGood()
      ensures match world.RecordAt(s.Key())
              case None => loaded == Err(ConversationNotFound)
              case Some(r) =>
                if r.hasImage && !s.inbound.chat.hasImage then loaded == Err(InvalidRequest)
                else && loaded.Ok? && fresh(loaded.value) && Owns(s, loaded.value)
                     && loaded.value.Value() == r.(hasImage := s.inbound.chat.hasImage)
    {
      hide ConversationStateManager.Contents;
      RecordMeans(s);
      var found := world.store.Load(s.Key());
      if found.None? {
        return Err(ConversationNotFound);
      }
      var state := found.value;
      if state.hasImage && !s.inbound.chat.hasImage {
        return Err(InvalidRequest);
      }
      state.hasImage := s.inbound.chat.hasImage;
      loaded := Ok(state);
    }

    /** What the request noted, and what it leaves behind. */
    ghost predicate Closed(s: Session, before: Option<Conversation.Record>, capture: Capture, r: Reply)
      requires registry.Valid()
      reads registry, capture, world.store, world.store.conversations.Values, world.circuits
    {
      && Booked(s, capture) && Accounted(Site(), s, before, capture.Ladder(), capture.Phase(), r)
      && (Lasting(s, capture.Ladder(), r)
          ==> Served(Site(), s, before, world.RecordAt(s.Key()), capture.Ladder().Retries(), r,
                     AnswererOf(capture.Phase(), r)))
    }

    /** Routing from a copy that is current. */
    method RouteFrom(state: ConversationState, capture: Capture, s: Session, ghost before: Option<Conversation.Record>)
      returns (r: Reply)
      requires Serving(s, state) && Stored(s, state)
      requires Booked(s, capture) && capture.Ladder() == NO_LADDER && capture.Phase() == NO_PHASE
      requires OpeningOf(Site(), s, before) == Routes(state.Value())
      modifies world, world.store, world.circuits, world.circuits.circuits.Values, state, capture
      ensures world.Idle(s.request, s.Key()) && Closed(s, before, capture, r)
    {
      hide *;
      ServingMeans(s, state);
      ghost var start, site := state.Value(), Site();
      r := Route(state, capture, s);
      ServingMeans(s, state);
      StoredMeans(s, state);
      RecordMeans(s);
      RoutedAccounted(site, s, before, start, Some(state.Value()), capture.Ladder(), capture.Phase(), r);
      ClosedIf(s, before, capture, r);
    }

    lemma ClosedIf(s: Session, before: Option<Conversation.Record>, capture: Capture, r: Reply)
      requires registry.Valid() && Booked(s, capture)
               && Accounted(Site(), s, before, capture.Ladder(), capture.Phase(), r)
      requires Lasting(s, capture.Ladder(), r) ==>
                 Served(Site(), s, before, RecordIn(world.store.Contents(), s.Key()), capture.Ladder().Retries(), r,
                        AnswererOf(capture.Phase(), r))
      ensures Closed(s, before, capture, r)
    {
    }

    /** `_handle` for a new message. */
    method HandleFresh(capture: Capture, s: Session) returns (r: Reply)
      requires Wired() && registry.Valid() && world.Idle(s.request, s.Key()) && !s.inbound.chat.retry
      requires Booked(s, capture) && capture.Ladder() == NO_LADDER && capture.Phase() == NO_PHASE
      modifies world, world.store, world.circuits, world.circuits.circuits.Values, capture
      ensures world.Idle(s.request, s.Key()) && Closed(s, old(world.RecordAt(s.Key())), capture, r)
    {
      hide *;
      ghost var before := world.RecordAt(s.Key());
      SiteMeans();
      var state := BeginFresh(s);
      StoredMeans(s, state);
      OpensFresh(Site(), s, before);
      SiteIs();
      r := RouteFrom(state, capture, s, before);
    }

    lemma SiteIs()
      requires registry.Valid()
      ensures Site().maxAttempts == maxAttempts
    {
    }

    lemma OpensFresh(site: Site, s: Session, before: Option<Conversation.Record>)
      requires !s.inbound.chat.retry
      ensures OpeningOf(site, s, before) == Routes(FreshBase(site.maxAttempts, s.inbound, before))
    {
    }

    /** `_handle` for a retry. */
    method HandleRetry(capture: Capture, s: Session) returns (r: Reply)
      requires Wired() && registry.Valid() && world.Idle(s.request, s.Key()) && s.inbound.chat.retry
      requires Booked(s, capture) && capture.Ladder() == NO_LADDER && capture.Phase() == NO_PHASE
      modifies world, world.store, world.circuits, world.circuits.circuits.Values, capture
      ensures world.Idle(s.request, s.Key()) && Closed(s, old(world.RecordAt(s.Key())), capture, r)
    {
      hide *;
      ghost var before := world.RecordAt(s.Key());
      world.IdleMeans(s.request, s.Key());
      RecordMeans(s);
      var loaded := LoadForRetry(s);
      if loaded.Err? {
        r := Err(loaded.error);
        RejectionAccounted(Site(), s, before, loaded.error);
        NoAnswerer(r);
        NoRetries();
        ClosedIf(s, before, capture, r);
      } else {
        r := RetryFrom(loaded.value, capture, s, before);
      }
    }

    lemma NoAnswerer(r: Reply)
      requires r.Ok? ==> r.value.action != ANSWER
      ensures AnswererOf(NO_PHASE, r) == None
    {
    }

    lemma NoRetries()
      ensures NO_LADDER.Retries() == 0
    {
    }

    lemma StoppedMeans(s: Session)
      ensures s.Stopped().action == STOP
    {
    }

    /** `_handle` for a retry whose record is at hand and whose image, if it had one, is attached again. */
    method RetryFrom(state: ConversationState, capture: Capture, s: Session, ghost before: Option<Conversation.Record>)
      returns (r: Reply)
      requires Wired() && registry.Valid() && world.Idle(s.request, s.Key()) && s.inbound.chat.retry && Owns(s, state)
      requires Booked(s, capture) && capture.Ladder() == NO_LADDER && capture.Phase() == NO_PHASE
      requires before == world.RecordAt(s.Key()) && before.Some? && !(before.value.hasImage && !s.inbound.chat.hasImage)
      requires state.Value() == before.value.(hasImage := s.inbound.chat.hasImage)
      modifies world, world.store, world.circuits, world.circuits.circuits.Values, state, capture
      ensures world.Idle(s.request, s.Key()) && Closed(s, before, capture, r)
    {
      hide *;
      ghost var base, shared := state.Value(), world.Snapshot();
      world.IdleMeans(s.request, s.Key());
      SiteMeans();
      RecordMeans(s);
      StopAccounted(Site(), s, before, base);
      var stop := PrepareRetry(state, s);
      RecordMeans(s);
      world.IdleMeans(s.request, s.Key());
      OwnedMeans(s, state);
      if !TurnOver(registry.ListProviders(), base) {
        StillServingAfterWrite(s, state, shared);
        ServingMeans(s, state);
        StoredMeans(s, state);
      }
      if stop {
        r := Ok(s.Stopped());
        StoppedMeans(s);
        NoAnswerer(r);
        NoRetries();
        ClosedIf(s, before, capture, r);
      } else {
        r := RouteFrom(state, capture, s, before);
      }
    }

    /**
     One request, start to finish, among any number of others, whatever they and its routers,
     providers, gateway and clock do. It keeps the guarantee others rely on: every block of it wrote
     at most its own record and touched only its own calls. It leaves the shared state sound, no
     call of its own in flight, and the circuits with exactly the marks of its recorded attempts.
     Its rounds, attempts and reply are accounted for. And an answer, an attempt counted in its last
     round, or, if no other request works on its conversation, whatever it came to, leaves the
     stored record exactly as `Served` says.
     */
    method Handle(inbound: Inbound, script: Script, request: nat, alone: bool)
      returns (r: Reply, capture: Capture, ghost inner: Reply)
      requires Wired() && registry.Valid() && world.Valid() && world.Resumed()
               && world.circuits.NothingInFlight(request)
      modifies world, world.store, world.circuits, world.circuits.circuits.Values
      ensures world.Valid() && world.Kept(request, inbound.Key()) && world.circuits.NothingInFlight(request)
      ensures var s := Session(request, inbound, script, alone);
              && r == AtBoundary(inner, s)
              && Accounted(Site(), s, old(world.RecordAt(inbound.Key())), capture.Ladder(), capture.Phase(), inner)
              && world.circuits.Account(request)
                 == Noted(old(world.circuits.Account(request)), Site(), s, capture.routerAttempts,
                          capture.providerAttempts)
              && (Lasting(s, capture.Ladder(), r) ==>
                    Served(Site(), s, old(world.RecordAt(inbound.Key())), world.RecordAt(inbound.Key()),
                           capture.Ladder().Retries(), r, AnswererOf(capture.Phase(), r)))
    {
      hide *;
      var s := Session(request, inbound, script, alone);
      ghost var before, account := world.RecordAt(inbound.Key()), world.circuits.Account(request);
      KeyMeans(s);
      world.ResumedKeeps(request, s.Key());
      IdleIf(s);
      capture := new Capture(account);
      NoLadderMeans();
      LadderMeans(capture);
      PhaseMeans(capture);
      NotedNothing(account, Site(), s);
      BookedIf(s, capture);
      var reply;
      if inbound.chat.retry {
        reply := HandleRetry(capture, s);
      } else {
        reply := HandleFresh(capture, s);
      }
      inner := reply;
      r := AtBoundary(reply, s);
      IdleIs(s);
      ClosedMeans(s, before, capture, reply);
      LastingAtBoundary(s, capture.Ladder(), reply);
      if Lasting(s, capture.Ladder(), reply) {
        ServedAtBoundary(Site(), s, before, world.RecordAt(inbound.Key()), capture.Ladder().Retries(), capture.Phase(),
                         reply);
      }
    }

    lemma KeyMeans(s: Session)
      ensures s.Key() == s.inbound.Key()
    {
    }

    lemma IdleIf(s: Session)
      requires world.Valid() && world.Kept(s.request, s.Key()) && world.circuits.NothingInFlight(s.request)
      ensures world.Idle(s.request, s.Key())
    {
    }

    lemma IdleIs(s: Session)
      requires world.Idle(s.request, s.Key())
      ensures world.Valid() && world.Kept(s.request, s.Key()) && world.circuits.NothingInFlight(s.request)
    {
    }

    lemma ClosedMeans(s: Session, before: Option<Conversation.Record>, capture: Capture, r: Reply)
      requires registry.Valid() && Closed(s, before, capture, r)
      ensures Accounted(Site(), s, before, capture.Ladder(), capture.Phase(), r)
      ensures world.circuits.Account(s.request)
              == Noted(capture.began, Site(), s, capture.routerAttempts, capture.providerAttempts)
      ensures Lasting(s, capture.Ladder(), r) ==>
                Served(Site(), s, before, world.RecordAt(s.Key()), capture.Ladder().Retries(), r,
                       AnswererOf(capture.Phase(), r))
    {
    }
  }
}
