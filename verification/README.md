# Routing engine: a verified model

The routing engine serves chat requests that many clients send at once. A request first asks a
two-tier ladder of routers which group of task providers should answer, then tries that group's
providers one after another. Routers and providers sit on four shared backends, each guarded by a
circuit breaker. A conversation store remembers, per tenant and conversation, who has answered and
who is excluded from the rest of the turn. In the second version of the interface, governance rules
and a ranking policy decide which providers a tenant may use and in what order.

This project states in Dafny what that engine does and proves what holds of it for every run.
`dafny verify dfyconfig.toml` checks all of it.

## How the model is built

- `Circuit`, `CircuitSystem`, `Backends`: the circuit breaker as mutable objects, and any
  interleaving of admissions, settlements and passing time as a run of a step system. The ghost
  field `systems` of the shared object records, per backend, the calls in flight and the log of
  events; that record is proved to be reachable by a run after every block that touches a circuit.
- `EventLoop`, `CallSites`: what one request shares with all others, and the two kinds of call that
  use a circuit. `World.Await` stands for giving way at an `await`. It may be called, and a request
  may return, only with the request's guarantee kept: since it last resumed (`World.seen`) it wrote
  no record but its own and touched no call but its own. In exchange it promises no more than that
  the store and circuits are sound afterwards, that no record was deleted, that nobody acted in this
  request's name, and, for a request that is `alone` on its conversation, that nobody wrote its
  record. `EventLoop.OthersAreRelied` proves that blocks keeping the guarantee keep that promise.
  Every admission, refusal and settlement is logged under the call's own id;
  `BackendCircuits.Account` is what the logs say of one request.
- `Registry`, `ControlPlane`, `Ordering`, `Pipeline`: the registry, governance, ranking and
  validation, and the proofs that the facts they compute in different shapes agree.
- `Repository`, `Audit`: the append-only control-plane repositories, and what the audit entry of a
  request can be resolved to, when it is made and after any later changes.
- `Conversation`, `Lifecycle`, `Accounting`, `Engine`, `Outcomes`, `Turn`: the store, the vocabulary
  of one request, the account every request leaves behind, the engine's methods over shared state
  proved against it, what that account comes to in terms of nothing but the record found, the
  registry, the policies and what the calls returned, and whole conversations. Small lemmas named `...Means`, `...If` and `...Is` only
  unfold a definition where a proof needs it.
- `Catalog`: the start-up check of configured models.

Assumptions, none of them proved: code between two awaits is atomic; timeouts are honoured promptly;
the clock does not run backwards and times, scores and costs are real numbers; the registry is not
changed while requests are served (no serving path changes it); settings have passed their own
checks (distinct non-empty ids, thresholds of at least one). What routers, providers and the gateway
return, when the deadline has passed and which policies a round finds active are arbitrary functions
(`Script`), so each theorem holds for all of them. A provider in a candidate set is represented by
its id. `Capture` keeps the attempts, the audit reference and the selected provider of a request,
and counts of its rounds and POSTs. A failed router tier or provider attempt is told apart by its
recorded failure reason: refused by the circuit, failed, or (for a router) a decision that the
validator rejects.

## What the proofs found

- **Late success closes early** (`providers/circuit_breaker.py:41`). An open circuit admits a
  request before its cooldown ends exactly when an earlier call is still unsettled:
  `CircuitSystem.EarlyAdmissionNeedsALateCall`.
- **The probe limit is real only below the cooldown.** A call as old as the cooldown is in flight beside
  all the probes: `CircuitSystem.ProbeBoundExactlyBelowCooldown` gives the exact condition, with the
  breaking run for every configuration.
- **A stale release gives back a slot it never took** (`providers/circuit_breaker.py:105-108`).
  `CircuitSystem.ReleaseKeepsCountIff` says exactly when the count survives a release;
  `CircuitSystem.StaleReleaseBreaksPeriod` is the run in which one period exceeds its own limit, and
  `CircuitSystem.PeriodBoundExactlyBelowCooldown` the exact condition for no such run to exist.
- **Images and groups.** `README.md:160` of the repository says image requests expose only
  `multimodal` to the router. The group list does not enforce this; the validator does:
  `Pipeline.ImageOffersOnlyMultimodalIff`, `Pipeline.NonMultimodalGroupOffered`.
- **Audit references of synthesised defaults** (`control_plane/repository.py:29`). They carry
  version 1 without being stored, and a later first version can take their place under another kind:
  `Repository.ActiveReferenceResolvesIff`, `Repository.SynthesisedReferenceCanBeTaken`. The same
  holds of the governance half of the reference (`control_plane/repository.py:69`):
  `Repository.ActiveGovernanceResolvesIff`, `Repository.UnrestrictedReferenceTakenIff`.
  `Audit.AuditEntryIsPermanentIff` says when the audit entry of a request can be resolved for good.
- **One exclusion too many.** Between the two writes of a retry (`routing/engine.py:303-305`) the
  stored record may hold more exclusions than attempts: `Lifecycle.GoodBetweenWritesIff` says exactly
  when, `Lifecycle.FirstRetryNotGoodBetweenWrites` gives a record. No await separates the writes, so
  no other request sees it.
- **A router's RETRY tries nobody new** (`routing/engine.py:303-305`). Only an answer changes the last
  provider, so after its first exclusion a retry excludes nobody more, however often its routers
  decide RETRY: each such round counts an attempt and offers the same exclusions again
  (`Outcomes.RetriedOnlyCounts`, `Outcomes.RecordAfterRetry`).
- **Concurrent answers overwrite each other** (`state/manager.py:37-43`). Of two copies of one record
  committed in turn only the later remains, and the first answerer is remembered only if it is the
  second or was excluded before: `Conversation.CommitTwoCopies`.

## Model

| member | source | states |
|---|---|---|
| Circuit.BackendCircuit.AllowRequest | providers/circuit_breaker.py:28-39 | Admits exactly as `Admits` says, leaves the circuit `AfterAllow` says, and on refusal leaves every field as it was |
| Circuit.BackendCircuit.RecordSuccess | providers/circuit_breaker.py:41-45 | The circuit is as new |
| Circuit.BackendCircuit.RecordFailure | providers/circuit_breaker.py:47-57 | The new circuit is `AfterFailure` of the old one, and is never half open |
| Circuit.BackendCircuit.MarkOpen | providers/circuit_breaker.py:73-76 | The circuit is open from now on with no probe slot taken |
| Circuit.BackendCircuit.ReleaseProbe | providers/circuit_breaker.py:105-108 | One slot fewer while half open, never below zero; otherwise nothing |
| Circuit.BackendCircuit.TakeSnapshot | providers/circuit_breaker.py:59-71 | Changes nothing, and shows a state from which the answer to a request at the same instant can be read off, both ways |
| Circuit.AllowKeepsWellFormed | providers/circuit_breaker.py:28-39 | A request, admitted or refused, keeps: CLOSED iff failures below threshold iff no opening time; slots within the probe limit and zero unless half open |
| Circuit.SettleKeepsWellFormed | providers/circuit_breaker.py:41-57 | Every kind of settlement keeps the same invariant |
| Circuit.RefusalChangesNothing | providers/circuit_breaker.py:28-39 | A refused request changes no field, and only an open or a full half-open circuit refuses |
| Circuit.SnapshotForetellsAdmission | providers/circuit_breaker.py:59-71 | The snapshot promises admission iff the next request at that instant is admitted, and admission does not change the shown state |
| Circuit.ReleaseAfterFailureDoesNothing | providers/circuit_breaker.py:47-57 | No recorded failure ends half open from any state, so the release the router makes after it is without effect |
| CircuitSystem.StepKeepsInv | providers/circuit_breaker.py:28-57 | One block of any call (admission, refusal, settlement) or passing time keeps the invariant that ties slots, opening time and call ages together |
| CircuitSystem.ReachableInv | providers/circuit_breaker.py:28-57 | That invariant holds after every interleaving of any number of calls |
| CircuitSystem.SlotsAreBacked | providers/circuit_breaker.py:105-108 | After every interleaving, with no timing assumption, a half-open circuit counts at most as many slots as there are unsettled calls admitted in this half-open period |
| CircuitSystem.IdleBackendRefusesOnlyWhileCooling | providers/circuit_breaker.py:28-39 | With nothing in flight the next request is refused iff the circuit is OPEN and its cooldown unfinished |
| CircuitSystem.DrainedWhenCooledDown | providers/circuit_breaker.py:28-33 | If calls settle within less than the cooldown, none is outstanding when the cooldown ends |
| CircuitSystem.RealProbeBound | providers/circuit_breaker.py:28-57 | If every call settles within T < open_seconds, in every reachable half-open state the calls truly in flight are exactly those of the current period, as many as counted, so at most half_open_probes |
| CircuitSystem.LateCallBreaksBound | providers/circuit_breaker.py:28-57 | For every configuration and any T >= open_seconds, a run with all calls settling within T that has one call too many in flight while half open: one let through before the circuit opened, and every probe |
| CircuitSystem.ProbeBoundExactlyBelowCooldown | providers/circuit_breaker.py:28-57 | Runs with calls bounded by T all respect the probe bound if and only if T < open_seconds |
| CircuitSystem.ReleaseKeepsCountIff | providers/circuit_breaker.py:105-108 | While the slots counted are the calls of the half-open period, a release keeps them so iff the released call is of that period or no slot is counted |
| CircuitSystem.StaleReleaseBreaksPeriod | providers/circuit_breaker.py:105-108 | For every configuration and any T >= open_seconds, a run with all calls settling within T in which a call from before the half-open period is released, one more probe is let through, and that single period has one probe more in flight than its limit, all slots counted |
| CircuitSystem.PeriodBoundExactlyBelowCooldown | providers/circuit_breaker.py:28-108 | Runs with calls bounded by T all keep the probes of each single half-open period within its limit if and only if T < open_seconds |
| CircuitSystem.TimelyIffPrompt | providers/circuit_breaker.py:28-57 | Every call of a run settled within T, or may yet, iff the log it left says so of each admission |
| CircuitSystem.PromptProbesExact | providers/circuit_breaker.py:28-57 | In every reachable state whose log shows calls settling within T < open_seconds, the calls in flight while half open are exactly the probes counted |
| CircuitSystem.OpenWindow | providers/circuit_breaker.py:47-57 | Along any run from an open circuit in which nothing closes it, the opening time never moves back and no request is admitted before the latest one plus the cooldown |
| CircuitSystem.EarlyAdmissionNeedsALateCall | providers/circuit_breaker.py:41-45 | An open circuit can be made to admit a request before its cooldown ends iff some earlier call is still unsettled (its late success closes it) |
| CircuitSystem.HistoryGrows | providers/circuit_breaker.py:28-57 | How each reading of the event log (failures counted, opening time, slots taken) changes with one more event |
| CircuitSystem.CircuitIsItsHistory | providers/circuit_breaker.py:28-76 | In every reachable state all four fields equal a function of the event log alone: failures since the last closing event, the latest failure, the slots admitted less those released |
| CircuitSystem.LogAnswersForItself | providers/circuit_breaker.py:28-57 | In every reachable state each logged request was admitted or refused as the circuit determined by the log before it decides, each settlement answers one admission, and the outstanding calls are those still unanswered |
| Backends.BackendCircuits.constructor | providers/circuit_breaker.py:82-97 | One fresh circuit per backend, each a separate object |
| Backends.BackendCircuits.AllowRequest | providers/circuit_breaker.py:99-100 | Only the named backend's circuit moves, by `AfterAllow` |
| Backends.BackendCircuits.RecordSuccess | providers/circuit_breaker.py:102-103 | Only the named backend's circuit moves, to a fresh one |
| Backends.BackendCircuits.RecordFailure | providers/circuit_breaker.py:110-111 | Only the named backend's circuit moves, by `AfterFailure` |
| Backends.BackendCircuits.ReleaseProbe | providers/circuit_breaker.py:105-108 | Only the named backend's circuit moves, by `AfterRelease` |
| Backends.BackendCircuits.SharedCircuitFacts | providers/circuit_breaker.py:79-111 | The circuit objects that router and dispatcher share always equal their log's history, never lose a slot, and when idle refuse only while cooling |
| Backends.BackendCircuits.SharedProbeBound | providers/circuit_breaker.py:79-111 | Of a shared circuit object whose log shows calls settling within T < open_seconds: the calls really in flight while half open are those it counts, within half_open_probes |
| EventLoop.OwnWriteGuaranteed | state/manager.py:37-43 | A block that replaces the request's own stored record keeps the request's guarantee: nothing under another key is written, nothing is deleted, no other request's call is touched |
| EventLoop.OwnCallGuaranteed | providers/circuit_breaker.py:28-57 | So does a block that admits, refuses or settles one of its own calls after time has passed |
| EventLoop.GuaranteeIsRelied | state/manager.py:37-43 | What one request guarantees is what another, with a different key if it is alone on its conversation, relies on |
| EventLoop.OthersAreRelied | routing/engine.py:426 | Any number of blocks of any other requests, in any order, each keeping its own request's guarantee, leave a waiting request its record, its calls and its marks |
| EventLoop.RelyKeepsCalls | providers/dispatcher.py:65-66 | Across a wait a request's calls in flight and everything the circuits have noted in its name stay as they were |
| CallSites.Admit | providers/dispatcher.py:57-62 | The admission block of any call: a mark in the request's name says whether the circuit admitted it; a refusal leaves the circuit alone; the request's guarantee is kept |
| CallSites.ProviderDispatcher.Dispatch | providers/dispatcher.py:55-81 | Unknown provider: nothing changes. Refused, iff the circuit admits no request: no call, the circuit unchanged, the refusal noted. Admitted: the reply decides, and the call is noted as made and settled exactly once, of the kind each exit makes, whatever runs meanwhile |
| CallSites.ProviderDispatcher.Call | providers/dispatcher.py:57-81 | Admission decides whether the provider is called; its reply decides the exception, the settlement and what is noted in the request's name |
| CallSites.ProviderDispatcher.Conclude | providers/dispatcher.py:67-81 | The block after the provider call is one settlement step of the backend's account |
| CallSites.ProviderDispatcher.SettleCircuit | providers/dispatcher.py:67-81 | Timeouts and transient failures count, other failures do not, everything else releases, a response resets |
| CallSites.DispatchSettles | providers/dispatcher.py:67-81 | Which settlement each end of a provider call makes: success iff it responded; a counted failure iff it timed out or failed for a reason laid to the backend; an uncounted one iff it failed otherwise; a release iff anything else |
| CallSites.StructuredHTTPRouter.Decide | routers/http_router.py:60-77 | Refused: no POST, the circuit unchanged, the refusal noted. Admitted: at most two POSTs, the decision or failure they determine, and exactly one settlement noted despite nested handlers |
| CallSites.VerdictOf | routers/http_router.py:79-126 | An admitted decision sends at most two POSTs, none iff it is cut short before the first, two iff the first one's body did not parse and the repair was sent, and is never reported as refused |
| CallSites.DecideReplies | routers/http_router.py:60-126 | What a decide returns or raises, read off its deciding POST: a decision iff the body parsed, a failure naming the backend iff it was a 401 or 403, a cancellation iff it was cancelled |
| CallSites.DecideSettles | routers/http_router.py:60-126 | Which settlement each of these makes |
| CallSites.StructuredHTTPRouter.Exchange | routers/http_router.py:79-97 | The POSTs really sent are those of the verdict, with a wait for others before a repair |
| CallSites.StructuredHTTPRouter.Conclude | routers/http_router.py:68-76 | The block after the last POST is one settlement step of the backend's account, of the same kind of step a dispatch makes |
| CallSites.StructuredHTTPRouter.SettleCircuit | routers/http_router.py:60-126 | The recordings and releases in nesting order amount to the one settlement the replies determine |
| CallSites.StructuredHTTPRouter.FailThenRelease | routers/http_router.py:72-76 | Recording a failure and then releasing equals recording it |
| Registry.ModelRegistry.constructor | registry/model_registry.py:13-17 | The listing is that of registering the configurations one by one |
| Registry.ModelRegistry.Register | registry/model_registry.py:19-22 | A known id is replaced in its place, a new one appended |
| Registry.ModelRegistry.Remove | registry/model_registry.py:24-27 | A known id is cut out and the rest keep their order; an unknown one is reported and changes nothing |
| Registry.ModelRegistry.SetEnabled | registry/model_registry.py:41-45 | Only the flag of the named record changes; an unknown id is reported and changes nothing |
| Registry.ModelRegistry.GetProvider | registry/model_registry.py:29-33 | The record registered under the id, or none |
| Registry.RegisterListing | registry/model_registry.py:19-22 | The dictionary and order list, after registering a new id, list what appending lists |
| Registry.RemoveListing | registry/model_registry.py:24-27 | The dictionary and order list, after a removal, list the others in their order |
| Registry.CandidatesMembers | registry/model_registry.py:85-104 | A chain holds exactly the registered providers meeting every condition, whichever sort is used |
| Registry.CandidatesDistinct | registry/model_registry.py:85-104 | A chain never names a provider twice |
| Registry.PriorityChainAscends | registry/model_registry.py:98-99 | In an ungoverned chain every provider has a lower priority number than every later one, or the same and a smaller id |
| Registry.AscendingIff | registry/model_registry.py:98-99 | Being sorted by the registry's key is that very order of priorities and ids |
| ControlPlane.PermittedIffNoReason | control_plane/services.py:38-56 | No exclusion reason iff each of the independent conditions holds |
| ControlPlane.PermittedExactly | control_plane/services.py:38-56 | The conditions on one provider, field by field; an absent or empty region constrains nothing |
| ControlPlane.ReasonsInOrder | control_plane/services.py:38-56 | Each reason is given exactly if its rule is violated and every rule tried before it is kept, spelled out |
| ControlPlane.ReasonIsFirstViolated | control_plane/services.py:38-56 | The reason given is the violated rule of highest precedence, each rule read on its own |
| ControlPlane.EvaluateGovernance | control_plane/services.py:19-36 | The ids split into eligible and excluded, each in order, none lost or doubled, every exclusion with the first rule that applies |
| ControlPlane.SplitConserves | control_plane/services.py:26-36 | A governance split loses and doubles no id |
| ControlPlane.Resolve | control_plane/services.py:137-147 | The candidate set: the ranked eligible ids, ranks 1..n with scores, and exclusions that with them make up the available ids |
| ControlPlane.AvailableRegistered | registry/model_registry.py:47-52 | The available ids are distinct and are exactly the enabled, registered ones not excluded |
| Pipeline.SortMajorIsNegatedScore | control_plane/services.py:70-79 | Each policy sorts by exactly the negation of the score it reports |
| Pipeline.RankingIsAPermutation | control_plane/services.py:65-90 | Ranking keeps every id exactly once and reported scores never rise along it, for every policy kind |
| Pipeline.ResolvedInPolicyOrder | control_plane/services.py:65-80 | Along a ranking cost does not fall (cheapest), latency does not fall (lowest latency), quality does not rise (highest quality), health times capacity does not rise (balanced), equal values in id order; the other two policies keep registration order |
| Pipeline.RankingsReport | control_plane/services.py:82-90 | Ranks run from 1 and each score is that metadata, negated where less is better |
| Pipeline.ResolvedFacts | control_plane/services.py:137-147 | The ranked ids are exactly the registered, enabled, not excluded, permitted ones |
| Pipeline.OfferedIffChainNonEmpty | registry/model_registry.py:57-104 | A group is offered to the router iff its dispatch chain would not be empty |
| Pipeline.ValidatedAnswerHasCandidate | routing/engine.py:340-384 | Any group the validator accepts has a non-empty chain for the same ids, exclusions and image flag |
| Pipeline.ValidatorAcceptsExactly | validation/decision_validator.py:15-37 | Accepted iff well formed, RETRY only in a retry, the group offered, and an image only in `multimodal` |
| Pipeline.ChainIsEligible | routing/engine.py:327-392 | Every provider of a governed chain after a validated ANSWER is enabled, not excluded, permitted by the snapshot, in the group, image-capable if needed |
| Pipeline.ChainRefinesRanking | registry/model_registry.py:85-104 | The rank-keyed sort of candidates equals the plain order-preserving filter of the ranking |
| Pipeline.ChainScoresNonIncreasing | registry/model_registry.py:98-104 | Policy scores never rise along a governed dispatch chain |
| Pipeline.ChainInPolicyOrder | registry/model_registry.py:98-104 | A governed dispatch chain is in that same order of metadata, for every pair of its providers |
| Pipeline.ChainMembersExactly | registry/model_registry.py:85-104 | Who is in a chain: registered, enabled, of the group, not excluded, allowed, and image-capable if needed |
| Pipeline.PriorityChainOrderIndependent | registry/model_registry.py:98-99 | An ungoverned chain is the same for every registration order |
| Pipeline.RankingOrderIndependent | control_plane/services.py:72-79 | The four metadata-sorted policies rank the same for every registration order |
| Pipeline.LegacyChainIsFiltered | registry/model_registry.py:98-104 | Under a policy that keeps registry order, for any governance, context, exclusions, group and image, the governed chain is the registry filtered to the able and permitted, in registration order |
| Pipeline.LegacyEqualsPriorityIff | registry/model_registry.py:98-104 | It equals the ungoverned chain iff governance denies no able provider of the group and those were registered in ascending (priority, id) |
| Pipeline.ImageOffersOnlyMultimodalIff | registry/model_registry.py:57-74 | An image request is offered only `multimodal` iff no allowed, enabled provider of another group accepts images |
| Pipeline.NonMultimodalGroupOffered | registry/model_registry.py:57-74 | A registry that settings allow (config/settings.py:141-157), with a provider in every group, where another group is offered for an image, so only the validator keeps images in `multimodal` |
| Ordering.SortOrderIndependent | registry/model_registry.py:98-104 | Sorting two listings of the same records by distinct keys gives one result |
| Ordering.StringLeIff | registry/model_registry.py:98-104 | Ids are ordered by their first difference, a prefix first |
| Ordering.SortFixesExactlySorted | registry/model_registry.py:98-104 | Sorting leaves a sequence alone iff it is already strictly sorted |
| Repository.PolicyRepository.GetActive | control_plane/repository.py:25-34 | The latest version of the tenant's active policy, or the synthesised default |
| Repository.PolicyRepository.Get | control_plane/repository.py:36-42 | The latest version, with its active mark computed from the pointer |
| Repository.PolicyRepository.Create | control_plane/repository.py:44-51 | Appends the next version, whatever number it came with, and activates if asked |
| Repository.PolicyRepository.Activate | control_plane/repository.py:53-58 | Moves the tenant's pointer to a known policy; an unknown one changes nothing |
| Repository.ChangeKeepsSound | control_plane/repository.py:44-58 | Versions stay numbered from 1 without gaps, active policies stay stored, and a tenant that ever stored a version as active keeps an active policy |
| Repository.ReferencesArePermanent | control_plane/repository.py:44-58 | A version reference that resolves keeps denoting the same definition under any later changes |
| Repository.CreateKeepsSound | control_plane/repository.py:44-51 | A policy created is stored under the next version, and versions stay numbered |
| Repository.ActiveReferenceResolvesIff | control_plane/repository.py:25-34 | The reference to a tenant's active policy resolves to that policy iff the tenant has an active one, so that none was synthesised |
| Repository.ActiveIsLatest | control_plane/repository.py:25-51 | A version stored with activation, or of the active policy, is from then on the active policy |
| Repository.DefaultPolicyIs | control_plane/repository.py:29-34 | A tenant without an active policy gets `legacy-balanced`, in registration order, at version 1 |
| Repository.UnrestrictedPermits | control_plane/repository.py:65-69 | Under the default governance policy only a provider's own classifications and regions count |
| Repository.GovernanceReferencesArePermanent | control_plane/repository.py:71-75 | A governance reference that resolves denotes the same policy after any later upserts, across policy ids sharing one numbering |
| Repository.ActiveGovernanceResolvesIff | control_plane/repository.py:65-69 | The reference to a tenant's active governance policy resolves to it iff the tenant has stored one |
| Repository.UnrestrictedReferenceTakenIff | control_plane/repository.py:65-75 | The reference to the unstored unrestricted default comes to denote the first policy the tenant stores iff that one bears the default's id, after any further upserts |
| Repository.NamedReferenceResolves | control_plane/repository.py:36-42 | A policy resolved by name is resolved by its reference |
| Repository.RankedByReferenceIsPermanent | control_plane/services.py:92-98 | The audited reference of a stored policy denotes it after any later changes |
| Repository.SynthesisedReferenceCanBeTaken | control_plane/repository.py:29-34 | The reference to a synthesised default resolves to nothing, and one later change makes it denote a policy of another kind |
| Repository.ResolvePolicy | control_plane/services.py:92-98 | A named policy must exist; without a name the active one is used |
| Repository.GovernanceRepository.GetActive | control_plane/repository.py:65-69 | The latest stored policy, or an unrestricted default |
| Repository.GovernanceRepository.Upsert | control_plane/repository.py:71-75 | Appends the next version; every other tenant keeps its versions |
| Repository.PolicyAuditRepository.Append | control_plane/repository.py:84-85 | The log only grows, by the reference |
| Repository.PolicyAuditRepository.List | control_plane/repository.py:87-88 | A tenant reads its own references in order and no one else's |
| Audit.PolicyReferenceResolvesIff | control_plane/services.py:92-98 | The reference to the policy a request is ranked by resolves to it, but for its active mark, iff the request named it, the tenant has an active one, or the first stored default is equal |
| Audit.ResolvesForGoodIff | control_plane/repository.py:44-75 | An audit entry resolves to given policies after any later changes of both repositories iff it resolves to them now |
| Audit.AuditEntryResolvesIff | routing/engine.py:643-665 | The audit entry of a round resolves to the policies that round used iff both were stored when it was made |
| Audit.AuditEntryIsPermanentIff | routing/engine.py:643-665 | It does so after any later creations, activations and upserts under that same condition, and only then |
| Conversation.ConversationStateManager.Create | state/manager.py:20-29 | Writes a fresh record under its key only, and hands out a copy that is not the stored object |
| Conversation.ConversationStateManager.Load | state/manager.py:31-35 | A fresh copy that is not the stored object, or none |
| Conversation.ConversationStateManager.Update | state/manager.py:37-43 | Replaces the whole record under its own key by a copy; an unknown key changes nothing |
| Conversation.ConversationStateManager.IncrementAttempt | state/manager.py:45-47 | One attempt more in the copy and in the store |
| Conversation.ConversationStateManager.ExcludeProvider | state/manager.py:49-54 | Excluded once, however often asked |
| Conversation.ConversationStateManager.Reset | state/manager.py:56-62 | Forgets the turn and the last answer, keeps the query and image mark, touches no other record |
| Conversation.CommitTwoCopies | state/manager.py:31-43 | Two copies of one record committed in turn: the later one replaces the earlier whole, and the first answerer ends excluded or last iff it is the second or was excluded before |
| Engine.RoutingEngine.PrepareRetry | routing/engine.py:300-306 | Stops without a write iff the guard fired; else the record is `Retried`, stored under its own key only, and the guard is reported again |
| Engine.RoutingEngine.CountRetry | routing/engine.py:303-305 | The two writes amount to `Retried`, and leave a good record |
| Engine.RoutingEngine.Try | routing/engine.py:425-426 | A refusal iff the circuit admits no request, else what the provider's reply makes it; other requests may run meanwhile |
| Engine.RoutingEngine.Commit | routing/engine.py:512-514 | The whole stored record becomes the copy with the answer and its provider, under its own key only |
| Engine.RoutingEngine.Deliver | routing/engine.py:490-519 | Gateway, then clock, then commit: the outcome is exactly what they determine; only an answer writes, and an answer is always stored |
| Engine.RoutingEngine.SkipPending | routing/engine.py:437-442 | After a cancelled attempt, every later candidate is recorded as skipped iff the deadline caused it |
| Engine.RoutingEngine.PassOver | routing/engine.py:409-421 | A blocked candidate is recorded as skipped; no call is made or noted |
| Engine.RoutingEngine.Attempt | routing/engine.py:422-489 | An unblocked candidate is dispatched to: refused iff its circuit admits no request, else recorded as its reply makes it, and the circuits have noted exactly that |
| Engine.RoutingEngine.Visit | routing/engine.py:406-489 | One turn of the provider loop: skipped iff its backend is blocked, refused iff its circuit admits no request, else recorded as the reply makes it; the blocked set grows iff credentials were refused; the circuits note what is recorded |
| Engine.RoutingEngine.ExecuteWithFallback | routing/engine.py:394-532 | At every exit the attempts are a prefix of the chain, in order, once each, ended as the reply says; the circuits have noted a refusal for each attempt recorded as refused and one settled call for every other; only an answer changes the record, and it is stored |
| Engine.RoutingEngine.Ask | routing/engine.py:549 | A refusal iff the router's circuit admits no request, else what its POSTs determine; the POSTs sent, exactly |
| Engine.RoutingEngine.Tier | routing/engine.py:546-592 | Refused iff the circuit admits no request; else the outcome is exactly what the reply and the validator make it: a decision counts iff the validator accepts it for the groups offered |
| Engine.RoutingEngine.DecideByLadder | routing/engine.py:534-602 | The fallback tier is asked iff the primary was refused, failed or decided what the validator rejects; the round ends with the decision of the last tier asked; the blocked set is what the tiers reported |
| Engine.RoutingEngine.ResolveCandidates | routing/engine.py:622-641 | The ids the round may use, or an unknown policy; the first candidate set of a request, and only it, is audited, naming request, tenant, policy and governance versions, ids, rankings and exclusions |
| Engine.RoutingEngine.LoadOrCreate | routing/engine.py:200-205 | A copy of the record, created if there was none; no other record is touched |
| Engine.RoutingEngine.Restart | routing/engine.py:206-211 | The copy starts its turn afresh and replaces its own stored record |
| Engine.RoutingEngine.Record | routing/engine.py:409-489 | One attempt more, for the next provider of the chain, in the shape its outcome requires |
| Engine.RoutingEngine.Consult | routing/engine.py:325-358 | One router round: candidates, groups, the ladder climbed with them, and a validated decision or exactly why there is none; the record is not touched |
| Engine.RoutingEngine.Act | routing/engine.py:359-392 | RETRY counts an attempt, stores it, and stops or goes on; CLARIFY and STOP answer as fixed; ANSWER dispatches along a validated chain |
| Engine.RoutingEngine.Round | routing/engine.py:322-392 | One pass of the loop begins a round iff the guard has not fired, and goes on only having counted one attempt |
| Engine.RoutingEngine.FollowUp | routing/engine.py:330-385 | What follows a round: its error, the retry counted and the guard read again, a fixed reply, or the validated chain |
| Engine.RoutingEngine.Rounds | routing/engine.py:321-362 | The loop ends, with measure attempts left; no round was begun iff the guard had fired at the start, and one attempt was counted for each round that decided RETRY; if the last one did, its record is stored; the blocked set is everything the routers reported |
| Engine.RoutingEngine.Perform | routing/engine.py:375-392 | The deciding round's chain is followed as accounted; an answer commits, and leaves stored, a provider that was not excluded |
| Engine.RoutingEngine.Route | routing/engine.py:313-392 | From entry to reply: rounds, attempts and end are those of `Routed`, and the record is the retried one, or its commit if answered; it is what the store holds whenever it is `Lasting` |
| Engine.RoutingEngine.BeginFresh | routing/engine.py:199-211 | A new message restarts the turn in one block, keeping the last answer, and the store holds the copy |
| Engine.RoutingEngine.LoadForRetry | routing/engine.py:184-194 | Unknown conversation and missing image are errors that write nothing |
| Engine.RoutingEngine.RouteFrom | routing/engine.py:213-214 | Routing from a copy just written: accounted for from that very record, and, if `Lasting`, leaving stored what `Served` says |
| Engine.RoutingEngine.RetryFrom | routing/engine.py:194-214 | A retry whose record is at hand: it stops iff the guard fired before or after counting the attempt, which is then stored, else routes from the retried record |
| Engine.RoutingEngine.HandleFresh | routing/engine.py:199-223 | For a new message: its own record begun afresh, then routed from exactly that; a STOP without a round only if the guard fired on it |
| Engine.RoutingEngine.HandleRetry | routing/engine.py:184-198 | For a retry: the same from the record as retried; an unknown conversation or a missing image ends it with nothing written |
| Engine.RoutingEngine.Handle | routing/engine.py:147-223 | Whatever the routers, providers, gateway and clock do, and whatever other requests run: every block of the request wrote at most its own record and touched only its own calls; the shared store and circuits stay sound; no call of it is left in flight; the circuits have noted exactly its recorded attempts; its rounds, attempts and reply are those of `Accounted`; and the stored record has moved exactly as `Served` says if the request answered, or counted an attempt in its last round, or began no round, or is alone on its conversation |
| Lifecycle.PostsBounded | routers/http_router.py:79-112 | However many router calls a request makes, it sends at most two POSTs for each |
| Lifecycle.RetriedGood | routing/engine.py:303-305 | A retry within the limit keeps the record invariant: attempts within the maximum, distinct exclusions, no more of them than attempts |
| Lifecycle.GoodBetweenWritesIff | routing/engine.py:303-305 | Between the two writes of a retry the stored record keeps that invariant iff the last answerer was excluded before or fewer were excluded than attempts counted |
| Lifecycle.FirstRetryNotGoodBetweenWrites | routing/engine.py:303-305 | A record whose first retry after an answer breaks the invariant between the writes and restores it after them |
| Lifecycle.LadderAppended | routing/engine.py:534-602 | One more round keeps the shape of a request's router attempts: a round begins at the primary tier, only after a RETRY; the fallback follows iff the primary gave up |
| Lifecycle.RouterRecorded | routing/engine.py:546-592 | One attempt more keeps every recorded outcome what replies and validator make it, and the POSTs counted |
| Lifecycle.BlockedGrows | routing/engine.py:446-447 | The blocked set only grows |
| Lifecycle.RoundChainFacts | routing/engine.py:378-384 | No round dispatches along an empty or repeating chain or to an excluded or disabled provider; an image goes to image-capable `multimodal` ones |
| Lifecycle.GovernedRoundIsEligible | routing/engine.py:327-392 | Every provider of a governed round passed that round's own snapshot, and scores do not rise along the chain |
| Lifecycle.FirstRoundStaysAudited | routing/engine.py:643-665 | A later round enters nothing more in the audit log |
| Accounting.AttemptsArePrefix | routing/engine.py:406-489 | Attempts name a prefix of the chain, each provider once |
| Accounting.SkippedExactlyAfterRefusal | routing/engine.py:409-421 | A candidate is passed over for credentials iff, earlier in the request, the deciding POST of an admitted router call, or an admitted provider call, on its backend was refused them |
| Accounting.BlockedByRoutersMeans | routers/http_router.py:114-126 | A backend is blocked by the routers iff some router call on it, let through by its circuit, had its deciding POST refused with 401 or 403 |
| Accounting.SkipsExactlyAfterRefusals | routing/engine.py:409-447 | The same for every attempt of a request |
| Accounting.GovernedAttemptsAreEligible | routing/engine.py:327-392 | Every attempted provider of a governed round is registered and meets every constraint, in score order |
| Accounting.DecisionAccepted | routing/engine.py:546-602 | A decision the ladder ends with is one the validator accepts for what that round offered |
| Accounting.RoundCounted | routing/engine.py:321-362 | Each round keeps the account: no round begins once the turn is over, each offers what its retried record allows, and an attempt is counted iff the round decided RETRY |
| Accounting.NoRoundIffTurnOver | routing/engine.py:321-324 | A request begins no round iff the guard had fired on the record it routed from |
| Accounting.AnswererIsNew | routing/engine.py:381 | An answer comes from a provider that had not been excluded |
| Accounting.StopAccounted | routing/engine.py:194-198 | A retry that stops before it routes found the turn over, or over with the attempt it counted, and leaves the record so |
| Accounting.RejectionAccounted | routing/engine.py:184-193 | A retry rejected for an unknown conversation or a missing image is its whole account |
| Accounting.CostOfARequest | routing/engine.py:313-362 | Of any routed request: attempts counted and rounds begun stay within the maximum (one round for a new message), two router calls a round and two POSTs a call, and exactly one audit reference iff its first round was governed by existing policies, to those policies and candidates |
| Accounting.DispatchesOfARequest | routing/engine.py:321-532 | Of any routed request: attempts are a distinct prefix of the chain; a candidate is skipped for credentials iff an earlier call of the request on its backend, in any round, was refused them; under a control plane every attempted provider is eligible by the snapshot of its round, in score order |
| Accounting.LastingAtBoundary | routing/engine.py:157-166 | Nor does it change whether the record as the request left it is sure to be still stored |
| Accounting.ServedAtBoundary | routing/engine.py:157-166 | Reporting a cancellation as the deadline changes nothing that was stored |
| Outcomes.SameKeyIff | routing/engine.py:182 | Two requests work on one record iff their tenants (or `legacy` for having none) and conversations agree |
| Outcomes.OthersUntouched | state/manager.py:37-43 | A block of a request leaves every record of another tenant or another conversation as it was |
| Outcomes.TenantsAreIsolated | state/manager.py:20-62 | So do any number of blocks of any requests of other tenants, in any order |
| Outcomes.AuditNamesTenant | routing/engine.py:652-663 | A governed request's audit entry bears its tenant, its id and the policies its round found |
| Outcomes.TurnOverIff | routing/engine.py:308-311 | The guard fires iff the maximum of attempts is counted or every enabled provider is excluded |
| Outcomes.NoRoundIff | routing/engine.py:321-324 | A request asks no router iff that holds of the record it routed from |
| Outcomes.StopsAtOnceIff | routing/engine.py:194-198 | A retry that may go on ends before counting anything, with the fixed text, iff it holds of the record it found |
| Outcomes.StopsIff | routing/engine.py:323-374 | A routed request stops, with the fixed text, iff it holds of the record as retried, or a router decided STOP; a RETRY decided in the last round ends the request only so |
| Outcomes.RetriesAreDecisions | routing/engine.py:359-362 | One attempt is counted for each RETRY decided, and at most one round more begun |
| Outcomes.RetriedOnlyCounts | routing/engine.py:303-305 | A router's RETRY counts an attempt but excludes nobody new |
| Outcomes.RecordAfterMessage | routing/engine.py:199-214 | Every field of the record a new message leaves: its text, its image mark, no attempts or exclusions, the configured maximum for a new conversation, and the answer and answerer iff answered |
| Outcomes.RecordAfterRetry | routing/engine.py:184-214 | Every field of the record a retry leaves: one attempt and one for each RETRY, the last answerer excluded once, the answer and answerer iff answered, the rest kept |
| Outcomes.RecordAfterRejection | routing/engine.py:184-198 | A retry of an unknown conversation, without its image, or with nothing left gets just that reply and leaves the record as it was |
| Outcomes.AllowedMeans | routing/engine.py:622-641 | The ids a round may use are those of the enabled, not excluded providers that, under a control plane, its policies permit; an error iff the policy does not exist |
| Outcomes.OfferedMeans | routing/engine.py:340-342 | A router is offered exactly the groups of these providers, of image-capable ones for an image |
| Outcomes.ChainMeans | routing/engine.py:378-384 | The chain holds exactly these providers of the decided group |
| Outcomes.ChainOrder | routing/engine.py:378-384 | It is in the order of the policy's own metadata for a governed tenant, in ascending priority and id without a tenant |
| Outcomes.TierMeans | routing/engine.py:546-592 | A tier let through succeeds with a decision iff its deciding POST brought it and it is well formed, RETRY only in a retry, its group offered, an image only in `multimodal`; it is invalid iff it brought another; it failed or was cancelled iff the POST did |
| Outcomes.FallbackAskedIff | routing/engine.py:534-602 | The fallback router is asked iff the primary was refused, failed, or decided what may not be acted on |
| Outcomes.RouterFailureIff | routing/engine.py:594-602 | A router failure is reported iff both routers of the last round came to nothing in that sense |
| Outcomes.ClarifiesIff | routing/engine.py:363-368 | Clarification is asked for, with the fixed text, iff a router decided so |
| Outcomes.DispatchesIff | routing/engine.py:375-392 | Providers are tried iff a router decided on a group |
| Outcomes.PolicyNotFoundIff | routing/engine.py:327 | A missing policy is reported iff the last round of a governed request found none |
| Outcomes.GovernanceDeniedIff | routing/engine.py:329-339 | A denial is reported iff the last round may use no provider at all |
| Outcomes.AttemptMeans | routing/engine.py:425-489 | The outcome of every attempt let through, read off what its provider returned |
| Outcomes.AnswersIff | routing/engine.py:490-519 | A request is answered iff its last attempt got a response that the gateway let through before the deadline; then with that text, by that provider |
| Outcomes.ProviderFailureIff | routing/engine.py:520-532 | A provider failure is reported iff the whole chain was skipped, refused or failed |
| Outcomes.ProviderErrorsIff | routing/engine.py:394-532 | A gateway failure, an internal error, a cancellation and the deadline, each reported iff the attempts, the gateway and the clock came to just that |
| Outcomes.ClientIsTold | routing/engine.py:157-166 | A client is told of a cancellation iff the deadline had not passed with it, and of the deadline otherwise |
| Outcomes.PostsAre | routers/http_router.py:79-112 | The POSTs a request sends, counted one by one |
| Outcomes.AttemptIsSettled | providers/dispatcher.py:57-81 | The circuit has noted each provider attempt let through as admitted and then settled, by what the provider returned |
| Outcomes.RouterIsSettled | routers/http_router.py:60-77 | And each router attempt, by its deciding POST |
| Turn.TurnSafety | routing/engine.py:184-214 | In a turn (a new message, then retries) the answerers are pairwise distinct, at most max_attempts, and each excluded or the last provider |
| Turn.ExchangeRemembers | routing/engine.py:300-306 | Each retry keeps the record accounting for everyone who has answered |
| Turn.NoLateCommit | routing/engine.py:490-519 | The stored answer changes iff the client is given an answer, to exactly it, and then names its provider; a retry lacking its image leaves the record as it was |
| Turn.Send | routing/engine.py:147-223 | One request after a wait for others: it finds the record the previous exchange left, and leaves what `Served` says |
| Turn.Converse | routing/engine.py:147-223 | Requests really sent one after another through `Handle`, among any others, form such a sequence, and a turn of them is safe in the same sense |
| Catalog.Verify | providers/model_catalog.py:107-142 | The results are the verdicts of one backend after another in first-seen order, and the catalogs fetched one per consistent backend; there are no results iff some fetch fails untranslated, and then nothing was fetched after the first that does |
| Catalog.VerifyGroup | providers/model_catalog.py:115-141 | An inconsistent group fails without a fetch; otherwise one fetch decides every target of it, or, failing untranslated, none |
| Catalog.Group | providers/model_catalog.py:108-112 | The dictionary holds each backend's selected targets in order, its keys in first-seen order |
| Catalog.ResolvedIdIsListed | providers/model_catalog.py:49-58 | A resolved id is in the catalog and names the model up to Google's prefix; unresolved iff neither form is listed |
| Catalog.FetchedOncePerConsistentBackend | providers/model_catalog.py:115-126 | A backend's catalog is fetched at most once, and is fetched iff it has selected targets that all agree on endpoint and key |
| Catalog.ConsistentIff | providers/model_catalog.py:117-122 | The comparison with the first target amounts to all targets of the backend agreeing on endpoint and key |
| Catalog.FetchedForFirst | providers/model_catalog.py:115-126 | A backend's catalog is fetched as its first selected target is configured |
| Catalog.ReasonReported | providers/model_catalog.py:115-142 | The reason and status of every result: inconsistent configuration, the catalog's error, available, or not found |
| Catalog.FirstSeenInOrder | providers/model_catalog.py:108-112 | Backends are taken in the order of their first targets |
| Catalog.SelectedIff | providers/model_catalog.py:109-111 | A role selects the targets of that role, no role all of them |
| Catalog.ResultsConserveTargets | providers/model_catalog.py:107-142 | For any targets and role filter, the results are one per selected target and nothing else |
| Catalog.AvailableIff | providers/model_catalog.py:127-141 | Available iff the backend's targets agree on endpoint and key and the id resolves in the catalog it returned |

## Left out

- Concurrent requests on one conversation: the record invariant, circuits, dispatches, termination and the account of every request are proved for any interleaving, and so is the record stored by an answer, by an attempt counted in the last round and by a request that began no round (`Accounting.Lasting`). After any other end the record may have been overwritten while the request waited, and what a turn contains (`Turn`) holds only for a request alone on its conversation: stale whole-record writes overwrite each other (`Conversation.CommitTwoCopies`).
- Text rewriting in `gateway/response_gateway.py`: the gateway is an arbitrary function that may fail.
- HTTP transport, payloads, JSON parsing and clients: only the outcome of a POST or provider call is modelled.
- `api/main.py` and `dashboard/`: presentation.
- Loading of settings and the base64 and signature checks of images.
- Diagnostics, latencies, timestamps, request ids and logging, apart from the attempts, the audit reference and the selected provider.
- Floating point: rounding, infinities and NaN in scores, costs and times.
- The scheduler itself: fairness, and the delay between a timeout and its cancellation.
- Health endpoints, and the report built from start-up verification.
- `PolicyRepository.list`, reason texts of rankings, capability descriptions, workload classes.
- The control-plane repositories inside a request: each round is given the policies it finds active, and `Audit` relates an audit entry to the repositories that held them.
- The shared audit log inside a request: the reference a request appends is kept with the request.
- A provider reported as disabled at dispatch: it is one of the arbitrary replies rather than read from the registry again.
- Registry changes while a request is suspended.
- `models_endpoint`: an endpoint it rejects is one of the failures a catalog load may return.
