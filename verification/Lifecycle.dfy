/** The vocabulary of one request's life: what it asks, meets, records and answers. */
module Lifecycle {
  import opened Common
  import opened Schemas
  import opened Registry
  import opened ControlPlane
  import opened Pipeline
  import opened Conversation
  import opened CircuitSystem
  import opened Backends
  import opened CallSites

  datatype RequestError =
    | ConversationNotFound
    | InvalidRequest
    | GovernanceDenied
    | PolicyNotFound
    | RouterFailure
    | ProviderFailure
    | GatewayFailure
    | DeadlineExceeded
    | RequestCancelled
    | Internal

  datatype RoutingResponse = RoutingResponse(conversationId: string, action: RouterAction, response: string)

  type Reply = Result<RoutingResponse, RequestError>

  const STOP_MESSAGE := "Unable to produce a better response."
  const CLARIFY_MESSAGE := "Could you clarify what you would like help with?"

  /** A request as it arrives: V1 names no tenant, V2 does. */
  datatype Inbound = Inbound(chat: ChatRequest, tenant: Option<string>, context: RoutingContext)
  {
    function Key(): Key {
      Conversation.Key(if tenant.Some? then tenant.value else "legacy", chat.conversationId)
    }
  }

  /** The moments at which a request compares the clock with its deadline. */
  datatype ClockPoint = BeforeCandidate(index: nat) | OnCancelled(index: nat) | BeforeCommit(index: nat) | AtExit

  /** The policies active when a round resolves its candidates; a named policy may not exist. */
  datatype PlaneView = PlaneView(governance: GovernancePolicy, policy: Option<PolicyDefinition>)

  /**
   Everything outside the engine's control, as arbitrary functions: what every POST of every
   router attempt and every provider call returns, what the gateway makes of a response (or
   that it fails), when the deadline has passed, and which policies each round finds active.
   */
  datatype Script = Script(
    firstPost: nat -> PostReply,
    repairPost: nat -> PostReply,
    generate: nat -> GenerateReply,
    gateway: string -> Option<string>,
    late: ClockPoint -> bool,
    plane: nat -> PlaneView)

  /** One request being served; `alone` says that no other request works on its conversation. */
  datatype Session = Session(request: nat, inbound: Inbound, script: Script, alone: bool)
  {
    function Key(): Key {
      inbound.Key()
    }

    function Answer(response: string): RoutingResponse {
      RoutingResponse(inbound.chat.conversationId, ANSWER, response)
    }

    function Stopped(): RoutingResponse {
      RoutingResponse(inbound.chat.conversationId, STOP, STOP_MESSAGE)
    }

    function Clarified(): RoutingResponse {
      RoutingResponse(inbound.chat.conversationId, CLARIFY, CLARIFY_MESSAGE)
    }
  }

  /** What every request of an engine is served with. */
  datatype Site =
    Site(maxAttempts: nat, controlled: bool, reg: seq<ProviderConfig>, primary: Backend, fallback: Backend)
  {
    function Tier(primaryTier: bool): Backend {
      if primaryTier then primary else fallback
    }

    predicate Governs(s: Session) {
      controlled && s.inbound.tenant.Some?
    }
  }

  // ---- The record, retried --------------------------------------------------------

  predicate HasAnswerer(r: Record) {
    r.lastProvider.Some? && r.lastProvider.value != ""
  }

  /** The first write of a retry: the last answerer is excluded. */
  function Excluding(r: Record): Record {
    if HasAnswerer(r) then r.(excludedProviders := AddOnce(r.excludedProviders, r.lastProvider.value)) else r
  }

  /** A retry, whether asked for by the user or by the router: exclude the last answerer, count one attempt. */
  function Retried(r: Record): Record {
    Excluding(r).(attemptCount := r.attemptCount + 1)
  }

  lemma CountedMeans(r: Record, x: Record)
    requires x == Excluding(r).(attemptCount := Excluding(r).attemptCount + 1)
    ensures x == Retried(r)
  {
  }

  /** A good record put in place of another leaves the store good. */
  lemma GoodAfter(records: map<Key, Record>, key: Key, r: Record)
    requires GoodRecords(records) && Good(r)
    ensures GoodRecords(records[key := r]) && key in records[key := r] && records[key := r][key] == r
  {
  }

  function RetriedTimes(r: Record, n: nat): Record {
    if n == 0 then r else Retried(RetriedTimes(r, n - 1))
  }

  lemma RetriedGood(r: Record)
    requires Good(r) && r.attemptCount < r.maxAttempts
    ensures Good(Retried(r))
  {
  }

  /**
   Between the two writes of a retry the stored record is a good one exactly if the last answerer
   was excluded before or an attempt was left over.
   */
  lemma GoodBetweenWritesIff(r: Record)
    requires Good(r) && HasAnswerer(r)
    ensures Good(Excluding(r))
            <==> r.lastProvider.value in r.excludedProviders || |r.excludedProviders| < r.attemptCount
  {
  }

  /** The first retry of a turn that was answered passes through such a state: one exclusion, no attempt counted yet. */
  lemma FirstRetryNotGoodBetweenWrites()
    ensures var r := Record("c1", "hello", Some("hi"), 0, 3, [], Some("g1"), false);
            && Good(r) && !Good(Excluding(r)) && Good(Retried(r))
            && Excluding(r).excludedProviders == ["g1"] && Excluding(r).attemptCount == 0
  {
    var r := Record("c1", "hello", Some("hi"), 0, 3, [], Some("g1"), false);
    assert |Excluding(r).excludedProviders| == 1;
  }

  lemma {:induction false} RetriedTimesCounts(r: Record, n: nat)
    ensures var x := RetriedTimes(r, n);
            x.attemptCount == r.attemptCount + n && x.maxAttempts == r.maxAttempts
  {
    if n > 0 {
      RetriedTimesCounts(r, n - 1);
    }
  }

  /** The turn can go no further: no attempt is left, or no provider. */
  predicate TurnOver(reg: seq<ProviderConfig>, x: Record) {
    x.attemptCount >= x.maxAttempts || AvailableForRouter(reg, x.excludedProviders) == []
  }

  /** The record a new message finds, or makes. */
  function FreshBase(maxAttempts: nat, inbound: Inbound, before: Option<Record>): Record {
    Begun(if before.Some? then before.value
          else NewRecord(inbound.chat.conversationId, inbound.chat.message, maxAttempts),
          inbound.chat.message, inbound.chat.hasImage)
  }

  lemma BegunGood(r: Record, message: string, hasImage: bool)
    ensures Good(Begun(r, message, hasImage)) && Begun(r, message, hasImage).conversationId == r.conversationId
  {
  }

  /** What a request comes to before it routes: it ends at once, with nothing written, or routes from a record. */
  datatype Opening = Ends(reply: Reply) | Routes(start: Record)

  function OpeningOf(site: Site, s: Session, before: Option<Record>): Opening {
    var chat := s.inbound.chat;
    if !chat.retry then Routes(FreshBase(site.maxAttempts, s.inbound, before))
    else if before.None? then Ends(Err(ConversationNotFound))
    else if before.value.hasImage && !chat.hasImage then Ends(Err(InvalidRequest))
    else
      var base := before.value.(hasImage := chat.hasImage);
      if TurnOver(site.reg, base) then Ends(Ok(s.Stopped())) else Routes(Retried(base))
  }

  // ---- Router attempts ------------------------------------------------------------

  /** A tier gave no usable decision if its circuit refused, it failed, or the validator rejects what it decided. */
  datatype TierOutcome =
    | TierCancelled
    | TierRefused
    | TierFailed(blocks: Option<Backend>)
    | TierInvalid
    | TierSucceeded(decision: RouterDecision)

  /** One tier asked, in a round, with the groups that round offered. */
  datatype RouterAttempt = RouterAttempt(round: nat, primary: bool, offered: seq<TaskGroup>, outcome: TierOutcome)

  predicate TierGaveUp(o: TierOutcome) {
    o.TierRefused? || o.TierFailed? || o.TierInvalid?
  }

  function TierOutcomeOf(reply: RouterReply, offered: seq<TaskGroup>, chat: ChatRequest): TierOutcome {
    match reply
    case Decided(d) =>
      if Validate(d, offered, chat.hasImage, chat.retry).Ok? then TierSucceeded(d) else TierInvalid
    case RouterFailed(blocks) => TierFailed(blocks)
    case RouterRefused => TierRefused
    case RouterCancelled => TierCancelled
  }

  /** What the POSTs of attempt `i` come to, if its circuit lets it through. */
  function VerdictAt(site: Site, s: Session, i: nat, primary: bool): Verdict {
    VerdictOf(site.Tier(primary), s.script.firstPost(i), s.script.repairPost(i))
  }

  /** The recorded outcome is what the replies and the validator make it, unless the circuit refused the call. */
  predicate TierGenuine(site: Site, s: Session, i: nat, a: RouterAttempt) {
    a.outcome == TierRefused
      || a.outcome == TierOutcomeOf(VerdictAt(site, s, i, a.primary).reply, a.offered, s.inbound.chat)
  }

  ghost predicate RoutersGenuine(site: Site, s: Session, attempts: seq<RouterAttempt>) {
    forall i :: 0 <= i < |attempts| ==> TierGenuine(site, s, i, attempts[i])
  }

  function PostsSent(site: Site, s: Session, attempts: seq<RouterAttempt>): nat {
    if attempts == [] then 0
    else
      var k := |attempts| - 1;
      PostsSent(site, s, attempts[..k]) +
      if attempts[k].outcome.TierRefused? then 0 else VerdictAt(site, s, k, attempts[k].primary).posts
  }

  lemma {:induction false} PostsBounded(site: Site, s: Session, attempts: seq<RouterAttempt>)
    ensures PostsSent(site, s, attempts) <= 2 * |attempts|
  {
    if attempts != [] {
      PostsBounded(site, s, attempts[..|attempts| - 1]);
    }
  }

  /** One attempt more, of which the router said `reply` after `posts` POSTs. */
  lemma RouterRecorded(site: Site, s: Session, before: seq<RouterAttempt>, a: RouterAttempt, reply: RouterReply,
                       posts: nat)
    requires RoutersGenuine(site, s, before)
    requires a.outcome == TierOutcomeOf(reply, a.offered, s.inbound.chat)
    requires reply == RouterRefused || reply == VerdictAt(site, s, |before|, a.primary).reply
    requires posts == if reply == RouterRefused then 0 else VerdictAt(site, s, |before|, a.primary).posts
    ensures RoutersGenuine(site, s, before + [a])
    ensures PostsSent(site, s, before + [a]) == PostsSent(site, s, before) + posts
  {
    hide VerdictAt, Validate;
    assert (before + [a])[..|before|] == before;
  }

  /** The decision that the given number of rounds ended with, if the last of them came to one. */
  function LastDecision(attempts: seq<RouterAttempt>, rounds: nat): Option<RouterDecision> {
    if attempts == [] then None
    else
      var last := attempts[|attempts| - 1];
      if last.round + 1 == rounds && last.outcome.TierSucceeded? then Some(last.outcome.decision) else None
  }

  const RETRY_DECISION := RouterDecision(RETRY, None)

  /**
   The shape of a request's router attempts: rounds begin at the primary tier and ask the fallback
   exactly if the primary gave up; a round follows another only if that one decided RETRY.
   */
  ghost predicate LadderShape(attempts: seq<RouterAttempt>) {
    forall i :: 0 <= i < |attempts| ==> Climbs(attempts, i)
  }

  predicate Climbs(attempts: seq<RouterAttempt>, i: nat)
    requires i < |attempts|
  {
    && (if attempts[i].primary then
          if i == 0 then attempts[i].round == 0
          else
            && attempts[i - 1].outcome == TierSucceeded(RETRY_DECISION)
            && attempts[i].round == attempts[i - 1].round + 1
        else
          && i > 0 && attempts[i - 1].primary && attempts[i - 1].round == attempts[i].round
          && TierGaveUp(attempts[i - 1].outcome))
    && (attempts[i].primary && TierGaveUp(attempts[i].outcome) ==> i + 1 < |attempts| && !attempts[i + 1].primary)
  }

  /** What the ladder of one round adds: the primary tier, then the fallback exactly if that gave up. */
  ghost predicate LadderClimbed(round: nat, offered: seq<TaskGroup>, climbed: seq<RouterAttempt>,
                                r: Result<RouterDecision, RequestError>)
  {
    && 1 <= |climbed| <= 2 && climbed[0].primary
    && (forall i :: 0 <= i < |climbed| ==> climbed[i].round == round && climbed[i].offered == offered)
    && (|climbed| == 2 <==> TierGaveUp(climbed[0].outcome)) && (|climbed| == 2 ==> !climbed[1].primary)
    && r == match climbed[|climbed| - 1].outcome
            case TierSucceeded(d) => Ok(d)
            case TierCancelled => Err(RequestCancelled)
            case _ => Err(RouterFailure)
  }

  /** A further round may begin: none has, or the last one decided RETRY. */
  predicate MayBegin(attempts: seq<RouterAttempt>, rounds: nat) {
    if rounds == 0 then attempts == [] else LastDecision(attempts, rounds) == Some(RETRY_DECISION)
  }

  lemma LadderAppended(before: seq<RouterAttempt>, climbed: seq<RouterAttempt>, round: nat, offered: seq<TaskGroup>,
                       r: Result<RouterDecision, RequestError>)
    requires LadderShape(before) && MayBegin(before, round) && LadderClimbed(round, offered, climbed, r)
    ensures LadderShape(before + climbed)
    ensures r.Ok? ==> LastDecision(before + climbed, round + 1) == Some(r.value)
    ensures r.Err? ==> LastDecision(before + climbed, round + 1) == None
  {
    var all, n := before + climbed, |before|;
    forall i | 0 <= i < |all| ensures Climbs(all, i) {
      if i < n {
        assert Climbs(before, i);
      } else {
        assert all[i] == climbed[i - n] && all[n] == climbed[0];
      }
    }
  }

  // ---- Provider attempts ----------------------------------------------------------

  datatype AttemptOutcome =
    | SkippedAuth
    | SkippedDeadline
    | AttemptCancelled
    | AttemptRefused
    | AttemptFailed(blocksBackend: bool)
    | AttemptCrashed
    | AttemptSucceeded

  datatype ProviderAttempt = ProviderAttempt(providerId: string, backend: Backend, outcome: AttemptOutcome)

  /** The attempt ended without a verdict on the request: the loop went on to the next candidate. */
  predicate Passed(a: ProviderAttempt) {
    a.outcome.SkippedAuth? || a.outcome.AttemptRefused? || a.outcome.AttemptFailed?
  }

  /** The candidate was really dispatched to. */
  predicate Dispatched(a: ProviderAttempt) {
    !a.outcome.SkippedAuth? && !a.outcome.SkippedDeadline?
  }

  function AttemptOutcomeOf(reply: DispatchReply): AttemptOutcome {
    match reply
    case Responded(_) => AttemptSucceeded
    case Unavailable(blocks) => AttemptFailed(blocks)
    case CircuitOpen => AttemptRefused
    case Cancelled => AttemptCancelled
    case Unexpected => AttemptCrashed
  }

  /** The recorded outcome is what the provider's reply makes it, unless its backend's circuit refused the call. */
  predicate AttemptGenuine(generate: GenerateReply, outcome: AttemptOutcome) {
    outcome == AttemptRefused || outcome == AttemptOutcomeOf(DispatchReplyOf(generate))
  }

  /** The backends that router tiers reported as refusing this request's credentials. */
  function BlockedByRouters(attempts: seq<RouterAttempt>): set<Backend> {
    if attempts == [] then {}
    else BlockedByRouters(attempts[..|attempts| - 1]) + BlockedBy(attempts[|attempts| - 1].outcome)
  }

  function BlockedBy(o: TierOutcome): set<Backend> {
    match o
    case TierFailed(Some(b)) => {b}
    case _ => {}
  }

  lemma BlockedByNone()
    ensures BlockedByRouters([]) == {}
  {
  }

  /** The blocked set after the given attempts, starting from `blocked`. */
  function BlockedAfter(blocked: set<Backend>, attempts: seq<ProviderAttempt>): set<Backend> {
    if attempts == [] then blocked
    else
      var last := attempts[|attempts| - 1];
      BlockedAfter(blocked, attempts[..|attempts| - 1])
      + if last.outcome == AttemptFailed(true) then {last.backend} else {}
  }

  lemma BlockedAppend(blocked: set<Backend>, attempts: seq<ProviderAttempt>, a: ProviderAttempt)
    ensures BlockedAfter(blocked, attempts + [a])
            == BlockedAfter(blocked, attempts) + if a.outcome == AttemptFailed(true) then {a.backend} else {}
  {
    assert (attempts + [a])[..|attempts|] == attempts;
  }

  lemma {:induction false} BlockedGrows(blocked: set<Backend>, attempts: seq<ProviderAttempt>, i: nat, j: nat)
    requires i <= j <= |attempts|
    ensures BlockedAfter(blocked, attempts[..i]) <= BlockedAfter(blocked, attempts[..j])
  {
    if i < j {
      BlockedGrows(blocked, attempts, i, j - 1);
      assert attempts[..j][..j - 1] == attempts[..j - 1];
    }
  }

  lemma {:induction false} RouterBlockedConcat(a: seq<RouterAttempt>, b: seq<RouterAttempt>)
    ensures BlockedByRouters(a + b) == BlockedByRouters(a) + BlockedByRouters(b)
    decreases |b|
  {
    if b == [] {
      assert a + b == a;
    } else {
      assert (a + b)[..|a + b| - 1] == a + b[..|b| - 1];
      RouterBlockedConcat(a, b[..|b| - 1]);
    }
  }

  // ---- What the circuits note of a request ----------------------------------------

  /** Router attempt `i` is call `i` of its request: refused, or made and settled once. */
  function RouterMarks(site: Site, s: Session, i: nat, a: RouterAttempt): seq<Mark> {
    var id := CallId(s.request, i);
    if a.outcome.TierRefused? then RefusedMarks(id) else MadeMarks(id, VerdictAt(site, s, i, a.primary).outcome)
  }

  function RoutersNoted(account: map<Backend, seq<Mark>>, site: Site, s: Session, routers: seq<RouterAttempt>)
    : map<Backend, seq<Mark>>
  {
    if routers == [] then account
    else
      var k := |routers| - 1;
      Added(RoutersNoted(account, site, s, routers[..k]), site.Tier(routers[k].primary),
            RouterMarks(site, s, k, routers[k]))
  }

  /** So is provider attempt `j`, as the call of that number after the router calls; a skipped one is no call. */
  function AttemptMarks(s: Session, calls: nat, j: nat, a: ProviderAttempt): seq<Mark> {
    var id := CallId(s.request, calls + j);
    if !Dispatched(a) then []
    else if a.outcome.AttemptRefused? then RefusedMarks(id)
    else MadeMarks(id, DispatchOutcome(s.script.generate(j)))
  }

  function AttemptsNoted(account: map<Backend, seq<Mark>>, s: Session, calls: nat, attempts: seq<ProviderAttempt>)
    : map<Backend, seq<Mark>>
  {
    if attempts == [] then account
    else
      var k := |attempts| - 1;
      Added(AttemptsNoted(account, s, calls, attempts[..k]), attempts[k].backend,
            AttemptMarks(s, calls, k, attempts[k]))
  }

  /** The account a request leaves behind, having found `account`: its attempts' marks and nothing else. */
  function Noted(account: map<Backend, seq<Mark>>, site: Site, s: Session, routers: seq<RouterAttempt>,
                 attempts: seq<ProviderAttempt>): map<Backend, seq<Mark>>
  {
    AttemptsNoted(RoutersNoted(account, site, s, routers), s, |routers|, attempts)
  }

  /** A tier notes what its recorded outcome says it noted. */
  lemma TierMarks(site: Site, s: Session, i: nat, a: RouterAttempt, reply: RouterReply)
    requires a.outcome == TierOutcomeOf(reply, a.offered, s.inbound.chat)
    requires reply == RouterRefused || reply == VerdictAt(site, s, i, a.primary).reply
    ensures RouterMarks(site, s, i, a) == if reply == RouterRefused then RefusedMarks(CallId(s.request, i))
                                          else MadeMarks(CallId(s.request, i), VerdictAt(site, s, i, a.primary).outcome)
    ensures reply == RouterRefused ==> a.outcome == TierRefused
  {
    hide Validate;
  }

  lemma NotedNothing(account: map<Backend, seq<Mark>>, site: Site, s: Session)
    ensures Noted(account, site, s, [], []) == account
  {
  }

  lemma RouterNoted(account: map<Backend, seq<Mark>>, site: Site, s: Session, routers: seq<RouterAttempt>,
                    a: RouterAttempt)
    ensures Noted(account, site, s, routers + [a], [])
            == Added(Noted(account, site, s, routers, []), site.Tier(a.primary), RouterMarks(site, s, |routers|, a))
  {
    assert (routers + [a])[..|routers|] == routers;
  }

  lemma AttemptNoted(account: map<Backend, seq<Mark>>, site: Site, s: Session, routers: seq<RouterAttempt>,
                     attempts: seq<ProviderAttempt>, a: ProviderAttempt)
    ensures Noted(account, site, s, routers, attempts + [a])
            == Added(Noted(account, site, s, routers, attempts), a.backend, AttemptMarks(s, |routers|, |attempts|, a))
  {
    assert (attempts + [a])[..|attempts|] == attempts;
  }

  /** Skipped candidates are no calls. */
  lemma {:induction false} SkippedNoted(account: map<Backend, seq<Mark>>, site: Site, s: Session,
                                        routers: seq<RouterAttempt>, before: seq<ProviderAttempt>,
                                        after: seq<ProviderAttempt>)
    requires before <= after && forall i :: |before| <= i < |after| ==> !Dispatched(after[i])
    ensures Noted(account, site, s, routers, after) == Noted(account, site, s, routers, before)
    decreases |after|
  {
    if before != after {
      var n := |after| - 1;
      SkippedNoted(account, site, s, routers, before, after[..n]);
      AddedNone(AttemptsNoted(RoutersNoted(account, site, s, routers), s, |routers|, after[..n]), after[n].backend);
    }
  }

  /** A dispatch notes what its recorded outcome says it noted. */
  lemma DispatchMarks(s: Session, calls: nat, j: nat, a: ProviderAttempt, refused: bool)
    requires a.outcome == AttemptOutcomeOf(if refused then CircuitOpen else DispatchReplyOf(s.script.generate(j)))
    ensures AttemptMarks(s, calls, j, a) == (if refused then RefusedMarks(CallId(s.request, calls + j))
                                             else MadeMarks(CallId(s.request, calls + j),
                                                            DispatchOutcome(s.script.generate(j))))
    ensures AttemptGenuine(s.script.generate(j), a.outcome) && Dispatched(a)
  {
  }

  // ---- One round ------------------------------------------------------------------

  /** The ids a round may use: what the control plane resolves, or all that are available without one. */
  function AllowedIds(site: Site, s: Session, round: nat, excluded: seq<string>): Result<seq<string>, RequestError> {
    var view := s.script.plane(round);
    if !site.Governs(s) then Ok(AvailableForRouter(site.reg, excluded))
    else if view.policy.None? then Err(PolicyNotFound)
    else Ok(Resolved(site.reg, view.governance, view.policy.value.kind, s.inbound.context, excluded))
  }

  /** The groups a round offers its routers. */
  function GroupsOf(site: Site, s: Session, round: nat, excluded: seq<string>): seq<TaskGroup> {
    match AllowedIds(site, s, round, excluded)
    case Ok(ids) => AvailableTaskGroups(site.reg, Some(ids), s.inbound.chat.hasImage)
    case Err(_) => []
  }

  function ChainOf(site: Site, s: Session, excluded: seq<string>, allowed: seq<string>, group: TaskGroup)
    : seq<ProviderConfig>
  {
    CandidatesFor(site.reg, ChainQuery(group, s.inbound.chat.hasImage, excluded, Some(allowed)), s.inbound.tenant.Some?)
  }

  /** The validator let this decision through, given what the round offered. */
  predicate Accepted(site: Site, s: Session, round: nat, excluded: seq<string>, d: RouterDecision) {
    Validate(d, GroupsOf(site, s, round, excluded), s.inbound.chat.hasImage, s.inbound.chat.retry) == Ok(d)
  }

  /** `chain` is what a validated round dispatches along. */
  ghost predicate RoundChain(site: Site, s: Session, round: nat, excluded: seq<string>, group: TaskGroup,
                             chain: seq<ProviderConfig>)
  {
    var allowed := AllowedIds(site, s, round, excluded);
    && allowed.Ok? && Accepted(site, s, round, excluded, RouterDecision(ANSWER, Some(group)))
    && chain == ChainOf(site, s, excluded, allowed.value, group)
  }

  /** What the validator's schema makes of a decision it let through. */
  lemma DecisionMeans(site: Site, s: Session, round: nat, excluded: seq<string>, d: RouterDecision)
    requires Accepted(site, s, round, excluded, d)
    ensures d.action == ANSWER <==> d.taskGroup.Some?
    ensures d.action == RETRY ==> s.inbound.chat.retry
    ensures d.action == RETRY <==> d == RETRY_DECISION
    ensures d.action != ANSWER ==> d == RouterDecision(d.action, None)
    ensures d.action == ANSWER ==> d == RouterDecision(ANSWER, d.taskGroup)
  {
  }

  lemma ChainMeans(site: Site, s: Session, round: nat, excluded: seq<string>, allowed: seq<string>, group: TaskGroup,
                   chain: seq<ProviderConfig>)
    requires AllowedIds(site, s, round, excluded) == Ok(allowed)
    requires Accepted(site, s, round, excluded, RouterDecision(ANSWER, Some(group)))
    requires chain
             == CandidatesFor(site.reg, ChainQuery(group, s.inbound.chat.hasImage, excluded, Some(allowed)),
                              s.inbound.tenant.Some?)
    ensures RoundChain(site, s, round, excluded, group, chain)
  {
  }

  /** No round dispatches along an empty or repeating chain, and none reaches an excluded provider. */
  lemma RoundChainFacts(site: Site, s: Session, round: nat, excluded: seq<string>, group: TaskGroup,
                        chain: seq<ProviderConfig>)
    requires WellListed(site.reg) && RoundChain(site, s, round, excluded, group, chain)
    ensures chain != [] && WellListed(chain)
    ensures forall i :: 0 <= i < |chain| ==> Find(site.reg, chain[i].id) == Some(chain[i])
    ensures forall p :: p in chain ==> p in site.reg && p.enabled && p.id !in excluded && p.taskGroup == group
    ensures s.inbound.chat.hasImage ==> group == MULTIMODAL && forall p :: p in chain ==> p.acceptsImages
  {
    var chat, reg := s.inbound.chat, site.reg;
    var allowed, view := AllowedIds(site, s, round, excluded).value, s.script.plane(round);
    if site.Governs(s) {
      ResolvedFacts(reg, view.governance, view.policy.value.kind, s.inbound.context, excluded);
    } else {
      AvailableRegistered(reg, excluded);
    }
    var q := ChainQuery(group, chat.hasImage, excluded, Some(allowed));
    ValidatedAnswerHasCandidate(reg, RouterDecision(ANSWER, Some(group)), chat.hasImage, chat.retry, excluded, allowed,
                                s.inbound.tenant.Some?);
    CandidatesMembers(reg, q, s.inbound.tenant.Some?);
    CandidatesDistinct(reg, q, s.inbound.tenant.Some?);
    forall i | 0 <= i < |chain| ensures Find(reg, chain[i].id) == Some(chain[i]) {
      assert chain[i] in chain;
      FindRegistered(reg, chain[i]);
    }
  }

  /** Every provider a governed round may dispatch to passed that round's own governance snapshot. */
  lemma GovernedRoundIsEligible(site: Site, s: Session, round: nat, excluded: seq<string>, group: TaskGroup,
                                chain: seq<ProviderConfig>)
    requires WellListed(site.reg) && RoundChain(site, s, round, excluded, group, chain) && site.Governs(s)
    ensures var view := s.script.plane(round);
            && view.policy.Some? && ScoresNonIncreasing(view.policy.value.kind, site.reg, Ids(chain))
            && forall p :: p in chain ==>
                 EligibleFor(site.reg, view.governance, s.inbound.context, excluded, s.inbound.chat.hasImage, group, p)
  {
    var view, chat := s.script.plane(round), s.inbound.chat;
    ChainIsEligible(site.reg, view.governance, view.policy.value.kind, s.inbound.context, excluded, chat.hasImage,
                    chat.retry, RouterDecision(ANSWER, Some(group)));
    ChainScoresNonIncreasing(site.reg, view.governance, view.policy.value.kind, s.inbound.context, excluded, group,
                             chat.hasImage);
  }

  // ---- The audit ------------------------------------------------------------------

  /** The reference names the request, the policies its round found, and the candidate set they resolve to. */
  ghost predicate AuditedAs(site: Site, s: Session, round: nat, excluded: seq<string>, a: PolicyAuditReference) {
    var view := s.script.plane(round);
    && view.policy.Some?
    && var ids := Resolved(site.reg, view.governance, view.policy.value.kind, s.inbound.context, excluded);
       && a == PolicyAuditReference(s.request, s.Key().tenantId, view.policy.value.policyId, view.policy.value.version,
                                    view.governance.policyId, view.governance.version, ids, a.exclusions,
                                    Rankings(view.policy.value.kind, site.reg, ids))
       && Split(view.governance, s.inbound.context, site.reg, AvailableForRouter(site.reg, excluded),
                EligibleIds(site.reg, view.governance, s.inbound.context, excluded), a.exclusions)
  }

  /** One round's effect on what the request has audited: its first candidate set is entered, no later one. */
  ghost predicate AuditStep(site: Site, s: Session, round: nat, excluded: seq<string>,
                            before: seq<PolicyAuditReference>, after: seq<PolicyAuditReference>)
  {
    if before == [] && site.Governs(s) && s.script.plane(round).policy.Some? then
      |after| == 1 && AuditedAs(site, s, round, excluded, after[0])
    else after == before
  }

  /** What a request that began `rounds` rounds has audited: what its first round resolved, if anything. */
  ghost predicate FirstRoundAudited(site: Site, s: Session, excluded: seq<string>, rounds: nat,
                                    audited: seq<PolicyAuditReference>)
  {
    if rounds == 0 then audited == [] else AuditStep(site, s, 0, excluded, [], audited)
  }

  /** A further round, reached only once something is audited, audits nothing more. */
  lemma FirstRoundStaysAudited(site: Site, s: Session, first: seq<string>, excluded: seq<string>, rounds: nat,
                               before: seq<PolicyAuditReference>, after: seq<PolicyAuditReference>)
    requires FirstRoundAudited(site, s, first, rounds, before) && AuditStep(site, s, rounds, excluded, before, after)
    requires if rounds == 0 then excluded == first else site.Governs(s) ==> before != []
    ensures FirstRoundAudited(site, s, first, rounds + 1, after)
  {
  }
}
