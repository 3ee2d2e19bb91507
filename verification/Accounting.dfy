/** What every request leaves behind: an account of its rounds, its attempts, its reply and its record. */
module Accounting {
  import opened Common
  import opened Schemas
  import opened Registry
  import opened ControlPlane
  import opened Pipeline
  import opened Conversation
  import opened CallSites
  import opened Lifecycle

  /** The router side of a request: rounds begun, POSTs sent, tiers asked, references audited. */
  datatype Ladder = Ladder(rounds: nat, posts: nat, routers: seq<RouterAttempt>, audited: seq<PolicyAuditReference>)
  {
    /** Every round but the last ended in RETRY; the last one may have. */
    function Retries(): nat {
      if rounds == 0 then 0 else if LastDecision(routers, rounds) == Some(RETRY_DECISION) then rounds else rounds - 1
    }
  }

  /** The provider side: the decided group, the chain, the attempts along it, and who responded. */
  datatype Phase = Phase(group: Option<TaskGroup>, chain: seq<ProviderConfig>, attempts: seq<ProviderAttempt>,
                         selected: Option<string>)

  const NO_LADDER := Ladder(0, 0, [], [])
  const NO_PHASE := Phase(None, [], [], None)

  predicate Answered(r: Reply) {
    r.Ok? && r.value.action == ANSWER
  }

  // ---- The provider loop ----------------------------------------------------------

  /**
   `a` may come after `attempts`: it is for the next provider of the chain, skipped exactly if
   its backend is blocked by now, else with the outcome the provider's reply makes it, and,
   unless skipped for the deadline, begun before the deadline.
   */
  ghost predicate Extends(blocked: set<Backend>, chain: seq<ProviderConfig>, attempts: seq<ProviderAttempt>,
                          a: ProviderAttempt, s: Session)
  {
    && |attempts| < |chain| && a.providerId == chain[|attempts|].id && a.backend == chain[|attempts|].backend
    && (a.outcome.SkippedAuth? ==> a.backend in BlockedAfter(blocked, attempts))
    && (Dispatched(a) ==>
          a.backend !in BlockedAfter(blocked, attempts) && AttemptGenuine(s.script.generate(|attempts|), a.outcome))
    && (!a.outcome.SkippedDeadline? ==> !s.script.late(BeforeCandidate(|attempts|)))
  }

  /** Attempts follow the chain from its head, one each; exactly the unblocked are dispatched to. */
  ghost predicate FollowsChain(blocked: set<Backend>, chain: seq<ProviderConfig>, attempts: seq<ProviderAttempt>,
                               s: Session)
  {
    |attempts| <= |chain| && forall i :: 0 <= i < |attempts| ==> Extends(blocked, chain, attempts[..i], attempts[i], s)
  }

  ghost predicate AllPassed(attempts: seq<ProviderAttempt>) {
    forall i :: 0 <= i < |attempts| ==> Passed(attempts[i])
  }

  /** The last attempt, and no earlier one, got a response. */
  ghost predicate RespondedLast(attempts: seq<ProviderAttempt>) {
    attempts != [] && attempts[|attempts| - 1].outcome.AttemptSucceeded? && AllPassed(attempts[..|attempts| - 1])
  }

  ghost predicate CrashedLast(attempts: seq<ProviderAttempt>) {
    attempts != [] && attempts[|attempts| - 1].outcome.AttemptCrashed? && AllPassed(attempts[..|attempts| - 1])
  }

  /** Attempt `c` was cancelled; if the deadline caused it, every later candidate is accounted for as skipped. */
  ghost predicate CancelledAt(c: nat, chain: seq<ProviderConfig>, attempts: seq<ProviderAttempt>, deadline: bool) {
    && c < |attempts| && attempts[c].outcome.AttemptCancelled? && AllPassed(attempts[..c])
    && (forall i :: c < i < |attempts| ==> attempts[i].outcome.SkippedDeadline?)
    && |attempts| == if deadline then |chain| else c + 1
  }

  /** What the gateway and then the clock make of the response to attempt `i`. */
  predicate DeliveredAs(s: Session, i: nat, r: Reply) {
    && s.script.generate(i).Generated?
    && r == match s.script.gateway(s.script.generate(i).response)
            case None => Err(GatewayFailure)
            case Some(clean) => if s.script.late(BeforeCommit(i)) then Err(DeadlineExceeded) else Ok(s.Answer(clean))
  }

  /** How the attempts end, for each way the provider loop can. */
  ghost predicate LoopEnded(r: Reply, chain: seq<ProviderConfig>, attempts: seq<ProviderAttempt>, s: Session) {
    match r
    case Ok(_) => RespondedLast(attempts) && DeliveredAs(s, |attempts| - 1, r)
    case Err(GatewayFailure) => RespondedLast(attempts) && DeliveredAs(s, |attempts| - 1, r)
    case Err(ProviderFailure) => |attempts| == |chain| && AllPassed(attempts)
    case Err(Internal) => CrashedLast(attempts)
    case Err(RequestCancelled) => exists c :: CancelledAt(c, chain, attempts, s.script.late(OnCancelled(c)))
    case Err(DeadlineExceeded) =>
      || (RespondedLast(attempts) && DeliveredAs(s, |attempts| - 1, r))
      || (AllPassed(attempts) && |attempts| < |chain| && s.script.late(BeforeCandidate(|attempts|)))
    case _ => false
  }

  /** Who responded, if anyone did. */
  function SelectedBy(attempts: seq<ProviderAttempt>): Option<string> {
    if attempts != [] && attempts[|attempts| - 1].outcome.AttemptSucceeded?
      then Some(attempts[|attempts| - 1].providerId) else None
  }

  lemma NothingAttempted(blocked: set<Backend>, chain: seq<ProviderConfig>, s: Session)
    ensures FollowsChain(blocked, chain, [], s) && AllPassed([]) && BlockedAfter(blocked, []) == blocked
            && SelectedBy([]) == None
  {
  }

  lemma FollowsChainAppend(blocked: set<Backend>, chain: seq<ProviderConfig>, attempts: seq<ProviderAttempt>,
                           a: ProviderAttempt, s: Session)
    requires FollowsChain(blocked, chain, attempts, s) && Extends(blocked, chain, attempts, a, s)
    ensures FollowsChain(blocked, chain, attempts + [a], s)
  {
    var more := attempts + [a];
    forall i | 0 <= i < |more| ensures more[..i] == if i < |attempts| then attempts[..i] else attempts {
    }
  }

  lemma EndsLate(chain: seq<ProviderConfig>, attempts: seq<ProviderAttempt>, s: Session)
    requires AllPassed(attempts) && |attempts| < |chain| && s.script.late(BeforeCandidate(|attempts|))
    ensures LoopEnded(Err(DeadlineExceeded), chain, attempts, s) && SelectedBy(attempts) == None
  {
  }

  lemma EndsExhausted(chain: seq<ProviderConfig>, attempts: seq<ProviderAttempt>, s: Session)
    requires AllPassed(attempts) && |attempts| == |chain|
    ensures LoopEnded(Err(ProviderFailure), chain, attempts, s) && SelectedBy(attempts) == None
  {
  }

  lemma EndsAborted(chain: seq<ProviderConfig>, attempts: seq<ProviderAttempt>, s: Session, index: nat, cancelled: bool)
    requires if cancelled then CancelledAt(index, chain, attempts, s.script.late(OnCancelled(index)))
             else CrashedLast(attempts)
    ensures LoopEnded(Err(if cancelled then RequestCancelled else Internal), chain, attempts, s)
            && SelectedBy(attempts) == None
  {
  }

  /** After a response: whose it was, and how the loop ended. */
  lemma EndsWithResponse(blocked: set<Backend>, chain: seq<ProviderConfig>, attempts: seq<ProviderAttempt>, s: Session,
                         r: Reply)
    requires FollowsChain(blocked, chain, attempts, s) && RespondedLast(attempts) && DeliveredAs(s, |attempts| - 1, r)
    ensures LoopEnded(r, chain, attempts, s) && SelectedBy(attempts) == Some(chain[|attempts| - 1].id)
    ensures r.Ok? ==> Answered(r)
  {
    var last := |attempts| - 1;
    assert Extends(blocked, chain, attempts[..last], attempts[last], s);
  }

  function IdsOf(attempts: seq<ProviderAttempt>): seq<string> {
    Map(attempts, (a: ProviderAttempt) => a.providerId)
  }

  /** The attempts name a prefix of the chain, in its order, each provider once. */
  lemma AttemptsArePrefix(blocked: set<Backend>, chain: seq<ProviderConfig>, attempts: seq<ProviderAttempt>, s: Session)
    requires FollowsChain(blocked, chain, attempts, s) && WellListed(chain)
    ensures IdsOf(attempts) <= Ids(chain) && Distinct(IdsOf(attempts))
  {
    var ids := IdsOf(attempts);
    forall i | 0 <= i < |attempts| ensures ids[i] == chain[i].id {
      assert Extends(blocked, chain, attempts[..i], attempts[i], s);
    }
  }

  // ---- Refused credentials --------------------------------------------------------

  /** Some earlier attempt of the request is recorded as refusing its credentials on `b`. */
  ghost predicate Reported(routers: seq<RouterAttempt>, attempts: seq<ProviderAttempt>, b: Backend) {
    || (exists i :: 0 <= i < |routers| && routers[i].outcome == TierFailed(Some(b)))
    || (exists j :: 0 <= j < |attempts| && attempts[j].outcome == AttemptFailed(true) && attempts[j].backend == b)
  }

  /** Router call `i`, let through by its circuit, had its deciding POST answered on `b` by a refusal of credentials. */
  predicate RouterRefusedOn(site: Site, s: Session, i: nat, a: RouterAttempt, b: Backend) {
    var last := DecidingPost(s.script.firstPost(i), s.script.repairPost(i));
    && a.outcome != TierRefused && b == (if a.primary then site.primary else site.fallback)
    && last.HttpFailed? && last.unauthorized
  }

  /** So was provider call `j`. */
  predicate ProviderRefusedOn(s: Session, j: nat, a: ProviderAttempt, b: Backend) {
    && Dispatched(a) && a.outcome != AttemptRefused && a.backend == b
    && s.script.generate(j).ProviderFailed? && s.script.generate(j).blocksBackend
  }

  /** Some earlier call of the request really was refused its credentials on `b`. */
  ghost predicate CredentialsRefused(site: Site, s: Session, routers: seq<RouterAttempt>,
                                     attempts: seq<ProviderAttempt>, b: Backend)
  {
    || (exists i :: 0 <= i < |routers| && RouterRefusedOn(site, s, i, routers[i], b))
    || (exists j :: 0 <= j < |attempts| && ProviderRefusedOn(s, j, attempts[j], b))
  }

  lemma {:induction false} BlockedByRoutersIff(routers: seq<RouterAttempt>, b: Backend)
    ensures b in BlockedByRouters(routers)
            <==> exists i :: 0 <= i < |routers| && routers[i].outcome == TierFailed(Some(b))
  {
    if routers != [] {
      BlockedByRoutersIff(routers[..|routers| - 1], b);
    }
  }

  lemma {:induction false} BlockedIffReported(routers: seq<RouterAttempt>, attempts: seq<ProviderAttempt>, b: Backend)
    ensures b in BlockedAfter(BlockedByRouters(routers), attempts) <==> Reported(routers, attempts, b)
  {
    if attempts == [] {
      BlockedByRoutersIff(routers, b);
    } else {
      BlockedIffReported(routers, attempts[..|attempts| - 1], b);
    }
  }

  lemma TierReportIsReal(site: Site, s: Session, i: nat, a: RouterAttempt, b: Backend)
    requires TierGenuine(site, s, i, a)
    ensures a.outcome == TierFailed(Some(b)) <==> RouterRefusedOn(site, s, i, a, b)
  {
    DecideReplies(site.Tier(a.primary), s.script.firstPost(i), s.script.repairPost(i));
    hide VerdictOf, Validate;
  }

  /** A backend is blocked by the routers of a request exactly if one of them was refused its credentials on it. */
  lemma BlockedByRoutersMeans(site: Site, s: Session, routers: seq<RouterAttempt>, b: Backend)
    requires RoutersGenuine(site, s, routers)
    ensures b in BlockedByRouters(routers)
            <==> exists i :: 0 <= i < |routers| && RouterRefusedOn(site, s, i, routers[i], b)
  {
    BlockedByRoutersIff(routers, b);
    forall i | 0 <= i < |routers|
      ensures routers[i].outcome == TierFailed(Some(b)) <==> RouterRefusedOn(site, s, i, routers[i], b)
    {
      TierReportIsReal(site, s, i, routers[i], b);
    }
  }

  lemma AttemptReportIsReal(s: Session, j: nat, a: ProviderAttempt, b: Backend)
    requires Dispatched(a) ==> AttemptGenuine(s.script.generate(j), a.outcome)
    ensures a.outcome == AttemptFailed(true) && a.backend == b <==> ProviderRefusedOn(s, j, a, b)
  {
  }

  lemma ReportedIffRefused(site: Site, s: Session, routers: seq<RouterAttempt>, attempts: seq<ProviderAttempt>,
                           b: Backend)
    requires RoutersGenuine(site, s, routers)
    requires forall j :: 0 <= j < |attempts| && Dispatched(attempts[j])
               ==> AttemptGenuine(s.script.generate(j), attempts[j].outcome)
    ensures Reported(routers, attempts, b) <==> CredentialsRefused(site, s, routers, attempts, b)
  {
    forall i | 0 <= i < |routers|
      ensures routers[i].outcome == TierFailed(Some(b)) <==> RouterRefusedOn(site, s, i, routers[i], b)
    {
      TierReportIsReal(site, s, i, routers[i], b);
    }
    forall j | 0 <= j < |attempts|
      ensures attempts[j].outcome == AttemptFailed(true) && attempts[j].backend == b
              <==> ProviderRefusedOn(s, j, attempts[j], b)
    {
      AttemptReportIsReal(s, j, attempts[j], b);
    }
  }

  /**
   A candidate is passed over for its credentials exactly when some earlier call of the same
   request, to a router in any round or to a provider, was refused them on the same backend.
   */
  lemma SkippedExactlyAfterRefusal(site: Site, s: Session, routers: seq<RouterAttempt>, chain: seq<ProviderConfig>,
                                   attempts: seq<ProviderAttempt>, k: nat)
    requires RoutersGenuine(site, s, routers) && FollowsChain(BlockedByRouters(routers), chain, attempts, s)
    requires k < |attempts| && !attempts[k].outcome.SkippedDeadline?
    ensures attempts[k].outcome.SkippedAuth?
            <==> CredentialsRefused(site, s, routers, attempts[..k], attempts[k].backend)
  {
    assert Extends(BlockedByRouters(routers), chain, attempts[..k], attempts[k], s);
    forall j | 0 <= j < |attempts[..k]| && Dispatched(attempts[..k][j])
      ensures AttemptGenuine(s.script.generate(j), attempts[..k][j].outcome)
    {
      assert Extends(BlockedByRouters(routers), chain, attempts[..j], attempts[j], s);
    }
    BlockedIffReported(routers, attempts[..k], attempts[k].backend);
    ReportedIffRefused(site, s, routers, attempts[..k], attempts[k].backend);
  }

  /** Skipped for credentials: exactly the attempts on a backend that had refused them. */
  ghost predicate SkipsOnlyRefused(site: Site, s: Session, routers: seq<RouterAttempt>, attempts: seq<ProviderAttempt>)
  {
    forall k :: 0 <= k < |attempts| && !attempts[k].outcome.SkippedDeadline? ==>
      (attempts[k].outcome.SkippedAuth? <==> CredentialsRefused(site, s, routers, attempts[..k], attempts[k].backend))
  }

  lemma SkipsExactlyAfterRefusals(site: Site, s: Session, routers: seq<RouterAttempt>, chain: seq<ProviderConfig>,
                                  attempts: seq<ProviderAttempt>)
    requires RoutersGenuine(site, s, routers) && FollowsChain(BlockedByRouters(routers), chain, attempts, s)
    ensures SkipsOnlyRefused(site, s, routers, attempts)
  {
    hide RoutersGenuine, FollowsChain, CredentialsRefused;
    forall k | 0 <= k < |attempts| && !attempts[k].outcome.SkippedDeadline?
      ensures attempts[k].outcome.SkippedAuth?
              <==> CredentialsRefused(site, s, routers, attempts[..k], attempts[k].backend)
    {
      SkippedExactlyAfterRefusal(site, s, routers, chain, attempts, k);
    }
  }

  // ---- Eligibility ----------------------------------------------------------------

  /** Every attempted provider is registered and meets every constraint on the request. */
  ghost predicate AllEligible(site: Site, s: Session, round: nat, excluded: seq<string>, group: TaskGroup,
                              attempts: seq<ProviderAttempt>)
  {
    forall i :: 0 <= i < |attempts| ==>
      var p := Find(site.reg, attempts[i].providerId);
      && p.Some?
      && EligibleFor(site.reg, s.script.plane(round).governance, s.inbound.context, excluded, s.inbound.chat.hasImage,
                     group, p.value)
  }

  lemma GovernedAttemptsAreEligible(site: Site, s: Session, round: nat, excluded: seq<string>, group: TaskGroup,
                                    chain: seq<ProviderConfig>, attempts: seq<ProviderAttempt>)
    requires WellListed(site.reg) && RoundChain(site, s, round, excluded, group, chain) && site.Governs(s)
    requires IdsOf(attempts) <= Ids(chain)
    ensures var view := s.script.plane(round);
            view.policy.Some? && ScoresNonIncreasing(view.policy.value.kind, site.reg, Ids(chain))
    ensures AllEligible(site, s, round, excluded, group, attempts)
  {
    GovernedRoundIsEligible(site, s, round, excluded, group, chain);
    RoundChainFacts(site, s, round, excluded, group, chain);
    hide RoundChain, EligibleFor, WellListed;
    var governance := s.script.plane(round).governance;
    forall i | 0 <= i < |attempts|
      ensures Find(site.reg, attempts[i].providerId).Some?
      ensures EligibleFor(site.reg, governance, s.inbound.context, excluded, s.inbound.chat.hasImage, group,
                          Find(site.reg, attempts[i].providerId).value)
    {
      assert IdsOf(attempts)[i] == Ids(chain)[i];
      assert chain[i] in chain;
    }
  }

  // ---- The rounds -----------------------------------------------------------------

  /** A round has somebody to offer its routers. */
  predicate Askable(site: Site, s: Session, round: nat, excluded: seq<string>) {
    AllowedIds(site, s, round, excluded).Ok? && AllowedIds(site, s, round, excluded).value != []
  }

  /** Each attempt was offered the groups of its round, which are of somebody, from the record as retried by then. */
  ghost predicate OffersTraced(site: Site, s: Session, start: Record, routers: seq<RouterAttempt>) {
    forall i :: 0 <= i < |routers| ==>
      var excluded := RetriedTimes(start, routers[i].round).excludedProviders;
      && routers[i].offered == GroupsOf(site, s, routers[i].round, excluded)
      && Askable(site, s, routers[i].round, excluded)
  }

  /** The last round begun is the one last asked in, or nobody was asked in it. */
  predicate LastRound(routers: seq<RouterAttempt>, rounds: nat) {
    rounds > 0 ==>
      (routers != [] && routers[|routers| - 1].round == rounds - 1) || MayBegin(routers, rounds - 1)
  }

  /**
   The rounds so far, routing having begun from `start`: the turn was not over when each began, each
   climbed the ladder with what its record let it offer, and one attempt was counted for each RETRY.
   */
  ghost predicate Counted(site: Site, s: Session, start: Record, l: Ladder) {
    && (forall k :: 0 <= k < l.rounds ==> !TurnOver(site.reg, RetriedTimes(start, k)))
    && (l.rounds == 0 ==> l.routers == []) && |l.routers| <= 2 * l.rounds && LastRound(l.routers, l.rounds)
    && (l.Retries() > 0 ==> s.inbound.chat.retry)
    && LadderShape(l.routers) && OffersTraced(site, s, start, l.routers)
    && RoutersGenuine(site, s, l.routers) && l.posts == PostsSent(site, s, l.routers)
    && FirstRoundAudited(site, s, start.excludedProviders, l.rounds, l.audited)
    && (site.Governs(s) && MayBegin(l.routers, l.rounds) && l.rounds > 0 ==> l.audited != [])
  }

  /** The record as retried in the rounds so far. */
  function Now(start: Record, l: Ladder): Record {
    RetriedTimes(start, l.Retries())
  }

  /** What one round adds, on record `x`: its tiers' attempts, if it got as far as asking them, and what they decide. */
  ghost predicate RoundTaken(site: Site, s: Session, x: Record, l: Ladder, m: Ladder,
                             r: Result<RouterDecision, RequestError>)
  {
    && m.rounds == l.rounds + 1 && l.routers <= m.routers
    && RoutersGenuine(site, s, m.routers) && m.posts == PostsSent(site, s, m.routers)
    && AuditStep(site, s, l.rounds, x.excludedProviders, l.audited, m.audited)
    && match AllowedIds(site, s, l.rounds, x.excludedProviders)
       case Err(e) => m.routers == l.routers && r == Err(e)
       case Ok(ids) =>
         if ids == [] then m.routers == l.routers && r == Err(GovernanceDenied)
         else LadderClimbed(l.rounds, GroupsOf(site, s, l.rounds, x.excludedProviders), m.routers[|l.routers|..], r)
  }

  lemma RoundTakenIf(site: Site, s: Session, x: Record, l: Ladder, m: Ladder, r: Result<RouterDecision, RequestError>)
    requires m.rounds == l.rounds + 1 && l.routers <= m.routers
    requires RoutersGenuine(site, s, m.routers) && m.posts == PostsSent(site, s, m.routers)
    requires AuditStep(site, s, l.rounds, x.excludedProviders, l.audited, m.audited)
    requires var allowed := AllowedIds(site, s, l.rounds, x.excludedProviders);
             if allowed.Err? || allowed.value == [] then
               m.routers == l.routers && r == Err(if allowed.Err? then allowed.error else GovernanceDenied)
             else LadderClimbed(l.rounds, GroupsOf(site, s, l.rounds, x.excludedProviders), m.routers[|l.routers|..], r)
    ensures RoundTaken(site, s, x, l, m, r)
  {
    hide RoutersGenuine, PostsSent, AuditStep, LadderClimbed, GroupsOf, AllowedIds;
  }

  /** A decision the ladder ended with is one the validator let through. */
  lemma DecisionAccepted(site: Site, s: Session, round: nat, excluded: seq<string>, routers: seq<RouterAttempt>, n: nat,
                         d: RouterDecision)
    requires RoutersGenuine(site, s, routers) && n <= |routers|
    requires LadderClimbed(round, GroupsOf(site, s, round, excluded), routers[n..], Ok(d))
    ensures Accepted(site, s, round, excluded, d)
  {
    hide GroupsOf, VerdictAt;
    var last := |routers| - 1;
    assert routers[n..][last - n] == routers[last];
    assert TierGenuine(site, s, last, routers[last]);
  }

  lemma CountedNone(site: Site, s: Session, start: Record)
    ensures Counted(site, s, start, NO_LADDER) && Now(start, NO_LADDER) == start && MayBegin([], 0)
  {
  }

  /** Why a round came to no decision. */
  ghost predicate NoDecision(site: Site, s: Session, excluded: seq<string>, round: nat, routers: seq<RouterAttempt>,
                             e: RequestError)
  {
    var n := |routers|;
    match e
    case PolicyNotFound => MayBegin(routers, round) && AllowedIds(site, s, round, excluded) == Err(PolicyNotFound)
    case GovernanceDenied => MayBegin(routers, round) && AllowedIds(site, s, round, excluded) == Ok([])
    case RouterFailure =>
      && n >= 2 && routers[n - 1].round == round && routers[n - 2].round == round
      && TierGaveUp(routers[n - 2].outcome) && TierGaveUp(routers[n - 1].outcome)
    case RequestCancelled => n >= 1 && routers[n - 1].round == round && routers[n - 1].outcome.TierCancelled?
    case _ => false
  }

  lemma OffersAppended(site: Site, s: Session, start: Record, before: seq<RouterAttempt>, climbed: seq<RouterAttempt>,
                       round: nat)
    requires OffersTraced(site, s, start, before)
    requires forall i :: 0 <= i < |climbed| ==>
               climbed[i].round == round
               && climbed[i].offered == GroupsOf(site, s, round, RetriedTimes(start, round).excludedProviders)
    requires Askable(site, s, round, RetriedTimes(start, round).excludedProviders)
    ensures OffersTraced(site, s, start, before + climbed)
  {
    hide GroupsOf, RetriedTimes, Askable;
  }

  /** What the end of the ladder says of the whole. */
  lemma LadderDecides(before: seq<RouterAttempt>, climbed: seq<RouterAttempt>, round: nat, offered: seq<TaskGroup>,
                      r: Result<RouterDecision, RequestError>)
    requires LadderShape(before) && MayBegin(before, round) && LadderClimbed(round, offered, climbed, r)
    ensures LadderShape(before + climbed) && |climbed| <= 2 && LastRound(before + climbed, round + 1)
    ensures LastDecision(before + climbed, round + 1) == if r.Ok? then Some(r.value) else None
    ensures r.Err? ==> forall site, s, excluded :: NoDecision(site, s, excluded, round, before + climbed, r.error)
  {
    LadderAppended(before, climbed, round, offered, r);
    var all, n := before + climbed, |before + climbed|;
    assert all[n - 1] == climbed[|climbed| - 1];
    assert |climbed| == 2 ==> all[n - 2] == climbed[0];
  }

  /** A round that asks nobody leaves the ladder as it was, and nothing decided. */
  lemma NobodyAsked(routers: seq<RouterAttempt>, round: nat)
    requires MayBegin(routers, round)
    ensures LastDecision(routers, round + 1) == None && LastRound(routers, round + 1)
  {
  }

  /** The tiers' side of one more round, on record `x`. */
  ghost predicate TiersCounted(site: Site, s: Session, start: Record, x: Record, l: Ladder, m: Ladder,
                               r: Result<RouterDecision, RequestError>)
  {
    && LadderShape(m.routers) && OffersTraced(site, s, start, m.routers) && |m.routers| <= |l.routers| + 2
    && LastDecision(m.routers, m.rounds) == (if r.Ok? then Some(r.value) else None)
    && LastRound(m.routers, m.rounds)
    && (r.Err? ==> NoDecision(site, s, x.excludedProviders, l.rounds, m.routers, r.error))
  }

  lemma TiersAsked(site: Site, s: Session, start: Record, x: Record, l: Ladder, m: Ladder,
                   r: Result<RouterDecision, RequestError>)
    requires LadderShape(l.routers) && OffersTraced(site, s, start, l.routers) && MayBegin(l.routers, l.rounds)
    requires x == RetriedTimes(start, l.rounds) && m.rounds == l.rounds + 1 && l.routers <= m.routers
    requires LadderClimbed(l.rounds, GroupsOf(site, s, l.rounds, x.excludedProviders), m.routers[|l.routers|..], r)
    requires Askable(site, s, l.rounds, x.excludedProviders)
    ensures TiersCounted(site, s, start, x, l, m, r)
  {
    var climbed := m.routers[|l.routers|..];
    assert m.routers == l.routers + climbed;
    hide LadderShape, OffersTraced, RetriedTimes, MayBegin, LastDecision, NoDecision, GroupsOf, Askable, LastRound;
    LadderDecides(l.routers, climbed, l.rounds, GroupsOf(site, s, l.rounds, x.excludedProviders), r);
    OffersAppended(site, s, start, l.routers, climbed, l.rounds);
  }

  lemma TiersNotAsked(site: Site, s: Session, start: Record, x: Record, l: Ladder, m: Ladder, e: RequestError)
    requires LadderShape(l.routers) && OffersTraced(site, s, start, l.routers) && MayBegin(l.routers, l.rounds)
    requires m.rounds == l.rounds + 1 && l.routers == m.routers
    requires NoDecision(site, s, x.excludedProviders, l.rounds, m.routers, e)
    ensures TiersCounted(site, s, start, x, l, m, Err(e))
  {
    hide LadderShape, OffersTraced, NoDecision, LastRound;
    NobodyAsked(l.routers, l.rounds);
  }

  lemma RoundCases(site: Site, s: Session, x: Record, l: Ladder, m: Ladder, r: Result<RouterDecision, RequestError>)
    requires RoundTaken(site, s, x, l, m, r) && MayBegin(l.routers, l.rounds)
    ensures
      || (&& LadderClimbed(l.rounds, GroupsOf(site, s, l.rounds, x.excludedProviders), m.routers[|l.routers|..], r)
          && Askable(site, s, l.rounds, x.excludedProviders))
      || (m.routers == l.routers && r.Err? && NoDecision(site, s, x.excludedProviders, l.rounds, m.routers, r.error))
    ensures m.rounds == l.rounds + 1 && l.routers <= m.routers
    ensures RoutersGenuine(site, s, m.routers) && m.posts == PostsSent(site, s, m.routers)
    ensures AuditStep(site, s, l.rounds, x.excludedProviders, l.audited, m.audited)
  {
    hide RoutersGenuine, PostsSent, AuditStep, LadderClimbed, GroupsOf, MayBegin;
    var allowed := AllowedIds(site, s, l.rounds, x.excludedProviders);
    assert allowed.Err? ==> allowed.error == PolicyNotFound;
  }

  /** One more round keeps the account, and its decision, or the lack of one, is the last in it. */
  lemma RoundCounted(site: Site, s: Session, start: Record, l: Ladder, m: Ladder,
                     r: Result<RouterDecision, RequestError>)
    requires Counted(site, s, start, l) && MayBegin(l.routers, l.rounds) && !TurnOver(site.reg, Now(start, l))
    requires RoundTaken(site, s, Now(start, l), l, m, r)
    requires r.Ok? && r.value.action == RETRY ==> s.inbound.chat.retry && r.value == RETRY_DECISION
    requires site.Governs(s) && r.Ok? ==> m.audited != []
    ensures Counted(site, s, start, m) && l.Retries() == l.rounds
    ensures m.Retries() == if r == Ok(RETRY_DECISION) then m.rounds else l.rounds
    ensures LastDecision(m.routers, m.rounds) == if r.Ok? then Some(r.value) else None
    ensures r.Err? ==> NoDecision(site, s, Now(start, l).excludedProviders, l.rounds, m.routers, r.error)
  {
    hide *;
    var x := Now(start, l);
    CountedFacts(site, s, start, l);
    RoundCases(site, s, x, l, m, r);
    if LadderClimbed(l.rounds, GroupsOf(site, s, l.rounds, x.excludedProviders), m.routers[|l.routers|..], r)
      && Askable(site, s, l.rounds, x.excludedProviders)
    {
      TiersAsked(site, s, start, x, l, m, r);
    } else {
      TiersNotAsked(site, s, start, x, l, m, r.error);
    }
    FirstRoundKept(site, s, start, l, m);
    CountedAgain(site, s, start, l, m, r);
  }

  lemma CountedFacts(site: Site, s: Session, start: Record, l: Ladder)
    requires Counted(site, s, start, l) && MayBegin(l.routers, l.rounds)
    ensures l.Retries() == l.rounds && Now(start, l) == RetriedTimes(start, l.rounds)
    ensures LadderShape(l.routers) && OffersTraced(site, s, start, l.routers)
    ensures FirstRoundAudited(site, s, start.excludedProviders, l.rounds, l.audited)
    ensures l.rounds > 0 && site.Governs(s) ==> l.audited != []
  {
  }

  lemma CountedAgain(site: Site, s: Session, start: Record, l: Ladder, m: Ladder,
                     r: Result<RouterDecision, RequestError>)
    requires Counted(site, s, start, l) && MayBegin(l.routers, l.rounds)
             && !TurnOver(site.reg, RetriedTimes(start, l.rounds))
    requires m.rounds == l.rounds + 1 && TiersCounted(site, s, start, RetriedTimes(start, l.rounds), l, m, r)
    requires RoutersGenuine(site, s, m.routers) && m.posts == PostsSent(site, s, m.routers)
    requires FirstRoundAudited(site, s, start.excludedProviders, m.rounds, m.audited)
    requires r.Ok? && r.value.action == RETRY ==> s.inbound.chat.retry && r.value == RETRY_DECISION
    requires site.Governs(s) && r.Ok? ==> m.audited != []
    ensures Counted(site, s, start, m)
    ensures m.Retries() == if r == Ok(RETRY_DECISION) then m.rounds else l.rounds
    ensures LastDecision(m.routers, m.rounds) == if r.Ok? then Some(r.value) else None
    ensures r.Err?
            ==> NoDecision(site, s, RetriedTimes(start, l.rounds).excludedProviders, l.rounds, m.routers, r.error)
  {
    hide LadderShape, OffersTraced, NoDecision, TurnOver, RoutersGenuine, PostsSent, RetriedTimes, FirstRoundAudited,
      LastDecision, LastRound;
  }

  lemma FirstRoundKept(site: Site, s: Session, start: Record, l: Ladder, m: Ladder)
    requires FirstRoundAudited(site, s, start.excludedProviders, l.rounds, l.audited)
    requires AuditStep(site, s, l.rounds, RetriedTimes(start, l.rounds).excludedProviders, l.audited, m.audited)
    requires l.rounds > 0 && site.Governs(s) ==> l.audited != []
    ensures FirstRoundAudited(site, s, start.excludedProviders, l.rounds + 1, m.audited)
  {
    FirstRoundStaysAudited(site, s, start.excludedProviders, RetriedTimes(start, l.rounds).excludedProviders, l.rounds,
                           l.audited, m.audited);
  }

  // ---- The end of a request -------------------------------------------------------

  /** How a routed request ends that never reaches the provider loop, the record having been retried up to `x`. */
  ghost predicate EndedEarly(site: Site, s: Session, x: Record, l: Ladder, r: Reply) {
    match r
    case Ok(a) =>
      || (a == s.Stopped()
          && (TurnOver(site.reg, x) || LastDecision(l.routers, l.rounds) == Some(RouterDecision(STOP, None))))
      || (a == s.Clarified() && LastDecision(l.routers, l.rounds) == Some(RouterDecision(CLARIFY, None)))
    case Err(e) => l.rounds > 0 && NoDecision(site, s, x.excludedProviders, l.rounds - 1, l.routers, e)
  }

  lemma EndsWithError(site: Site, s: Session, x: Record, l: Ladder, e: RequestError)
    requires l.rounds > 0 && NoDecision(site, s, x.excludedProviders, l.rounds - 1, l.routers, e)
    ensures EndedEarly(site, s, x, l, Err(e))
  {
  }

  lemma EndsStopped(site: Site, s: Session, x: Record, l: Ladder)
    requires TurnOver(site.reg, x) || LastDecision(l.routers, l.rounds) == Some(RouterDecision(STOP, None))
    ensures EndedEarly(site, s, x, l, Ok(s.Stopped()))
  {
  }

  /** After a round that decided RETRY, the record is the one before it, retried. */
  lemma NowSteps(start: Record, l: Ladder, m: Ladder)
    requires l.Retries() == l.rounds && m.rounds == l.rounds + 1
    ensures m.Retries() == m.rounds ==> Now(start, m) == Retried(Now(start, l))
    ensures m.Retries() == l.rounds ==> Now(start, m) == Now(start, l)
    ensures Retried(Now(start, l)).attemptCount == Now(start, l).attemptCount + 1
    ensures Retried(Now(start, l)).maxAttempts == Now(start, l).maxAttempts
  {
  }

  /** A request that began no round found the turn over, and one that began a round did not. */
  lemma NoRoundIffTurnOver(site: Site, s: Session, start: Record, l: Ladder)
    requires Counted(site, s, start, l) && (l.rounds == 0 ==> TurnOver(site.reg, start))
    ensures l.rounds == 0 <==> TurnOver(site.reg, start)
  {
    if l.rounds > 0 {
      assert !TurnOver(site.reg, RetriedTimes(start, 0));
    }
  }

  /** The provider phase of a request: the deciding round's chain, followed and ended as `r` says. */
  ghost predicate DispatchedAlong(site: Site, s: Session, excluded: seq<string>, l: Ladder, p: Phase, r: Reply) {
    && l.rounds > 0 && p.group.Some?
    && LastDecision(l.routers, l.rounds) == Some(RouterDecision(ANSWER, p.group))
    && RoundChain(site, s, l.rounds - 1, excluded, p.group.value, p.chain)
    && FollowsChain(BlockedByRouters(l.routers), p.chain, p.attempts, s)
    && LoopEnded(r, p.chain, p.attempts, s) && p.selected == SelectedBy(p.attempts)
  }

  /** The provider phase ended as `r` says, or was never reached. */
  ghost predicate Concluded(site: Site, s: Session, x: Record, l: Ladder, p: Phase, r: Reply) {
    if p.chain == [] then p == NO_PHASE && EndedEarly(site, s, x, l, r)
    else DispatchedAlong(site, s, x.excludedProviders, l, p, r)
  }

  /**
   The whole account of a request that routed from `start`: it began no round exactly if the turn
   was over from the start, its rounds are accounted for, and so is how it ended.
   */
  ghost predicate Routed(site: Site, s: Session, start: Record, l: Ladder, p: Phase, r: Reply) {
    && (l.rounds == 0 <==> TurnOver(site.reg, start))
    && Counted(site, s, start, l) && Concluded(site, s, Now(start, l), l, p, r)
  }

  /** The account of any request, from the record it found to the reply it made. */
  ghost predicate Accounted(site: Site, s: Session, before: Option<Record>, l: Ladder, p: Phase, r: Reply) {
    match OpeningOf(site, s, before)
    case Ends(reply) => l == NO_LADDER && p == NO_PHASE && r == reply
    case Routes(start) => Routed(site, s, start, l, p, r)
  }

  lemma DispatchedAs(site: Site, s: Session, excluded: seq<string>, l: Ladder, p: Phase, r: Reply)
    requires l.rounds > 0 && p.group.Some?
    requires LastDecision(l.routers, l.rounds) == Some(RouterDecision(ANSWER, p.group))
    requires RoundChain(site, s, l.rounds - 1, excluded, p.group.value, p.chain)
    requires FollowsChain(BlockedByRouters(l.routers), p.chain, p.attempts, s)
    requires LoopEnded(r, p.chain, p.attempts, s) && p.selected == SelectedBy(p.attempts)
    ensures DispatchedAlong(site, s, excluded, l, p, r)
  {
  }

  /** The account of a request that ended in its rounds, and of one that went on to its providers. */
  lemma RoutedEarly(site: Site, s: Session, start: Record, l: Ladder, r: Reply)
    requires (l.rounds == 0 <==> TurnOver(site.reg, start)) && Counted(site, s, start, l)
    requires EndedEarly(site, s, Now(start, l), l, r)
    ensures Routed(site, s, start, l, NO_PHASE, r) && !Answered(r)
            && RoutedFrom(Now(start, l), Some(Now(start, l)), r, AnswererOf(NO_PHASE, r))
  {
  }

  lemma RoutedOn(site: Site, s: Session, start: Record, l: Ladder, p: Phase, r: Reply, after: Record)
    requires WellListed(site.reg) && (l.rounds == 0 <==> TurnOver(site.reg, start)) && Counted(site, s, start, l)
    requires p.chain != [] && DispatchedAlong(site, s, Now(start, l).excludedProviders, l, p, r)
    requires after
             == if r.Ok? && p.selected.Some? then Committed(Now(start, l), r.value.response, p.selected.value)
                else Now(start, l)
    ensures Routed(site, s, start, l, p, r) && RoutedFrom(Now(start, l), Some(after), r, AnswererOf(p, r))
    ensures l.Retries() < l.rounds && (Answered(r) ==> r.Ok?)
  {
    hide *;
    if r.Ok? {
      AnswererIsNew(site, s, Now(start, l).excludedProviders, l, p, r);
    }
    NotOverWhenDeciding(site, s, start, l, p, r);
    RoutedIf(site, s, start, l, p, r, after);
  }

  lemma RoutedIf(site: Site, s: Session, start: Record, l: Ladder, p: Phase, r: Reply, after: Record)
    requires (l.rounds == 0 <==> TurnOver(site.reg, start)) && Counted(site, s, start, l)
    requires p.chain != [] && DispatchedAlong(site, s, Now(start, l).excludedProviders, l, p, r)
    requires Now(start, l).attemptCount < Now(start, l).maxAttempts
    requires r.Ok? ==> Answered(r) && p.selected.Some? && p.selected.value !in Now(start, l).excludedProviders
    requires r.Ok? ==> p.selected.value != ""
    requires after
             == if r.Ok? && p.selected.Some? then Committed(Now(start, l), r.value.response, p.selected.value)
                else Now(start, l)
    ensures Routed(site, s, start, l, p, r) && RoutedFrom(Now(start, l), Some(after), r, AnswererOf(p, r))
    ensures Answered(r) ==> r.Ok?
  {
    hide Counted, DispatchedAlong, TurnOver, Now;
  }

  /** An attempt was left for the round that decided to answer. */
  lemma NotOverWhenDeciding(site: Site, s: Session, start: Record, l: Ladder, p: Phase, r: Reply)
    requires Counted(site, s, start, l) && DispatchedAlong(site, s, Now(start, l).excludedProviders, l, p, r)
    ensures Now(start, l).attemptCount < Now(start, l).maxAttempts && l.Retries() < l.rounds
  {
    hide RoundChain, FollowsChain, LoopEnded, SelectedBy, AvailableForRouter, LadderShape, OffersTraced;
    assert l.Retries() == l.rounds - 1;
    assert !TurnOver(site.reg, RetriedTimes(start, l.rounds - 1));
  }

  /** A request that stops before it routes: the turn was over at once, or with the attempt it counted. */
  lemma StopAccounted(site: Site, s: Session, before: Option<Record>, base: Record)
    requires s.inbound.chat.retry && before.Some? && !(before.value.hasImage && !s.inbound.chat.hasImage)
    requires base == before.value.(hasImage := s.inbound.chat.hasImage)
    ensures TurnOver(site.reg, base) ==>
              && Accounted(site, s, before, NO_LADDER, NO_PHASE, Ok(s.Stopped()))
              && Served(site, s, before, before, 0, Ok(s.Stopped()), None)
    ensures !TurnOver(site.reg, base) && TurnOver(site.reg, Retried(base)) ==>
              && Accounted(site, s, before, NO_LADDER, NO_PHASE, Ok(s.Stopped()))
              && Served(site, s, before, Some(Retried(base)), 0, Ok(s.Stopped()), None)
    ensures !TurnOver(site.reg, base) ==> OpeningOf(site, s, before) == Routes(Retried(base))
  {
    CountedNone(site, s, Retried(base));
    hide Counted, Retried, Excluding;
  }

  /** A retry that finds no record, or not its image. */
  lemma RejectionAccounted(site: Site, s: Session, before: Option<Record>, e: RequestError)
    requires s.inbound.chat.retry
    requires e == if before.None? then ConversationNotFound else InvalidRequest
    requires before.Some? ==> before.value.hasImage && !s.inbound.chat.hasImage
    ensures Accounted(site, s, before, NO_LADDER, NO_PHASE, Err(e)) && Served(site, s, before, before, 0, Err(e), None)
  {
  }

  /** A request that routed is accounted for from the record it opened with. */
  lemma RoutedAccounted(site: Site, s: Session, before: Option<Record>, start: Record, after: Option<Record>, l: Ladder,
                        p: Phase, r: Reply)
    requires OpeningOf(site, s, before) == Routes(start) && Routed(site, s, start, l, p, r)
    ensures Accounted(site, s, before, l, p, r)
    ensures RoutedFrom(Now(start, l), after, r, AnswererOf(p, r))
            ==> Served(site, s, before, after, l.Retries(), r, AnswererOf(p, r))
  {
    hide Routed, RoutedFrom, RetriedTimes;
  }

  /** An answer came from a provider that had not been excluded. */
  lemma AnswererIsNew(site: Site, s: Session, excluded: seq<string>, l: Ladder, p: Phase, r: Reply)
    requires WellListed(site.reg) && DispatchedAlong(site, s, excluded, l, p, r) && r.Ok?
    ensures Answered(r) && p.selected.Some? && p.selected.value !in excluded && p.selected.value != ""
  {
    hide *;
    DispatchedMeans(site, s, excluded, l, p, r);
    RoundChainFacts(site, s, l.rounds - 1, excluded, p.group.value, p.chain);
    AnswerMeans(p.chain, p.attempts, s, r);
    EndsWithResponse(BlockedByRouters(l.routers), p.chain, p.attempts, s, r);
    assert p.chain[|p.attempts| - 1] in p.chain;
    assert WellListed(p.chain);
    NamedInList(p.chain, |p.attempts| - 1);
  }

  lemma NamedInList(chain: seq<ProviderConfig>, i: nat)
    requires WellListed(chain) && i < |chain|
    ensures chain[i].id != ""
  {
    assert chain[i] in chain;
  }

  lemma DispatchedMeans(site: Site, s: Session, excluded: seq<string>, l: Ladder, p: Phase, r: Reply)
    requires DispatchedAlong(site, s, excluded, l, p, r)
    ensures l.rounds > 0 && p.group.Some? && RoundChain(site, s, l.rounds - 1, excluded, p.group.value, p.chain)
    ensures FollowsChain(BlockedByRouters(l.routers), p.chain, p.attempts, s) && |p.attempts| <= |p.chain|
    ensures LoopEnded(r, p.chain, p.attempts, s) && p.selected == SelectedBy(p.attempts)
  {
    hide RoundChain, LoopEnded, LastDecision, SelectedBy;
  }

  lemma AnswerMeans(chain: seq<ProviderConfig>, attempts: seq<ProviderAttempt>, s: Session, r: Reply)
    requires LoopEnded(r, chain, attempts, s) && r.Ok?
    ensures RespondedLast(attempts) && attempts != [] && DeliveredAs(s, |attempts| - 1, r)
  {
  }

  /**
   What any routed request may cost: one round for each attempt left, a single one for a new
   message, two router calls a round and two POSTs a call; and one audit reference exactly if its
   first round was governed by policies that exist, to those policies and their candidates.
   */
  lemma CostOfARequest(site: Site, s: Session, start: Record, l: Ladder)
    requires Counted(site, s, start, l)
    ensures l.rounds > 0 ==> start.attemptCount + l.rounds <= start.maxAttempts
    ensures !s.inbound.chat.retry ==> l.rounds <= 1
    ensures |l.routers| <= 2 * l.rounds && l.posts <= 4 * l.rounds
    ensures |l.audited| == if site.Governs(s) && l.rounds > 0 && s.script.plane(0).policy.Some? then 1 else 0
    ensures |l.audited| == 1 ==>
              && AuditedAs(site, s, 0, start.excludedProviders, l.audited[0])
              && Ok(l.audited[0].candidateIds) == AllowedIds(site, s, 0, start.excludedProviders)
  {
    PostsBounded(site, s, l.routers);
    if l.rounds > 0 {
      assert !TurnOver(site.reg, RetriedTimes(start, l.rounds - 1));
      RetriedTimesCounts(start, l.rounds - 1);
    }
  }

  /**
   What holds of the dispatches of any routed request: they follow the chain once each; a backend
   that refused the request's credentials is never called again in it, and no other is passed over;
   and, under a control plane, every attempted provider passed the governance snapshot of the
   deciding round and every other check, in the order of the policy's scores.
   */
  lemma DispatchesOfARequest(site: Site, s: Session, start: Record, l: Ladder, p: Phase, r: Reply)
    requires WellListed(site.reg) && Routed(site, s, start, l, p, r)
    ensures IdsOf(p.attempts) <= Ids(p.chain) && Distinct(IdsOf(p.attempts))
    ensures SkipsOnlyRefused(site, s, l.routers, p.attempts)
    ensures site.Governs(s) && p.chain != [] ==>
              var view := s.script.plane(l.rounds - 1);
              && view.policy.Some? && ScoresNonIncreasing(view.policy.value.kind, site.reg, Ids(p.chain))
              && AllEligible(site, s, l.rounds - 1, Now(start, l).excludedProviders, p.group.value, p.attempts)
  {
    hide *;
    var excluded := Now(start, l).excludedProviders;
    RoutedMeans(site, s, start, l, p, r);
    if p.chain == [] {
      NothingDispatched(site, s, l.routers);
    } else {
      DispatchedMeans(site, s, excluded, l, p, r);
      RoundChainFacts(site, s, l.rounds - 1, excluded, p.group.value, p.chain);
      AttemptsArePrefix(BlockedByRouters(l.routers), p.chain, p.attempts, s);
      SkipsExactlyAfterRefusals(site, s, l.routers, p.chain, p.attempts);
      if site.Governs(s) {
        GovernedAttemptsAreEligible(site, s, l.rounds - 1, excluded, p.group.value, p.chain, p.attempts);
      }
    }
  }

  lemma RoutedMeans(site: Site, s: Session, start: Record, l: Ladder, p: Phase, r: Reply)
    requires Routed(site, s, start, l, p, r)
    ensures RoutersGenuine(site, s, l.routers)
    ensures if p.chain == [] then p.attempts == []
            else DispatchedAlong(site, s, Now(start, l).excludedProviders, l, p, r)
  {
    hide RoutersGenuine, DispatchedAlong, Now, EndedEarly, LadderShape, OffersTraced, FirstRoundAudited;
  }

  lemma NothingDispatched(site: Site, s: Session, routers: seq<RouterAttempt>)
    ensures SkipsOnlyRefused(site, s, routers, [])
    ensures IdsOf([]) == [] && Distinct(IdsOf([]))
  {
  }

  // ---- The stored record ----------------------------------------------------------

  /** The engine's boundary: a cancellation that the deadline caused is reported as the deadline. */
  function AtBoundary(r: Reply, s: Session): Reply {
    if r == Err(RequestCancelled) && s.script.late(AtExit) then Err(DeadlineExceeded) else r
  }

  /** From the record `x` as retried so far: an answer commits, anything else leaves `x` stored. */
  ghost predicate RoutedFrom(x: Record, after: Option<Record>, r: Reply, answerer: Option<string>) {
    if Answered(r) then
      && answerer.Some? && answerer.value != "" && answerer.value !in x.excludedProviders
      && x.attemptCount < x.maxAttempts
      && after == Some(Committed(x, r.value.response, answerer.value))
    else
      after == Some(x) && answerer == None
  }

  /** What became of the stored record, and what the client got, a request having retried it `n` times in its rounds. */
  ghost predicate Served(site: Site, s: Session, before: Option<Record>, after: Option<Record>, n: nat, r: Reply,
                         answerer: Option<string>)
  {
    match OpeningOf(site, s, before)
    case Ends(reply) => r == reply && after == before && answerer == None
    case Routes(start) => RoutedFrom(RetriedTimes(start, n), after, r, answerer)
  }

  /**
   The record as the request left it is still stored when it replies, whoever else works on the
   conversation: the block that replies wrote it (an answer), or no await came after the block that
   did (an attempt counted in the last round, or a request that began none). Or nobody else works
   on the conversation.
   */
  predicate Lasting(s: Session, l: Ladder, r: Reply) {
    s.alone || Answered(r) || l.Retries() == l.rounds
  }

  lemma LastingAtBoundary(s: Session, l: Ladder, r: Reply)
    ensures Lasting(s, l, AtBoundary(r, s)) <==> Lasting(s, l, r)
  {
  }

  lemma LastingMeans(s: Session, l: Ladder, r: Reply)
    ensures Lasting(s, l, r) <==> s.alone || Answered(r) || l.Retries() == l.rounds
  {
  }

  function AnswererOf(p: Phase, r: Reply): Option<string> {
    if Answered(r) then p.selected else None
  }

  /** Reporting a cancellation as the deadline changes nothing that was served. */
  lemma ServedAtBoundary(site: Site, s: Session, before: Option<Record>, after: Option<Record>, n: nat, p: Phase,
                         r: Reply)
    requires Served(site, s, before, after, n, r, AnswererOf(p, r))
    ensures Served(site, s, before, after, n, AtBoundary(r, s), AnswererOf(p, AtBoundary(r, s)))
  {
  }
}
