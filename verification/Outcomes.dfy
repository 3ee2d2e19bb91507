/**
 What the account of a request comes to, said of nothing but the record it found, the registry, the
 policies and what its calls returned: when it stops, what it counts, whom it asks, what it replies
 and what it leaves stored.
 */
module Outcomes {
  import opened Common
  import opened Schemas
  import opened Registry
  import opened ControlPlane
  import opened Pipeline
  import opened Conversation
  import opened CircuitSystem
  import opened EventLoop
  import opened CallSites
  import opened Lifecycle
  import opened Accounting

  // ---- Tenants --------------------------------------------------------------------

  /** Two requests work on one record exactly if their tenants, or their having none, and their conversations agree. */
  lemma SameKeyIff(a: Inbound, b: Inbound)
    ensures a.Key() == b.Key() <==>
            && (if a.tenant.Some? then a.tenant.value else "legacy")
               == (if b.tenant.Some? then b.tenant.value else "legacy")
            && a.chat.conversationId == b.chat.conversationId
  {
  }

  /** A block of a request leaves every record of another tenant, and of another conversation, as it was. */
  lemma OthersUntouched(before: map<Key, Record>, after: map<Key, Record>, inbound: Inbound, key: Key)
    requires WroteOnly(before, after, inbound.Key())
    requires || key.tenantId != (if inbound.tenant.Some? then inbound.tenant.value else "legacy")
             || key.conversationId != inbound.chat.conversationId
    ensures RecordIn(after, key) == RecordIn(before, key)
  {
  }

  /** So do any number of blocks of any requests of other tenants. */
  lemma {:induction false} TenantsAreIsolated(a: Shared, blocks: seq<Block>, inbounds: seq<Inbound>, key: Key)
    requires Guaranteed(a, blocks) && |inbounds| == |blocks|
    requires forall i :: 0 <= i < |blocks| ==>
               && blocks[i].key == inbounds[i].Key()
               && key.tenantId != (if inbounds[i].tenant.Some? then inbounds[i].tenant.value else "legacy")
    ensures RecordIn(StateAfter(a, blocks).records, key) == RecordIn(a.records, key)
    decreases |blocks|
  {
    if blocks != [] {
      OthersUntouched(a.records, blocks[0].after.records, inbounds[0], key);
      TenantsAreIsolated(blocks[0].after, blocks[1..], inbounds[1..], key);
    }
  }

  /** The audit entry of a governed request is made out to its tenant and names the request and its round's policies. */
  lemma AuditNamesTenant(site: Site, s: Session, round: nat, excluded: seq<string>, a: PolicyAuditReference)
    requires AuditedAs(site, s, round, excluded, a) && site.Governs(s)
    ensures a.tenantId == s.inbound.tenant.value && a.request == s.request
    ensures var view := s.script.plane(round);
            && view.policy.Some?
            && a.policyId == view.policy.value.policyId && a.policyVersion == view.policy.value.version
            && a.governancePolicyId == view.governance.policyId && a.governancePolicyVersion == view.governance.version
  {
    hide Resolved, Rankings, Split, EligibleIds;
  }

  // ---- The retry guard ------------------------------------------------------------

  /** The maximum of attempts is counted, or every enabled provider is excluded. */
  ghost predicate NothingLeft(reg: seq<ProviderConfig>, x: Record) {
    x.attemptCount >= x.maxAttempts || forall q :: q in reg && q.enabled ==> q.id in x.excludedProviders
  }

  lemma TurnOverIff(reg: seq<ProviderConfig>, x: Record)
    ensures TurnOver(reg, x) <==> NothingLeft(reg, x)
  {
    var kept := Filter(reg, EnabledAndNotIn(x.excludedProviders));
    if kept != [] {
      assert kept[0] in kept;
    }
    forall q | q in reg && q.enabled && q.id !in x.excludedProviders ensures kept != [] {
      assert q in kept;
    }
  }

  /** A request asks no router at all exactly if nothing was left of the turn it routed from. */
  lemma NoRoundIff(site: Site, s: Session, start: Record, l: Ladder, p: Phase, r: Reply)
    requires Routed(site, s, start, l, p, r)
    ensures l.rounds == 0 <==> NothingLeft(site.reg, start)
  {
    TurnOverIff(site.reg, start);
  }

  /** A retry ends before it counts anything exactly so. */
  lemma StopsAtOnceIff(site: Site, s: Session, before: Option<Record>)
    requires s.inbound.chat.retry && before.Some? && (before.value.hasImage ==> s.inbound.chat.hasImage)
    ensures NothingLeft(site.reg, before.value) <==> OpeningOf(site, s, before).Ends?
    ensures OpeningOf(site, s, before).Ends? ==>
              OpeningOf(site, s, before).reply
              == Ok(RoutingResponse(s.inbound.chat.conversationId, STOP, "Unable to produce a better response."))
  {
    TurnOverIff(site.reg, before.value);
    TurnOverIff(site.reg, before.value.(hasImage := s.inbound.chat.hasImage));
  }

  // ---- Counting -------------------------------------------------------------------

  /** How many of the attempts decided RETRY. */
  function RetriesDecided(routers: seq<RouterAttempt>): nat {
    if routers == [] then 0
    else
      RetriesDecided(routers[..|routers| - 1])
      + if routers[|routers| - 1].outcome == TierSucceeded(RouterDecision(RETRY, None)) then 1 else 0
  }

  /** The round of an attempt is the number of RETRYs before it. */
  lemma {:induction false} RoundsFollowRetries(routers: seq<RouterAttempt>, i: nat)
    requires LadderShape(routers) && i < |routers|
    ensures RetriesDecided(routers[..i]) == routers[i].round
  {
    assert Climbs(routers, i);
    if i > 0 {
      RoundsFollowRetries(routers, i - 1);
      assert routers[..i][..i - 1] == routers[..i - 1] && routers[..i][i - 1] == routers[i - 1];
    }
  }

  /** A request counts one attempt for each RETRY decided, and begins one round more unless the last one decided so. */
  lemma RetriesAreDecisions(site: Site, s: Session, start: Record, l: Ladder)
    requires Counted(site, s, start, l)
    ensures l.Retries() == RetriesDecided(l.routers)
    ensures l.Retries() <= l.rounds <= l.Retries() + 1
  {
    hide *;
    LadderOf(site, s, start, l);
    var n := |l.routers|;
    if n > 0 {
      RoundsFollowRetries(l.routers, n - 1);
    }
    RetriesOf(l);
  }

  lemma LadderOf(site: Site, s: Session, start: Record, l: Ladder)
    requires Counted(site, s, start, l)
    ensures LadderShape(l.routers) && LastRound(l.routers, l.rounds) && (l.rounds == 0 ==> l.routers == [])
  {
    hide LadderShape, OffersTraced, RoutersGenuine, LastRound, PostsSent, FirstRoundAudited, RetriedTimes;
  }

  lemma RetriesOf(l: Ladder)
    requires LastRound(l.routers, l.rounds) && (l.rounds == 0 ==> l.routers == [])
    requires var n := |l.routers|; n > 0 ==> RetriesDecided(l.routers[..n - 1]) == l.routers[n - 1].round
    ensures l.Retries() == RetriesDecided(l.routers) && l.Retries() <= l.rounds <= l.Retries() + 1
  {
  }

  // ---- The record -----------------------------------------------------------------

  /** Later retries of one request exclude nobody new: the last answerer was excluded with the first. */
  lemma {:induction false} RetriedOnlyCounts(r: Record, n: nat)
    requires HasAnswerer(r) ==> r.lastProvider.value in r.excludedProviders
    ensures RetriedTimes(r, n) == r.(attemptCount := r.attemptCount + n)
  {
    if n > 0 {
      RetriedOnlyCounts(r, n - 1);
    }
  }

  /** What a new message leaves stored, field by field. */
  lemma RecordAfterMessage(site: Site, s: Session, before: Option<Record>, after: Option<Record>, l: Ladder, p: Phase,
                           r: Reply)
    requires !s.inbound.chat.retry
    requires Accounted(site, s, before, l, p, r) && Served(site, s, before, after, l.Retries(), r, AnswererOf(p, r))
    ensures var chat, answered := s.inbound.chat, r.Ok? && r.value.action == ANSWER;
            && (answered ==> p.selected.Some?)
            && after == Some(Record(
                 if before.Some? then before.value.conversationId else chat.conversationId,
                 chat.message,
                 if answered then Some(r.value.response)
                 else if before.Some? then before.value.previousResponse else None,
                 0,
                 if before.Some? then before.value.maxAttempts else site.maxAttempts,
                 [],
                 if answered then p.selected else None,
                 chat.hasImage))
  {
    var start := FreshBase(site.maxAttempts, s.inbound, before);
    NoRetriesOfAMessage(site, s, start, l, p, r);
    RetriedOnlyCounts(start, 0);
    hide Routed;
  }

  lemma NoRetriesOfAMessage(site: Site, s: Session, start: Record, l: Ladder, p: Phase, r: Reply)
    requires !s.inbound.chat.retry && Routed(site, s, start, l, p, r)
    ensures l.Retries() == 0
  {
    hide Concluded, LadderShape, OffersTraced, RoutersGenuine;
  }

  /** Everyone excluded before a retry, and the last answerer, if any, once. */
  function ExcludedByRetry(before: Record): seq<string> {
    match before.lastProvider
    case None => before.excludedProviders
    case Some("") => before.excludedProviders
    case Some(last) =>
      if last in before.excludedProviders then before.excludedProviders else before.excludedProviders + [last]
  }

  /** The record a retry routes from, retried `n` times more. */
  lemma RetriedFields(before: Record, hasImage: bool, n: nat)
    ensures RetriedTimes(Retried(before.(hasImage := hasImage)), n)
            == Record(before.conversationId, before.originalQuery, before.previousResponse, before.attemptCount + 1 + n,
                      before.maxAttempts, ExcludedByRetry(before), before.lastProvider, hasImage)
  {
    RetriedOnlyCounts(Retried(before.(hasImage := hasImage)), n);
    hide RetriedTimes;
  }

  /** What a retry that routed leaves stored, field by field. */
  lemma RecordAfterRetry(site: Site, s: Session, before: Record, after: Option<Record>, l: Ladder, p: Phase, r: Reply)
    requires s.inbound.chat.retry && (before.hasImage ==> s.inbound.chat.hasImage)
    requires !NothingLeft(site.reg, before)
    requires Served(site, s, Some(before), after, l.Retries(), r, AnswererOf(p, r))
    ensures var answered := r.Ok? && r.value.action == ANSWER;
            && (answered ==> p.selected.Some?)
            && after == Some(Record(
                 before.conversationId,
                 before.originalQuery,
                 if answered then Some(r.value.response) else before.previousResponse,
                 before.attemptCount + 1 + l.Retries(),
                 before.maxAttempts,
                 ExcludedByRetry(before),
                 if answered then p.selected else before.lastProvider,
                 s.inbound.chat.hasImage))
  {
    var base := before.(hasImage := s.inbound.chat.hasImage);
    TurnOverIff(site.reg, before);
    assert OpeningOf(site, s, Some(before)) == Routes(Retried(base)) by {
      assert TurnOver(site.reg, base) == TurnOver(site.reg, before);
      hide Retried;
    }
    RetriedFields(before, s.inbound.chat.hasImage, l.Retries());
    var x := RetriedTimes(Retried(base), l.Retries());
    assert RoutedFrom(x, after, r, AnswererOf(p, r));
    hide Served, OpeningOf, RetriedTimes, Retried, TurnOver, NothingLeft, ExcludedByRetry;
  }

  /** A retry that ends before it routes leaves what it found. */
  lemma RecordAfterRejection(site: Site, s: Session, before: Option<Record>, after: Option<Record>, l: Ladder, p: Phase,
                             r: Reply)
    requires s.inbound.chat.retry
    requires before.Some? && (before.value.hasImage ==> s.inbound.chat.hasImage) ==> NothingLeft(site.reg, before.value)
    requires Accounted(site, s, before, l, p, r) && Served(site, s, before, after, l.Retries(), r, AnswererOf(p, r))
    ensures after == before && l.rounds == 0 && p.chain == []
    ensures r == if before.None? then Err(ConversationNotFound)
                 else if before.value.hasImage && !s.inbound.chat.hasImage then Err(InvalidRequest)
                 else Ok(RoutingResponse(s.inbound.chat.conversationId, STOP, "Unable to produce a better response."))
  {
    if before.Some? {
      TurnOverIff(site.reg, before.value.(hasImage := s.inbound.chat.hasImage));
    }
  }

  // ---- Whom a round offers, and whom it dispatches to -----------------------------

  /** A round may use this provider: enabled, not excluded, and, under a control plane, passed by its policies. */
  predicate MayUse(site: Site, s: Session, round: nat, excluded: seq<string>, q: ProviderConfig) {
    && q in site.reg && q.enabled && q.id !in excluded
    && (site.controlled && s.inbound.tenant.Some? ==>
          Permitted(s.script.plane(round).governance, s.inbound.context, q))
  }

  lemma AllowedMeans(site: Site, s: Session, round: nat, excluded: seq<string>)
    requires WellListed(site.reg)
    ensures AllowedIds(site, s, round, excluded).Err? <==>
            site.controlled && s.inbound.tenant.Some? && s.script.plane(round).policy.None?
    ensures AllowedIds(site, s, round, excluded).Err? ==> AllowedIds(site, s, round, excluded).error == PolicyNotFound
    ensures AllowedIds(site, s, round, excluded).Ok? ==>
              && (forall id :: id in AllowedIds(site, s, round, excluded).value ==> Find(site.reg, id).Some?)
              && forall q :: q in site.reg ==>
                   (q.id in AllowedIds(site, s, round, excluded).value <==> MayUse(site, s, round, excluded, q))
  {
    var view := s.script.plane(round);
    AvailableRegistered(site.reg, excluded);
    if view.policy.Some? {
      ResolvedFacts(site.reg, view.governance, view.policy.value.kind, s.inbound.context, excluded);
    }
    forall q | q in site.reg ensures Find(site.reg, q.id) == Some(q) {
      FindRegistered(site.reg, q);
    }
    hide Permitted, Resolved, AvailableForRouter;
  }

  /** A router is offered exactly the groups of the providers the round may use, image-capable ones for an image. */
  lemma OfferedMeans(site: Site, s: Session, start: Record, l: Ladder, i: nat, group: TaskGroup)
    requires WellListed(site.reg) && Counted(site, s, start, l) && i < |l.routers|
    ensures var round := l.routers[i].round;
            group in l.routers[i].offered <==>
            exists q :: && MayUse(site, s, round, RetriedTimes(start, round).excludedProviders, q)
                        && q.taskGroup == group && (s.inbound.chat.hasImage ==> q.acceptsImages)
  {
    var round := l.routers[i].round;
    var excluded := RetriedTimes(start, round).excludedProviders;
    AllowedMeans(site, s, round, excluded);
    GroupsOfMean(site, s, round, excluded, group);
    hide RetriedTimes, MayUse, GroupsOf, AllowedIds, LadderShape, RoutersGenuine;
  }

  lemma GroupsOfMean(site: Site, s: Session, round: nat, excluded: seq<string>, group: TaskGroup)
    requires WellListed(site.reg) && AllowedIds(site, s, round, excluded).Ok?
    ensures group in GroupsOf(site, s, round, excluded) <==>
            exists q :: && MayUse(site, s, round, excluded, q)
                        && q.taskGroup == group && (s.inbound.chat.hasImage ==> q.acceptsImages)
  {
    AllowedMeans(site, s, round, excluded);
    EveryGroupListed(group);
    var ids, image := AllowedIds(site, s, round, excluded).value, s.inbound.chat.hasImage;
    assert group in GroupsOf(site, s, round, excluded) <==> Offers(site.reg, Some(ids), image, group) by {
      hide AllowedIds, Offers;
    }
    hide *;
    OffersMeans(site, s, round, excluded, group, ids);
  }

  lemma OffersMeans(site: Site, s: Session, round: nat, excluded: seq<string>, group: TaskGroup, ids: seq<string>)
    requires forall q :: q in site.reg ==> (q.id in ids <==> MayUse(site, s, round, excluded, q))
    ensures Offers(site.reg, Some(ids), s.inbound.chat.hasImage, group) <==>
            exists q :: && MayUse(site, s, round, excluded, q)
                        && q.taskGroup == group && (s.inbound.chat.hasImage ==> q.acceptsImages)
  {
    var image := s.inbound.chat.hasImage;
    assert forall q :: MayUse(site, s, round, excluded, q) ==> q in site.reg && q.enabled;
    hide MayUse;
    if q :| MayUse(site, s, round, excluded, q) && q.taskGroup == group && (image ==> q.acceptsImages) {
      var i :| 0 <= i < |site.reg| && site.reg[i] == q;
      assert MayServe(site.reg[i], Some(ids), image);
    }
    if i :| 0 <= i < |site.reg| && MayServe(site.reg[i], Some(ids), image) && site.reg[i].taskGroup == group {
      assert MayUse(site, s, round, excluded, site.reg[i]);
    }
  }

  /** The chain holds exactly the providers of the decided group that the deciding round may use. */
  lemma ChainMeans(site: Site, s: Session, start: Record, l: Ladder, p: Phase, r: Reply)
    requires WellListed(site.reg) && Routed(site, s, start, l, p, r) && p.chain != []
    ensures l.rounds > 0 && p.group.Some? && WellListed(p.chain)
    ensures forall q :: q in p.chain <==>
              && MayUse(site, s, l.rounds - 1, Now(start, l).excludedProviders, q)
              && q.taskGroup == p.group.value && (s.inbound.chat.hasImage ==> q.acceptsImages)
  {
    var excluded := Now(start, l).excludedProviders;
    RoundChainFacts(site, s, l.rounds - 1, excluded, p.group.value, p.chain);
    RoundChainMembers(site, s, l.rounds - 1, excluded, p.group.value, p.chain);
  }

  lemma RoundChainMembers(site: Site, s: Session, round: nat, excluded: seq<string>, group: TaskGroup,
                          chain: seq<ProviderConfig>)
    requires WellListed(site.reg) && RoundChain(site, s, round, excluded, group, chain)
    ensures forall q :: q in chain <==>
              && MayUse(site, s, round, excluded, q)
              && q.taskGroup == group && (s.inbound.chat.hasImage ==> q.acceptsImages)
  {
    var allowed := AllowedIds(site, s, round, excluded).value;
    AllowedMeans(site, s, round, excluded);
    ChainMembersExactly(site.reg, ChainQuery(group, s.inbound.chat.hasImage, excluded, Some(allowed)),
                        s.inbound.tenant.Some?);
    hide AllowedIds, CandidatesFor, Accepted;
  }

  /**
   The order in which a request tries its providers: for a tenant under a control plane, that of the
   metadata its policy is about; without a tenant, ascending priority and id.
   */
  lemma ChainOrder(site: Site, s: Session, start: Record, l: Ladder, p: Phase, r: Reply)
    requires WellListed(site.reg) && Routed(site, s, start, l, p, r) && p.chain != []
    ensures site.controlled && s.inbound.tenant.Some? ==>
              var view := s.script.plane(l.rounds - 1);
              && view.policy.Some?
              && forall i, j :: 0 <= i < j < |p.chain| ==> MayPrecede(view.policy.value.kind, p.chain[i], p.chain[j])
    ensures s.inbound.tenant.None? ==> Ascending(p.chain)
  {
    RoundChainOrder(site, s, l.rounds - 1, Now(start, l).excludedProviders, p.group.value, p.chain);
    hide Counted, FollowsChain, LoopEnded, RoundChain, MayPrecede, Ascending;
  }

  lemma RoundChainOrder(site: Site, s: Session, round: nat, excluded: seq<string>, group: TaskGroup,
                        chain: seq<ProviderConfig>)
    requires WellListed(site.reg) && RoundChain(site, s, round, excluded, group, chain)
    ensures site.controlled && s.inbound.tenant.Some? ==>
              var view := s.script.plane(round);
              && view.policy.Some?
              && forall i, j :: 0 <= i < j < |chain| ==> MayPrecede(view.policy.value.kind, chain[i], chain[j])
    ensures s.inbound.tenant.None? ==> Ascending(chain)
  {
    var view, image := s.script.plane(round), s.inbound.chat.hasImage;
    var q := ChainQuery(group, image, excluded, Some(AllowedIds(site, s, round, excluded).value));
    hide MayPrecede, CandidatesFor, Accepted, Ascending;
    if s.inbound.tenant.None? {
      PriorityChainAscends(site.reg, q);
    } else if site.controlled {
      ChainInPolicyOrder(site.reg, view.governance, view.policy.value.kind, s.inbound.context, excluded, group, image);
    }
  }

  // ---- What a tier comes to -------------------------------------------------------

  /** The decision is one a round may act on, given what it offered. */
  predicate Acceptable(d: RouterDecision, offered: seq<TaskGroup>, chat: ChatRequest) {
    && (d.action == ANSWER <==> d.taskGroup.Some?)
    && (d.action == RETRY ==> chat.retry)
    && (d.action == ANSWER ==> d.taskGroup.value in offered && (chat.hasImage ==> d.taskGroup == Some(MULTIMODAL)))
  }

  /** The outcome of a tier that its circuit let through, read off its deciding POST. */
  lemma TierMeans(site: Site, s: Session, routers: seq<RouterAttempt>, i: nat)
    requires RoutersGenuine(site, s, routers) && i < |routers| && routers[i].outcome != TierRefused
    ensures var a, last := routers[i], DecidingPost(s.script.firstPost(i), s.script.repairPost(i));
            && (forall d :: a.outcome == TierSucceeded(d) <==>
                  last == HttpOk(Some(d)) && Acceptable(d, a.offered, s.inbound.chat))
            && (a.outcome == TierInvalid <==>
                  last.HttpOk? && last.parsed.Some? && !Acceptable(last.parsed.value, a.offered, s.inbound.chat))
            && (a.outcome.TierFailed? <==>
                  last == HttpOk(None) || last.HttpFailed? || last.TierTimedOut? || last.PostCrashed?)
            && (a.outcome == TierCancelled <==> last.PostCancelled?)
  {
    var a, last := routers[i], DecidingPost(s.script.firstPost(i), s.script.repairPost(i));
    assert TierGenuine(site, s, i, a);
    DecideReplies(site.Tier(a.primary), s.script.firstPost(i), s.script.repairPost(i));
    forall d ensures Validate(d, a.offered, s.inbound.chat.hasImage, s.inbound.chat.retry).Ok?
                     <==> Acceptable(d, a.offered, s.inbound.chat) {
      ValidatorAcceptsExactly(d, a.offered, s.inbound.chat.hasImage, s.inbound.chat.retry);
    }
    hide Validate, VerdictOf, Acceptable, DecidingPost;
  }

  /** Attempt `i` gave no decision to act on: refused, failed, or decided what may not be acted on. */
  predicate GaveNothing(s: Session, i: nat, a: RouterAttempt) {
    var last := DecidingPost(s.script.firstPost(i), s.script.repairPost(i));
    || a.outcome == TierRefused
    || last == HttpOk(None) || last.HttpFailed? || last.TierTimedOut? || last.PostCrashed?
    || (last.HttpOk? && last.parsed.Some? && !Acceptable(last.parsed.value, a.offered, s.inbound.chat))
  }

  lemma GaveUpIff(site: Site, s: Session, routers: seq<RouterAttempt>, i: nat)
    requires RoutersGenuine(site, s, routers) && i < |routers|
    ensures TierGaveUp(routers[i].outcome) <==> GaveNothing(s, i, routers[i])
  {
    hide Acceptable, RoutersGenuine, DecidingPost;
    if routers[i].outcome != TierRefused {
      TierMeans(site, s, routers, i);
    }
  }

  /** The fallback router is asked exactly after a primary one that gave nothing to act on. */
  lemma FallbackAskedIff(site: Site, s: Session, start: Record, l: Ladder, i: nat)
    requires Counted(site, s, start, l) && i < |l.routers| && l.routers[i].primary
    ensures GaveNothing(s, i, l.routers[i]) <==>
            i + 1 < |l.routers| && !l.routers[i + 1].primary && l.routers[i + 1].round == l.routers[i].round
  {
    GaveUpIff(site, s, l.routers, i);
    assert Climbs(l.routers, i);
    if i + 1 < |l.routers| {
      assert Climbs(l.routers, i + 1);
    }
    hide GaveNothing, Counted, LadderShape, RoutersGenuine;
  }

  /** The POSTs of one attempt that its circuit let through: the first if it was sent, and a repair sent after it. */
  function PostsOf(s: Session, i: nat): nat {
    var first, repair := s.script.firstPost(i), s.script.repairPost(i);
    if !first.Sent() then 0 else if first == HttpOk(None) && repair.Sent() then 2 else 1
  }

  /** The POSTs of all attempts, those that their circuits refused sending none. */
  function PostsOfAll(s: Session, routers: seq<RouterAttempt>): nat {
    if routers == [] then 0
    else
      PostsOfAll(s, routers[..|routers| - 1])
      + if routers[|routers| - 1].outcome == TierRefused then 0 else PostsOf(s, |routers| - 1)
  }

  /** A request sends exactly these POSTs. */
  lemma {:induction false} PostsAre(site: Site, s: Session, routers: seq<RouterAttempt>)
    ensures PostsSent(site, s, routers) == PostsOfAll(s, routers)
  {
    if routers != [] {
      PostsAre(site, s, routers[..|routers| - 1]);
      hide VerdictOf, FailedPost;
    }
  }

  // ---- What the client is told ----------------------------------------------------

  /** The last router asked decided `d`. */
  predicate LastDecided(l: Ladder, d: RouterDecision) {
    l.routers != [] && l.routers[|l.routers| - 1].outcome == TierSucceeded(d)
  }

  /** What the account says of the end of a routed request. */
  lemma EndFacts(site: Site, s: Session, start: Record, l: Ladder, p: Phase, r: Reply)
    requires Routed(site, s, start, l, p, r)
    ensures LastRound(l.routers, l.rounds) && (l.rounds == 0 ==> l.routers == [])
    ensures TurnOver(site.reg, Now(start, l)) <==> l.Retries() == l.rounds
    ensures if p.chain == [] then p == NO_PHASE && EndedEarly(site, s, Now(start, l), l, r)
            else DispatchedAlong(site, s, Now(start, l).excludedProviders, l, p, r)
  {
    hide *;
    CountedEnd(site, s, start, l, p, r);
    if l.Retries() == l.rounds {
      RetriedToTheEnd(site, s, start, l, p, r);
    }
  }

  lemma CountedEnd(site: Site, s: Session, start: Record, l: Ladder, p: Phase, r: Reply)
    requires Routed(site, s, start, l, p, r)
    ensures LastRound(l.routers, l.rounds) && (l.rounds == 0 ==> l.routers == []) && l.Retries() <= l.rounds
    ensures l.Retries() < l.rounds ==> !TurnOver(site.reg, Now(start, l))
    ensures if p.chain == [] then p == NO_PHASE && EndedEarly(site, s, Now(start, l), l, r)
            else DispatchedAlong(site, s, Now(start, l).excludedProviders, l, p, r)
  {
    hide DispatchedAlong, EndedEarly, TurnOver, LadderShape, OffersTraced, RoutersGenuine, FirstRoundAudited, LastRound,
      RetriedTimes, PostsSent;
  }

  /** A request that counted an attempt in its last round, or began none, can only stop. */
  lemma RetriedToTheEnd(site: Site, s: Session, start: Record, l: Ladder, p: Phase, r: Reply)
    requires Routed(site, s, start, l, p, r) && l.Retries() == l.rounds
    ensures p.chain == [] && TurnOver(site.reg, Now(start, l)) && r == Ok(s.Stopped())
  {
    hide OffersTraced, LadderShape, RoutersGenuine, FirstRoundAudited, TurnOver, RoundChain, FollowsChain, LoopEnded,
      AllowedIds;
    assert l.rounds == 0 ==> Now(start, l) == start;
  }

  /** A routed request stops exactly if nothing is left of its turn, by then, or a router decided STOP. */
  lemma StopsIff(site: Site, s: Session, start: Record, l: Ladder, p: Phase, r: Reply)
    requires WellListed(site.reg) && Routed(site, s, start, l, p, r)
    ensures r.Ok? && r.value.action == STOP <==>
            NothingLeft(site.reg, Now(start, l)) || LastDecided(l, RouterDecision(STOP, None))
    ensures r.Ok? && r.value.action == STOP ==>
              r.value == RoutingResponse(s.inbound.chat.conversationId, STOP, "Unable to produce a better response.")
    ensures LastDecided(l, RouterDecision(RETRY, None)) && l.routers[|l.routers| - 1].round + 1 == l.rounds ==>
              NothingLeft(site.reg, Now(start, l))
  {
    hide Routed, Now, TurnOver, NothingLeft, AllowedIds, DispatchedAlong, WellListed;
    TurnOverIff(site.reg, Now(start, l));
    EndFacts(site, s, start, l, p, r);
    if p.chain != [] {
      AnswersOnly(site, s, Now(start, l).excludedProviders, l, p, r);
    }
  }

  /** What goes to providers comes back as an answer or an error. */
  lemma AnswersOnly(site: Site, s: Session, excluded: seq<string>, l: Ladder, p: Phase, r: Reply)
    requires WellListed(site.reg) && DispatchedAlong(site, s, excluded, l, p, r)
    ensures r.Ok? ==> r.value.action == ANSWER
    ensures p.group.Some? && LastDecided(l, RouterDecision(ANSWER, p.group))
  {
    if r.Ok? {
      AnswererIsNew(site, s, excluded, l, p, r);
    }
    hide RoundChain, FollowsChain, LoopEnded;
  }

  /** It asks for clarification exactly if a router decided so. */
  lemma ClarifiesIff(site: Site, s: Session, start: Record, l: Ladder, p: Phase, r: Reply)
    requires WellListed(site.reg) && Routed(site, s, start, l, p, r)
    ensures r.Ok? && r.value.action == CLARIFY <==> LastDecided(l, RouterDecision(CLARIFY, None))
    ensures r.Ok? && r.value.action == CLARIFY ==>
              r.value == RoutingResponse(s.inbound.chat.conversationId, CLARIFY,
                                         "Could you clarify what you would like help with?")
  {
    hide Routed, Now, TurnOver, NothingLeft, AllowedIds, DispatchedAlong, WellListed;
    EndFacts(site, s, start, l, p, r);
    if p.chain != [] {
      AnswersOnly(site, s, Now(start, l).excludedProviders, l, p, r);
    }
  }

  /** It goes to its providers exactly if a router decided on a group for it. */
  lemma DispatchesIff(site: Site, s: Session, start: Record, l: Ladder, p: Phase, r: Reply)
    requires WellListed(site.reg) && Routed(site, s, start, l, p, r)
    ensures p.chain != [] <==> exists group :: LastDecided(l, RouterDecision(ANSWER, Some(group)))
    ensures p.chain != [] ==> p.group.Some? && LastDecided(l, RouterDecision(ANSWER, p.group))
  {
    hide Routed, Now, TurnOver, NothingLeft, AllowedIds, DispatchedAlong, WellListed;
    EndFacts(site, s, start, l, p, r);
    if p.chain != [] {
      AnswersOnly(site, s, Now(start, l).excludedProviders, l, p, r);
    }
  }

  /**
   It is told that the routers failed exactly if both of its last round's gave nothing to act on:
   each was refused by its circuit, or failed, or decided what may not be acted on.
   */
  lemma RouterFailureIff(site: Site, s: Session, start: Record, l: Ladder, p: Phase, r: Reply)
    requires WellListed(site.reg) && Routed(site, s, start, l, p, r)
    ensures var n := |l.routers|;
            r == Err(RouterFailure) <==>
            && n >= 2 && l.routers[n - 2].primary && !l.routers[n - 1].primary
            && GaveNothing(s, n - 2, l.routers[n - 2]) && GaveNothing(s, n - 1, l.routers[n - 1])
  {
    hide *;
    var n := |l.routers|;
    RoutersOf(site, s, start, l, p, r);
    RoutersGaveUpIff(site, s, start, l, p, r);
    if n >= 2 {
      GaveUpIff(site, s, l.routers, n - 2);
      GaveUpIff(site, s, l.routers, n - 1);
    }
  }

  lemma RoutersGaveUpIff(site: Site, s: Session, start: Record, l: Ladder, p: Phase, r: Reply)
    requires Routed(site, s, start, l, p, r)
    ensures var n := |l.routers|;
            r == Err(RouterFailure) <==>
            && n >= 2 && l.routers[n - 2].primary && !l.routers[n - 1].primary
            && TierGaveUp(l.routers[n - 2].outcome) && TierGaveUp(l.routers[n - 1].outcome)
  {
    hide Routed, Now, TurnOver, AllowedIds, DispatchedAlong, LadderShape, OffersTraced, RoutersGenuine;
    var n := |l.routers|;
    EndFacts(site, s, start, l, p, r);
    RoutersOf(site, s, start, l, p, r);
    if p.chain != [] {
      ErrorsOfProviders(site, s, Now(start, l).excludedProviders, l, p, r);
    }
    if n >= 2 {
      ClimbsAll(l.routers);
      assert Climbs(l.routers, n - 1) && Climbs(l.routers, n - 2);
    }
  }

  lemma ClimbsAll(routers: seq<RouterAttempt>)
    requires LadderShape(routers)
    ensures forall i :: 0 <= i < |routers| ==> Climbs(routers, i)
  {
  }

  lemma RoutersOf(site: Site, s: Session, start: Record, l: Ladder, p: Phase, r: Reply)
    requires Routed(site, s, start, l, p, r)
    ensures RoutersGenuine(site, s, l.routers) && LadderShape(l.routers) && OffersTraced(site, s, start, l.routers)
  {
    hide Concluded, RoutersGenuine, LadderShape, OffersTraced;
  }

  lemma ErrorsOfProviders(site: Site, s: Session, excluded: seq<string>, l: Ladder, p: Phase, r: Reply)
    requires DispatchedAlong(site, s, excluded, l, p, r)
    ensures r.Err? ==> r.error in {GatewayFailure, ProviderFailure, Internal, RequestCancelled, DeadlineExceeded}
    ensures p.group.Some? && LastDecided(l, RouterDecision(ANSWER, p.group))
  {
    hide RoundChain, FollowsChain;
  }

  /** It is told that its policy does not exist, or that it is denied, exactly if its last round had nobody to use. */
  lemma UnaskedIff(site: Site, s: Session, start: Record, l: Ladder, p: Phase, r: Reply)
    requires Routed(site, s, start, l, p, r)
    ensures r == Err(PolicyNotFound) || r == Err(GovernanceDenied) <==>
            l.rounds > 0 && !Askable(site, s, l.rounds - 1, RetriedTimes(start, l.rounds - 1).excludedProviders)
    ensures r == Err(PolicyNotFound) || r == Err(GovernanceDenied) ==>
              var allowed := AllowedIds(site, s, l.rounds - 1, RetriedTimes(start, l.rounds - 1).excludedProviders);
              r == Err(if allowed.Err? then allowed.error else GovernanceDenied)
  {
    hide Routed, RetriedTimes, TurnOver, AllowedIds, DispatchedAlong, LadderShape, OffersTraced, RoutersGenuine;
    EndFacts(site, s, start, l, p, r);
    if p.chain != [] {
      ErrorsOfProviders(site, s, Now(start, l).excludedProviders, l, p, r);
    }
    if l.routers != [] {
      AskedLast(site, s, start, l, p, r);
    }
  }

  lemma AskedLast(site: Site, s: Session, start: Record, l: Ladder, p: Phase, r: Reply)
    requires Routed(site, s, start, l, p, r) && l.routers != []
    ensures var round := l.routers[|l.routers| - 1].round;
            Askable(site, s, round, RetriedTimes(start, round).excludedProviders)
  {
    RoutersOf(site, s, start, l, p, r);
    hide Routed, Askable, RetriedTimes;
  }

  /** The first: a tenant under a control plane, whose last round found no such policy. */
  lemma PolicyNotFoundIff(site: Site, s: Session, start: Record, l: Ladder, p: Phase, r: Reply)
    requires WellListed(site.reg) && Routed(site, s, start, l, p, r)
    ensures r == Err(PolicyNotFound) <==>
            && l.rounds > 0 && site.controlled && s.inbound.tenant.Some?
            && s.script.plane(l.rounds - 1).policy.None?
  {
    hide *;
    UnaskedIff(site, s, start, l, p, r);
    if l.rounds > 0 {
      AskableMeans(site, s, l.rounds - 1, RetriedTimes(start, l.rounds - 1).excludedProviders);
    }
  }

  /** The second: a round that may use no provider at all, whatever its group. */
  lemma GovernanceDeniedIff(site: Site, s: Session, start: Record, l: Ladder, p: Phase, r: Reply)
    requires WellListed(site.reg) && Routed(site, s, start, l, p, r)
    ensures r == Err(GovernanceDenied) <==>
            && l.rounds > 0
            && (site.controlled && s.inbound.tenant.Some? ==> s.script.plane(l.rounds - 1).policy.Some?)
            && !SomebodyUsable(site, s, l.rounds - 1, RetriedTimes(start, l.rounds - 1).excludedProviders)
  {
    hide *;
    UnaskedIff(site, s, start, l, p, r);
    if l.rounds > 0 {
      AskableMeans(site, s, l.rounds - 1, RetriedTimes(start, l.rounds - 1).excludedProviders);
    }
  }

  ghost predicate SomebodyUsable(site: Site, s: Session, round: nat, excluded: seq<string>) {
    exists q :: MayUse(site, s, round, excluded, q)
  }

  lemma AskableMeans(site: Site, s: Session, round: nat, excluded: seq<string>)
    requires WellListed(site.reg)
    ensures Askable(site, s, round, excluded) <==>
            && !(site.controlled && s.inbound.tenant.Some? && s.script.plane(round).policy.None?)
            && SomebodyUsable(site, s, round, excluded)
    ensures AllowedIds(site, s, round, excluded).Err? <==>
            site.controlled && s.inbound.tenant.Some? && s.script.plane(round).policy.None?
    ensures AllowedIds(site, s, round, excluded).Err? ==> AllowedIds(site, s, round, excluded).error == PolicyNotFound
  {
    AllowedMeans(site, s, round, excluded);
    var allowed := AllowedIds(site, s, round, excluded);
    assert forall q :: MayUse(site, s, round, excluded, q) ==> q in site.reg;
    hide AllowedIds, MayUse;
    if allowed.Ok? && allowed.value != [] {
      assert allowed.value[0] in allowed.value;
      FindNamed(site.reg, allowed.value[0]);
    }
  }

  // ---- Providers ------------------------------------------------------------------

  /** The outcome of an attempt that was dispatched and let through, read off what its provider returned. */
  lemma AttemptMeans(blocked: set<Backend>, chain: seq<ProviderConfig>, attempts: seq<ProviderAttempt>, s: Session,
                     i: nat)
    requires FollowsChain(blocked, chain, attempts, s) && i < |attempts|
    requires attempts[i].outcome !in {SkippedAuth, SkippedDeadline, AttemptRefused}
    ensures var outcome, reply := attempts[i].outcome, s.script.generate(i);
            && attempts[i].providerId == chain[i].id && attempts[i].backend == chain[i].backend
            && (outcome == AttemptSucceeded <==> reply.Generated?)
            && (outcome == AttemptFailed(true) <==> reply.ProviderFailed? && reply.blocksBackend)
            && (outcome == AttemptFailed(false) <==>
                  reply == TimedOut || reply == ProviderDisabled || (reply.ProviderFailed? && !reply.blocksBackend))
            && (outcome == AttemptCancelled <==> reply == CallCancelled)
            && (outcome == AttemptCrashed <==> reply == CallCrashed)
  {
    assert Extends(blocked, chain, attempts[..i], attempts[i], s);
    hide BlockedAfter;
  }

  lemma LoopOf(site: Site, s: Session, start: Record, l: Ladder, p: Phase, r: Reply)
    requires Routed(site, s, start, l, p, r) && p.chain != []
    ensures FollowsChain(BlockedByRouters(l.routers), p.chain, p.attempts, s) && LoopEnded(r, p.chain, p.attempts, s)
    ensures p.selected == SelectedBy(p.attempts)
  {
    hide *;
    CountedEnd(site, s, start, l, p, r);
    DispatchedMeans(site, s, Now(start, l).excludedProviders, l, p, r);
  }

  /**
   It is answered exactly if its last attempt got a response that the gateway let through in time;
   then with that, and by that provider. Before its last, every attempt had passed.
   */
  lemma AnswersIff(site: Site, s: Session, start: Record, l: Ladder, p: Phase, r: Reply)
    requires WellListed(site.reg) && Routed(site, s, start, l, p, r)
    ensures var k := |p.attempts| - 1;
            r.Ok? && r.value.action == ANSWER <==>
            && p.attempts != [] && p.attempts[k].outcome == AttemptSucceeded
            && s.script.generate(k).Generated? && s.script.gateway(s.script.generate(k).response).Some?
            && !s.script.late(BeforeCommit(k))
    ensures r.Ok? && r.value.action == ANSWER ==>
              var k := |p.attempts| - 1;
              && |p.attempts| <= |p.chain| && p.selected == Some(p.chain[k].id)
              && r.value == RoutingResponse(s.inbound.chat.conversationId, ANSWER,
                                            s.script.gateway(s.script.generate(k).response).value)
  {
    hide Routed, TurnOver, AllowedIds, DispatchedAlong, RetriedTimes, Now;
    EndFacts(site, s, start, l, p, r);
    if p.chain != [] {
      LoopOf(site, s, start, l, p, r);
      AnswersOnly(site, s, Now(start, l).excludedProviders, l, p, r);
      AnswerEnds(BlockedByRouters(l.routers), p.chain, p.attempts, s, r);
    }
  }

  lemma AnswerEnds(blocked: set<Backend>, chain: seq<ProviderConfig>, attempts: seq<ProviderAttempt>, s: Session,
                   r: Reply)
    requires FollowsChain(blocked, chain, attempts, s) && LoopEnded(r, chain, attempts, s)
    ensures var k := |attempts| - 1;
            r.Ok? <==>
            && attempts != [] && attempts[k].outcome == AttemptSucceeded
            && s.script.generate(k).Generated? && s.script.gateway(s.script.generate(k).response).Some?
            && !s.script.late(BeforeCommit(k))
    ensures r.Ok? ==>
              var k := |attempts| - 1;
              && |attempts| <= |chain| && SelectedBy(attempts) == Some(chain[k].id)
              && r.value == RoutingResponse(s.inbound.chat.conversationId, ANSWER,
                                            s.script.gateway(s.script.generate(k).response).value)
  {
    if attempts != [] {
      var k := |attempts| - 1;
      assert Extends(blocked, chain, attempts[..k], attempts[k], s);
    }
    hide FollowsChain, Extends;
  }

  /** It is told that its providers failed exactly if the whole chain was gone through without a response. */
  lemma ProviderFailureIff(site: Site, s: Session, start: Record, l: Ladder, p: Phase, r: Reply)
    requires Routed(site, s, start, l, p, r)
    ensures r == Err(ProviderFailure) <==>
            && p.chain != [] && |p.attempts| == |p.chain|
            && forall i :: 0 <= i < |p.attempts| ==>
                 p.attempts[i].outcome in {SkippedAuth, AttemptRefused, AttemptFailed(true), AttemptFailed(false)}
  {
    hide Routed, TurnOver, AllowedIds, DispatchedAlong, RetriedTimes, Now, FollowsChain;
    EndFacts(site, s, start, l, p, r);
    if p.chain != [] {
      LoopOf(site, s, start, l, p, r);
      FailureEnds(p.chain, p.attempts, s, r);
    }
  }

  lemma FailureEnds(chain: seq<ProviderConfig>, attempts: seq<ProviderAttempt>, s: Session, r: Reply)
    requires LoopEnded(r, chain, attempts, s)
    ensures r == Err(ProviderFailure) <==>
            && |attempts| == |chain|
            && forall i :: 0 <= i < |attempts| ==>
                 attempts[i].outcome in {SkippedAuth, AttemptRefused, AttemptFailed(true), AttemptFailed(false)}
  {
    forall i | 0 <= i < |attempts|
      ensures Passed(attempts[i]) <==>
              attempts[i].outcome in {SkippedAuth, AttemptRefused, AttemptFailed(true), AttemptFailed(false)}
    {
    }
    hide DeliveredAs;
  }

  /**
   And of the other errors of its providers: the gateway's exactly if it refused the response got;
   an internal one exactly if an attempt crashed; a cancellation exactly if an attempt, or the last
   router, was cancelled; the deadline exactly if it passed before a candidate was tried, all before
   it having passed, or before the response was committed.
   */
  lemma ProviderErrorsIff(site: Site, s: Session, start: Record, l: Ladder, p: Phase, r: Reply)
    requires Routed(site, s, start, l, p, r)
    ensures r == Err(GatewayFailure) <==> GotResponseAt(p, s) && GatewayRefuses(p, s)
    ensures r == Err(Internal) <==> exists i :: 0 <= i < |p.attempts| && p.attempts[i].outcome == AttemptCrashed
    ensures r == Err(RequestCancelled) <==>
            || (exists i :: 0 <= i < |p.attempts| && p.attempts[i].outcome == AttemptCancelled)
            || (l.routers != [] && l.routers[|l.routers| - 1].outcome == TierCancelled)
    ensures r == Err(DeadlineExceeded) <==>
            || (GotResponseAt(p, s) && !GatewayRefuses(p, s) && s.script.late(BeforeCommit(|p.attempts| - 1)))
            || (&& |p.attempts| < |p.chain| && s.script.late(BeforeCandidate(|p.attempts|))
                && forall i :: 0 <= i < |p.attempts| ==>
                     p.attempts[i].outcome in {SkippedAuth, AttemptRefused, AttemptFailed(true), AttemptFailed(false)})
  {
    hide Routed, TurnOver, AllowedIds, DispatchedAlong, RetriedTimes, Now, FollowsChain, GotResponseAt, GatewayRefuses;
    EndFacts(site, s, start, l, p, r);
    if p.chain != [] {
      LoopOf(site, s, start, l, p, r);
      ErrorsOfProviders(site, s, Now(start, l).excludedProviders, l, p, r);
      ErrorEnds(BlockedByRouters(l.routers), p, s, r);
    } else {
      NothingGot(p, s);
    }
  }

  /** The last attempt got a response. */
  predicate GotResponseAt(p: Phase, s: Session) {
    && p.attempts != [] && p.attempts[|p.attempts| - 1].outcome == AttemptSucceeded
    && s.script.generate(|p.attempts| - 1).Generated?
  }

  predicate GatewayRefuses(p: Phase, s: Session) {
    && p.attempts != [] && s.script.generate(|p.attempts| - 1).Generated?
    && s.script.gateway(s.script.generate(|p.attempts| - 1).response) == None
  }

  lemma NothingGot(p: Phase, s: Session)
    requires p.attempts == []
    ensures !GotResponseAt(p, s)
  {
  }

  lemma ErrorEnds(blocked: set<Backend>, p: Phase, s: Session, r: Reply)
    requires FollowsChain(blocked, p.chain, p.attempts, s) && LoopEnded(r, p.chain, p.attempts, s)
    ensures r == Err(GatewayFailure) <==> GotResponseAt(p, s) && GatewayRefuses(p, s)
    ensures r == Err(Internal) <==> exists i :: 0 <= i < |p.attempts| && p.attempts[i].outcome == AttemptCrashed
    ensures r == Err(RequestCancelled)
            <==> exists i :: 0 <= i < |p.attempts| && p.attempts[i].outcome == AttemptCancelled
    ensures r == Err(DeadlineExceeded) <==>
            || (GotResponseAt(p, s) && !GatewayRefuses(p, s) && s.script.late(BeforeCommit(|p.attempts| - 1)))
            || (&& |p.attempts| < |p.chain| && s.script.late(BeforeCandidate(|p.attempts|))
                && forall i :: 0 <= i < |p.attempts| ==>
                     p.attempts[i].outcome in {SkippedAuth, AttemptRefused, AttemptFailed(true), AttemptFailed(false)})
  {
    assert |p.attempts| <= |p.chain|;
    hide *;
    PassedMeans(p.attempts);
    AbortEnds(p, s, r);
    ResponseEnds(p, s, r);
  }

  lemma PassedMeans(attempts: seq<ProviderAttempt>)
    ensures AllPassed(attempts) <==>
            forall i :: 0 <= i < |attempts| ==>
              attempts[i].outcome in {SkippedAuth, AttemptRefused, AttemptFailed(true), AttemptFailed(false)}
  {
    forall i | 0 <= i < |attempts|
      ensures Passed(attempts[i]) <==>
              attempts[i].outcome in {SkippedAuth, AttemptRefused, AttemptFailed(true), AttemptFailed(false)}
    {
    }
  }

  /** No attempt crashed or was cancelled but in a loop that ended so. */
  lemma AbortEnds(p: Phase, s: Session, r: Reply)
    requires LoopEnded(r, p.chain, p.attempts, s)
    ensures r == Err(Internal) <==> exists i :: 0 <= i < |p.attempts| && p.attempts[i].outcome == AttemptCrashed
    ensures r == Err(RequestCancelled)
            <==> exists i :: 0 <= i < |p.attempts| && p.attempts[i].outcome == AttemptCancelled
  {
    var n := |p.attempts|;
    hide DeliveredAs;
    assert n > 0 ==> forall i :: 0 <= i < n - 1 ==> p.attempts[..n - 1][i] == p.attempts[i];
    if r == Err(RequestCancelled) {
      var c: nat :| CancelledAt(c, p.chain, p.attempts, s.script.late(OnCancelled(c)));
      assert forall i :: 0 <= i < c ==> p.attempts[..c][i] == p.attempts[i];
    }
  }

  /** What became of a response, if the last attempt got one. */
  lemma ResponseEnds(p: Phase, s: Session, r: Reply)
    requires LoopEnded(r, p.chain, p.attempts, s) && |p.attempts| <= |p.chain|
    ensures r == Err(GatewayFailure) <==> GotResponseAt(p, s) && GatewayRefuses(p, s)
    ensures r == Err(DeadlineExceeded) <==>
            || (GotResponseAt(p, s) && !GatewayRefuses(p, s) && s.script.late(BeforeCommit(|p.attempts| - 1)))
            || (AllPassed(p.attempts) && |p.attempts| < |p.chain| && s.script.late(BeforeCandidate(|p.attempts|)))
  {
    var n := |p.attempts|;
    assert n > 0 && AllPassed(p.attempts) ==> Passed(p.attempts[n - 1]);
    if r == Err(RequestCancelled) {
      var c: nat :| CancelledAt(c, p.chain, p.attempts, s.script.late(OnCancelled(c)));
      assert n > 0 && !AllPassed(p.attempts) && !p.attempts[n - 1].outcome.AttemptSucceeded? by {
        assert !Passed(p.attempts[c]);
      }
    }
    hide AllPassed, CancelledAt, Passed;
  }

  // ---- At the boundary ------------------------------------------------------------

  /** A client is told of a cancellation exactly if the deadline had not passed with it, else of the deadline. */
  lemma ClientIsTold(inner: Reply, s: Session)
    ensures AtBoundary(inner, s) == Err(RequestCancelled) <==> inner == Err(RequestCancelled) && !s.script.late(AtExit)
    ensures AtBoundary(inner, s) == Err(DeadlineExceeded) <==>
            inner == Err(DeadlineExceeded) || (inner == Err(RequestCancelled) && s.script.late(AtExit))
    ensures inner != Err(RequestCancelled) ==> AtBoundary(inner, s) == inner
  {
  }

  // ---- What the circuits note -----------------------------------------------------

  /** The kind of mark that the call ended with is what its circuit should make of that end. */
  predicate SettledAs(kind: Kind, responded: bool, againstBackend: bool, otherFailure: bool) {
    && (kind == Succeeded <==> responded)
    && (kind == FailedTransient <==> againstBackend)
    && (kind == FailedOther <==> otherFailure)
    && (kind == SlotReleased <==> !responded && !againstBackend && !otherFailure)
  }

  /** A provider attempt let through is noted as admitted and then settled, by what the provider returned. */
  lemma AttemptIsSettled(s: Session, calls: nat, j: nat, a: ProviderAttempt)
    requires a.outcome !in {SkippedAuth, SkippedDeadline, AttemptRefused}
    ensures var marks, reply := AttemptMarks(s, calls, j, a), s.script.generate(j);
            && |marks| == 2 && marks[0] == Mark(CallId(s.request, calls + j), Admitted)
            && marks[1].id == marks[0].id
            && SettledAs(marks[1].kind, reply.Generated?,
                         reply == TimedOut || (reply.ProviderFailed? && reply.scope == BackendTransient),
                         reply.ProviderFailed? && reply.scope != BackendTransient)
  {
    DispatchSettles(s.script.generate(j));
  }

  /** So is a router attempt, by its deciding POST. */
  lemma RouterIsSettled(site: Site, s: Session, i: nat, a: RouterAttempt)
    requires a.outcome != TierRefused
    ensures var marks, last := RouterMarks(site, s, i, a), DecidingPost(s.script.firstPost(i), s.script.repairPost(i));
            && |marks| == 2 && marks[0] == Mark(CallId(s.request, i), Admitted)
            && marks[1].id == marks[0].id
            && SettledAs(marks[1].kind, last.HttpOk? && last.parsed.Some?,
                         last.TierTimedOut? || (last.HttpFailed? && last.scope == BackendTransient),
                         last == HttpOk(None) || (last.HttpFailed? && last.scope != BackendTransient))
  {
    DecideSettles(site.Tier(a.primary), s.script.firstPost(i), s.script.repairPost(i));
    hide VerdictOf;
  }
}
