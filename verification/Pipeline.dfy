/**
 What the candidate pipeline promises end to end: the registry, governance, the policy,
 the offered groups, the validator and the dispatch chain each compute who may serve a
 request in their own shape, and these facts agree.
 */
module Pipeline {
  import opened Common
  import opened Ordering
  import opened Schemas
  import opened Registry
  import opened ControlPlane

  // ---- Ranking --------------------------------------------------------------------

  /** What a policy sorts by is exactly the score it reports, negated. */
  lemma SortMajorIsNegatedScore(kind: PolicyKind, p: ProviderConfig)
    ensures SortMajor(kind, p) == -Score(kind, p)
  {
  }

  /** `p` may stand before `q` under a policy: by the metadata the policy is about, equals by id. */
  predicate MayPrecede(kind: PolicyKind, p: ProviderConfig, q: ProviderConfig) {
    match kind
    case Cheapest => p.cost < q.cost || (p.cost == q.cost && StringLe(p.id, q.id))
    case LowestLatency => p.latency < q.latency || (p.latency == q.latency && StringLe(p.id, q.id))
    case HighestQuality => p.quality > q.quality || (p.quality == q.quality && StringLe(p.id, q.id))
    case Balanced =>
      || p.health * p.capacity > q.health * q.capacity
      || (p.health * p.capacity == q.health * q.capacity && StringLe(p.id, q.id))
    case LegacyBalanced => true
    case Compliance => true
  }

  /** Along `ids`, each record may stand before every later one. */
  ghost predicate InPolicyOrder(kind: PolicyKind, reg: seq<ProviderConfig>, ids: seq<string>) {
    forall i, j :: 0 <= i < j < |ids| && Find(reg, ids[i]).Some? && Find(reg, ids[j]).Some? ==>
      MayPrecede(kind, Find(reg, ids[i]).value, Find(reg, ids[j]).value)
  }

  lemma KeysInPolicyOrder(kind: PolicyKind, reg: seq<ProviderConfig>, a: string, b: string)
    requires !KeepsRegistryOrder(kind) && Find(reg, a).Some? && Find(reg, b).Some?
    requires KeyLess(ByPolicy(kind, reg)(a), ByPolicy(kind, reg)(b))
    ensures MayPrecede(kind, Find(reg, a).value, Find(reg, b).value)
  {
    FindNamed(reg, a);
    FindNamed(reg, b);
  }

  /** A policy ranks by its own metadata, ties by id; the two that have none keep registration order. */
  lemma ResolvedInPolicyOrder(reg: seq<ProviderConfig>, governance: GovernancePolicy, kind: PolicyKind,
                              context: RoutingContext, excluded: seq<string>)
    requires WellListed(reg)
    ensures InPolicyOrder(kind, reg, Resolved(reg, governance, kind, context, excluded))
    ensures kind == LegacyBalanced || kind == Compliance ==>
              Resolved(reg, governance, kind, context, excluded) == EligibleIds(reg, governance, context, excluded)
  {
    var ids, key := EligibleIds(reg, governance, context, excluded), ByPolicy(kind, reg);
    var ranked := Resolved(reg, governance, kind, context, excluded);
    if !KeepsRegistryOrder(kind) {
      AvailableRegistered(reg, excluded);
      FilterDistinct(AvailableForRouter(reg, excluded), Passes(governance, context, reg));
      forall i, j | 0 <= i < j < |ids| ensures key(ids[i]) != key(ids[j]) {
        assert key(ids[i]).id == ids[i] && key(ids[j]).id == ids[j];
      }
      SortStrict(ids, key);
      hide *;
      forall i, j | 0 <= i < j < |ranked| && Find(reg, ranked[i]).Some? && Find(reg, ranked[j]).Some?
        ensures MayPrecede(kind, Find(reg, ranked[i]).value, Find(reg, ranked[j]).value)
      {
        assert KeyLess(key(ranked[i]), key(ranked[j]));
        KeysInPolicyOrder(kind, reg, ranked[i], ranked[j]);
      }
    }
  }

  /** The rankings report each id's place from 1, and the metadata it was ranked by, negated where less is better. */
  lemma RankingsReport(reg: seq<ProviderConfig>, kind: PolicyKind, ranked: seq<string>, i: nat)
    requires i < |ranked| && Find(reg, ranked[i]).Some?
    ensures var p := Find(reg, ranked[i]).value;
            && Rankings(kind, reg, ranked)[i].providerId == ranked[i] && Rankings(kind, reg, ranked)[i].rank == i + 1
            && Rankings(kind, reg, ranked)[i].score
               == match kind
                  case Cheapest => 0.0 - p.cost
                  case LowestLatency => 0.0 - p.latency
                  case HighestQuality => p.quality
                  case Balanced => p.health * p.capacity
                  case _ => 0.0
  {
  }

  ghost predicate ScoresNonIncreasing(kind: PolicyKind, reg: seq<ProviderConfig>, ids: seq<string>) {
    forall i, j :: 0 <= i < j < |ids| ==> ScoreOf(kind, reg, ids[i]) >= ScoreOf(kind, reg, ids[j])
  }

  /** Ranking conserves its input, and its reported scores never rise along it, for every policy kind. */
  lemma RankingIsAPermutation(kind: PolicyKind, reg: seq<ProviderConfig>, ids: seq<string>)
    requires Distinct(ids) && AllRegistered(reg, ids)
    ensures multiset(RankIds(kind, reg, ids)) == multiset(ids)
    ensures Distinct(RankIds(kind, reg, ids))
    ensures ScoresNonIncreasing(kind, reg, RankIds(kind, reg, ids))
  {
    var key := ByPolicy(kind, reg);
    var ranked := RankIds(kind, reg, ids);
    if !KeepsRegistryOrder(kind) {
      forall i, j | 0 <= i < j < |ids| ensures key(ids[i]) != key(ids[j]) {
        assert key(ids[i]).id == ids[i] && key(ids[j]).id == ids[j];
      }
      SortStrict(ids, key);
      SortMembers(ids, key);
      forall i, j | 0 <= i < j < |ranked|
        ensures ranked[i] != ranked[j] && ScoreOf(kind, reg, ranked[i]) >= ScoreOf(kind, reg, ranked[j])
      {
        assert KeyLess(key(ranked[i]), key(ranked[j]));
        assert ranked[i] in ids && ranked[j] in ids;
        SortMajorIsNegatedScore(kind, Find(reg, ranked[i]).value);
        SortMajorIsNegatedScore(kind, Find(reg, ranked[j]).value);
      }
    }
  }

  /** The ids a candidate set ranks: registered, distinct, available, and passed by governance. */
  lemma ResolvedFacts(reg: seq<ProviderConfig>, governance: GovernancePolicy, kind: PolicyKind, context: RoutingContext,
                      excluded: seq<string>)
    requires WellListed(reg)
    ensures var ranked := Resolved(reg, governance, kind, context, excluded);
            && Distinct(ranked) && AllRegistered(reg, ranked) && ScoresNonIncreasing(kind, reg, ranked)
            && forall id :: id in ranked <==>
                 && Find(reg, id).Some? && Find(reg, id).value.enabled && id !in excluded
                 && Permitted(governance, context, Find(reg, id).value)
  {
    AvailableRegistered(reg, excluded);
    var available := AvailableForRouter(reg, excluded);
    var eligible := EligibleIds(reg, governance, context, excluded);
    FilterDistinct(available, Passes(governance, context, reg));
    forall i | 0 <= i < |eligible| ensures Find(reg, eligible[i]).Some? {
      assert eligible[i] in available;
    }
    RankingIsAPermutation(kind, reg, eligible);
    var ranked := Resolved(reg, governance, kind, context, excluded);
    forall id ensures id in ranked <==> id in eligible {
      assert id in multiset(ranked) <==> id in multiset(eligible);
    }
    forall id | Find(reg, id).Some?
      ensures Permitted(governance, context, Find(reg, id).value) <==> Passes(governance, context, reg)(id)
    {
      PermittedIffNoReason(governance, context, Find(reg, id).value);
    }
    forall i | 0 <= i < |ranked| ensures Find(reg, ranked[i]).Some? {
      assert ranked[i] in eligible;
    }
  }

  // ---- Groups, validation and chains agree ----------------------------------------

  lemma EveryGroupListed(group: TaskGroup)
    ensures group in TASK_GROUPS
  {
    match group
    case GENERAL => assert TASK_GROUPS[0] == group;
    case CODING_REASONING => assert TASK_GROUPS[1] == group;
    case CREATIVE => assert TASK_GROUPS[2] == group;
    case MULTIMODAL => assert TASK_GROUPS[3] == group;
  }

  /** A group is offered exactly when its dispatch chain would not be empty. */
  lemma OfferedIffChainNonEmpty(reg: seq<ProviderConfig>, group: TaskGroup, requiresImage: bool, excluded: seq<string>,
                                allowed: seq<string>, preserve: bool)
    requires forall id :: id in allowed ==> id !in excluded
    ensures group in AvailableTaskGroups(reg, Some(allowed), requiresImage) <==>
            CandidatesFor(reg, ChainQuery(group, requiresImage, excluded, Some(allowed)), preserve) != []
  {
    var q := ChainQuery(group, requiresImage, excluded, Some(allowed));
    var chain := CandidatesFor(reg, q, preserve);
    CandidatesMembers(reg, q, preserve);
    EveryGroupListed(group);
    hide CandidatesFor, Filter;
    if Offers(reg, Some(allowed), requiresImage, group) {
      var i :| 0 <= i < |reg| && MayServe(reg[i], Some(allowed), requiresImage) && reg[i].taskGroup == group;
      assert reg[i] in reg && q.Accepts(reg[i]);
      assert reg[i] in chain;
    }
    if chain != [] {
      assert chain[0] in chain;
      var i :| 0 <= i < |reg| && reg[i] == chain[0];
      assert MayServe(reg[i], Some(allowed), requiresImage);
    }
  }

  /** Whatever task group the validator lets through, there is a provider to dispatch to. */
  lemma ValidatedAnswerHasCandidate(reg: seq<ProviderConfig>, d: RouterDecision, hasImage: bool, retry: bool,
                                    excluded: seq<string>, allowed: seq<string>, preserve: bool)
    requires forall id :: id in allowed ==> id !in excluded
    requires Validate(d, AvailableTaskGroups(reg, Some(allowed), hasImage), hasImage, retry) == Ok(d)
    requires d.action == ANSWER
    ensures CandidatesFor(reg, ChainQuery(d.taskGroup.value, hasImage, excluded, Some(allowed)), preserve) != []
  {
    OfferedIffChainNonEmpty(reg, d.taskGroup.value, hasImage, excluded, allowed, preserve);
  }

  /** The validator accepts exactly these decisions. */
  lemma ValidatorAcceptsExactly(d: RouterDecision, groups: seq<TaskGroup>, hasImage: bool, retry: bool)
    ensures Validate(d, groups, hasImage, retry).Ok? <==>
            && (d.action == ANSWER <==> d.taskGroup.Some?)
            && (d.action == RETRY ==> retry)
            && (d.action == ANSWER ==> d.taskGroup.value in groups && (hasImage ==> d.taskGroup == Some(MULTIMODAL)))
    ensures Validate(d, groups, hasImage, retry).Ok? ==> Validate(d, groups, hasImage, retry).value == d
  {
  }

  /** Everything a dispatched provider has been checked for. */
  ghost predicate EligibleFor(reg: seq<ProviderConfig>, governance: GovernancePolicy, context: RoutingContext,
                              excluded: seq<string>, hasImage: bool, group: TaskGroup, p: ProviderConfig)
  {
    && p in reg && p.enabled && p.id !in excluded
    && Permitted(governance, context, p) && ReasonToExclude(governance, context, p).None?
    && p.taskGroup == group
    && (hasImage ==> p.acceptsImages && group == MULTIMODAL)
  }

  /**
   From a validated ANSWER, every provider of a governed chain meets every constraint:
   registry, exclusions, governance, group and modality; and an image goes to `multimodal`.
   */
  lemma ChainIsEligible(reg: seq<ProviderConfig>, governance: GovernancePolicy, kind: PolicyKind,
                        context: RoutingContext, excluded: seq<string>, hasImage: bool, retry: bool, d: RouterDecision)
    requires WellListed(reg) && d.action == ANSWER
    requires var allowed := Resolved(reg, governance, kind, context, excluded);
             Validate(d, AvailableTaskGroups(reg, Some(allowed), hasImage), hasImage, retry) == Ok(d)
    ensures var allowed := Resolved(reg, governance, kind, context, excluded);
            var chain := CandidatesFor(reg, ChainQuery(d.taskGroup.value, hasImage, excluded, Some(allowed)), true);
            && chain != [] && WellListed(chain)
            && forall p :: p in chain
                 ==> EligibleFor(reg, governance, context, excluded, hasImage, d.taskGroup.value, p)
  {
    var allowed := Resolved(reg, governance, kind, context, excluded);
    var q := ChainQuery(d.taskGroup.value, hasImage, excluded, Some(allowed));
    ResolvedFacts(reg, governance, kind, context, excluded);
    ValidatedAnswerHasCandidate(reg, d, hasImage, retry, excluded, allowed, true);
    CandidatesDistinct(reg, q, true);
    CandidatesMembers(reg, q, true);
    forall p | p in CandidatesFor(reg, q, true)
      ensures EligibleFor(reg, governance, context, excluded, hasImage, d.taskGroup.value, p)
    {
      FindRegistered(reg, p);
      PermittedIffNoReason(governance, context, p);
    }
  }

  // ---- The order of a governed chain ----------------------------------------------

  function InChain(reg: seq<ProviderConfig>, q: ChainQuery): string -> bool {
    (id: string) =>
      var p := Find(reg, id);
      p.Some? && q.Accepts(p.value)
  }

  function ByRankOnly(allowed: seq<string>): string -> Key {
    (id: string) => Key(PolicyRank(allowed, id) as real, 0, "")
  }

  /** Elements kept by a filter stand in the order of the positions they came from. */
  lemma {:induction false} FilterPositions<T(!new)>(s: seq<T>, keep: T -> bool, i: nat, j: nat) returns (a: nat, b: nat)
    requires i < j < |Filter(s, keep)|
    ensures a < b < |s| && s[a] == Filter(s, keep)[i] && s[b] == Filter(s, keep)[j]
  {
    if keep(s[0]) {
      if i == 0 {
        a := 0;
        assert Filter(s, keep)[j] in Filter(s[1..], keep);
        b :| 0 < b < |s| && s[b] == Filter(s, keep)[j];
      } else {
        a, b := FilterPositions(s[1..], keep, i - 1, j - 1);
        a, b := a + 1, b + 1;
      }
    } else {
      a, b := FilterPositions(s[1..], keep, i, j);
      a, b := a + 1, b + 1;
    }
  }

  lemma FilteredRankingIncreases(allowed: seq<string>, keep: string -> bool)
    requires Distinct(allowed)
    ensures StrictlySorted(Filter(allowed, keep), ByRankOnly(allowed))
  {
    var kept := Filter(allowed, keep);
    forall i, j | 0 <= i < j < |kept| ensures KeyLess(ByRankOnly(allowed)(kept[i]), ByRankOnly(allowed)(kept[j])) {
      var a, b := FilterPositions(allowed, keep, i, j);
      assert LastIndex(allowed, kept[i]) == a && LastIndex(allowed, kept[j]) == b;
    }
  }

  lemma RanksDiffer(allowed: seq<string>, a: string, b: string)
    requires a in allowed && b in allowed && a != b
    ensures PolicyRank(allowed, a) != PolicyRank(allowed, b)
  {
    assert allowed[LastIndex(allowed, a)] == a && allowed[LastIndex(allowed, b)] == b;
  }

  lemma ChainRanksIncrease(reg: seq<ProviderConfig>, q: ChainQuery)
    requires WellListed(reg) && q.allowed.Some?
    ensures StrictlySorted(Ids(CandidatesFor(reg, q, true)), ByRankOnly(q.allowed.value))
  {
    var allowed := q.allowed.value;
    var candidates := Filter(reg, q.Filtering());
    var chain := CandidatesFor(reg, q, true);
    FilterWellListed(reg, q.Filtering());
    SortStrict(candidates, ByPolicyRank(allowed));
    CandidatesDistinct(reg, q, true);
    CandidatesMembers(reg, q, true);
    var ids := Ids(chain);
    assert chain == SortBy(candidates, ByPolicyRank(allowed));
    hide CandidatesFor, SortBy, Filter, PolicyRank;
    forall i, j | 0 <= i < j < |ids| ensures KeyLess(ByRankOnly(allowed)(ids[i]), ByRankOnly(allowed)(ids[j])) {
      assert KeyLess(ByPolicyRank(allowed)(chain[i]), ByPolicyRank(allowed)(chain[j]));
      assert chain[i] in chain && chain[j] in chain;
      RanksDiffer(allowed, chain[i].id, chain[j].id);
    }
  }

  /** The rank-keyed sort of a governed chain is the plain order-preserving filter of the ranking. */
  lemma ChainRefinesRanking(reg: seq<ProviderConfig>, q: ChainQuery)
    requires WellListed(reg) && q.allowed.Some? && Distinct(q.allowed.value)
    ensures Ids(CandidatesFor(reg, q, true)) == Filter(q.allowed.value, InChain(reg, q))
  {
    var allowed := q.allowed.value;
    var chain := CandidatesFor(reg, q, true);
    var ids, kept := Ids(chain), Filter(allowed, InChain(reg, q));
    CandidatesMembers(reg, q, true);
    forall id ensures id in ids <==> id in kept {
      if id in ids {
        var k :| 0 <= k < |ids| && ids[k] == id;
        assert chain[k] in chain;
        FindRegistered(reg, chain[k]);
      }
      if id in kept {
        FindNamed(reg, id);
        var k :| 0 <= k < |chain| && chain[k] == Find(reg, id).value;
        assert ids[k] == id;
      }
    }
    ChainRanksIncrease(reg, q);
    FilteredRankingIncreases(allowed, InChain(reg, q));
    StrictUnique(ids, kept, ByRankOnly(allowed));
  }

  /** Policy scores never rise along a governed dispatch chain, whatever the policy kind. */
  lemma ChainScoresNonIncreasing(reg: seq<ProviderConfig>, governance: GovernancePolicy, kind: PolicyKind,
                                 context: RoutingContext, excluded: seq<string>, group: TaskGroup, requiresImage: bool)
    requires WellListed(reg)
    ensures var allowed := Resolved(reg, governance, kind, context, excluded);
            ScoresNonIncreasing(kind, reg,
                                Ids(CandidatesFor(reg, ChainQuery(group, requiresImage, excluded, Some(allowed)),
                                                  true)))
  {
    var allowed := Resolved(reg, governance, kind, context, excluded);
    var q := ChainQuery(group, requiresImage, excluded, Some(allowed));
    ResolvedFacts(reg, governance, kind, context, excluded);
    ChainRefinesRanking(reg, q);
    var ids := Filter(allowed, InChain(reg, q));
    forall i, j | 0 <= i < j < |ids| ensures ScoreOf(kind, reg, ids[i]) >= ScoreOf(kind, reg, ids[j]) {
      var a, b := FilterPositions(allowed, InChain(reg, q), i, j);
    }
  }

  /** So a governed dispatch chain tries its providers in the order of the policy's own metadata. */
  lemma ChainInPolicyOrder(reg: seq<ProviderConfig>, governance: GovernancePolicy, kind: PolicyKind,
                           context: RoutingContext, excluded: seq<string>, group: TaskGroup, requiresImage: bool)
    requires WellListed(reg)
    ensures var allowed := Resolved(reg, governance, kind, context, excluded);
            var chain := CandidatesFor(reg, ChainQuery(group, requiresImage, excluded, Some(allowed)), true);
            forall i, j :: 0 <= i < j < |chain| ==> MayPrecede(kind, chain[i], chain[j])
  {
    var allowed := Resolved(reg, governance, kind, context, excluded);
    var q := ChainQuery(group, requiresImage, excluded, Some(allowed));
    var chain := CandidatesFor(reg, q, true);
    ResolvedFacts(reg, governance, kind, context, excluded);
    ResolvedInPolicyOrder(reg, governance, kind, context, excluded);
    ChainRefinesRanking(reg, q);
    CandidatesMembers(reg, q, true);
    hide CandidatesFor, Resolved, Filter, MayPrecede;
    forall i, j | 0 <= i < j < |chain| ensures MayPrecede(kind, chain[i], chain[j]) {
      assert chain[i] in chain && chain[j] in chain;
      FindRegistered(reg, chain[i]);
      FindRegistered(reg, chain[j]);
      assert Ids(chain)[i] == chain[i].id && Ids(chain)[j] == chain[j].id;
      var a, b := FilterPositions(allowed, InChain(reg, q), i, j);
    }
  }

  /** Who is in a chain, field by field. */
  lemma ChainMembersExactly(reg: seq<ProviderConfig>, q: ChainQuery, preserve: bool)
    ensures forall p :: p in CandidatesFor(reg, q, preserve) <==>
              && p in reg && p.enabled && p.taskGroup == q.group && p.id !in q.excluded
              && (q.allowed.Some? ==> p.id in q.allowed.value) && (q.requiresImage ==> p.acceptsImages)
  {
    CandidatesMembers(reg, q, preserve);
  }

  // ---- Independence of registration order -----------------------------------------

  ghost predicate SameRecords(a: seq<ProviderConfig>, b: seq<ProviderConfig>) {
    forall p :: p in a <==> p in b
  }

  lemma SameRecordsFound(a: seq<ProviderConfig>, b: seq<ProviderConfig>, id: string)
    requires WellListed(a) && WellListed(b) && SameRecords(a, b)
    ensures Find(a, id) == Find(b, id)
  {
    FindNamed(a, id);
    FindNamed(b, id);
    if Find(a, id).Some? {
      FindRegistered(b, Find(a, id).value);
    }
  }

  lemma DistinctPriorityKeys(reg: seq<ProviderConfig>)
    requires WellListed(reg)
    ensures forall i, j :: 0 <= i < j < |reg| ==> ByPriority()(reg[i]) != ByPriority()(reg[j])
  {
  }

  /** The ungoverned chain does not depend on the order providers were registered in. */
  lemma PriorityChainOrderIndependent(a: seq<ProviderConfig>, b: seq<ProviderConfig>, group: TaskGroup,
                                      requiresImage: bool, excluded: seq<string>)
    requires WellListed(a) && WellListed(b) && SameRecords(a, b)
    ensures CandidatesFor(a, ChainQuery(group, requiresImage, excluded, Some(AvailableForRouter(a, excluded))), false)
            == CandidatesFor(b, ChainQuery(group, requiresImage, excluded, Some(AvailableForRouter(b, excluded))),
                             false)
  {
    var qa := ChainQuery(group, requiresImage, excluded, Some(AvailableForRouter(a, excluded)));
    var qb := ChainQuery(group, requiresImage, excluded, Some(AvailableForRouter(b, excluded)));
    AvailableRegistered(a, excluded);
    AvailableRegistered(b, excluded);
    forall p | p in a ensures qa.Accepts(p) == qb.Accepts(p) {
      SameRecordsFound(a, b, p.id);
    }
    FilterWellListed(a, qa.Filtering());
    FilterWellListed(b, qb.Filtering());
    DistinctPriorityKeys(Filter(a, qa.Filtering()));
    DistinctPriorityKeys(Filter(b, qb.Filtering()));
    SortOrderIndependent(Filter(a, qa.Filtering()), Filter(b, qb.Filtering()), ByPriority());
  }

  lemma {:induction false} InsertKeysAgree<T(!new)>(x: T, s: seq<T>, f: T -> Key, g: T -> Key)
    requires f(x) == g(x) && forall y :: y in s ==> f(y) == g(y)
    ensures Insert(x, s, f) == Insert(x, s, g)
  {
    if s != [] {
      assert s[0] in s;
      forall y | y in s[1..] ensures f(y) == g(y) {
        assert y in s;
      }
      InsertKeysAgree(x, s[1..], f, g);
    }
  }

  lemma {:induction false} SortKeysAgree<T(!new)>(s: seq<T>, f: T -> Key, g: T -> Key)
    requires forall y :: y in s ==> f(y) == g(y)
    ensures SortBy(s, f) == SortBy(s, g)
  {
    if s != [] {
      assert s[0] in s;
      forall y | y in s[1..] ensures f(y) == g(y) {
        assert y in s;
      }
      SortKeysAgree(s[1..], f, g);
      SortMembers(s[1..], f);
      InsertKeysAgree(s[0], SortBy(s[1..], f), f, g);
    }
  }

  lemma DistinctPolicyKeys(kind: PolicyKind, reg: seq<ProviderConfig>, ids: seq<string>)
    requires Distinct(ids)
    ensures forall i, j :: 0 <= i < j < |ids| ==> ByPolicy(kind, reg)(ids[i]) != ByPolicy(kind, reg)(ids[j])
  {
    forall i, j | 0 <= i < j < |ids| ensures ByPolicy(kind, reg)(ids[i]) != ByPolicy(kind, reg)(ids[j]) {
      assert ByPolicy(kind, reg)(ids[i]).id == ids[i] && ByPolicy(kind, reg)(ids[j]).id == ids[j];
    }
  }

  lemma SameEligibleIds(a: seq<ProviderConfig>, b: seq<ProviderConfig>, governance: GovernancePolicy,
                        context: RoutingContext, excluded: seq<string>)
    requires WellListed(a) && WellListed(b) && SameRecords(a, b)
    ensures forall id :: id in EligibleIds(a, governance, context, excluded)
              <==> id in EligibleIds(b, governance, context, excluded)
  {
    AvailableRegistered(a, excluded);
    AvailableRegistered(b, excluded);
    forall id
      ensures id in EligibleIds(a, governance, context, excluded)
              <==> id in EligibleIds(b, governance, context, excluded)
    {
      SameRecordsFound(a, b, id);
    }
  }

  /** The four metadata-sorted policies rank the same way for every registration order. */
  lemma RankingOrderIndependent(a: seq<ProviderConfig>, b: seq<ProviderConfig>, governance: GovernancePolicy,
                                kind: PolicyKind, context: RoutingContext, excluded: seq<string>)
    requires WellListed(a) && WellListed(b) && SameRecords(a, b) && !KeepsRegistryOrder(kind)
    ensures Resolved(a, governance, kind, context, excluded) == Resolved(b, governance, kind, context, excluded)
  {
    AvailableRegistered(a, excluded);
    AvailableRegistered(b, excluded);
    var ea, eb := EligibleIds(a, governance, context, excluded), EligibleIds(b, governance, context, excluded);
    FilterDistinct(AvailableForRouter(a, excluded), Passes(governance, context, a));
    FilterDistinct(AvailableForRouter(b, excluded), Passes(governance, context, b));
    SameEligibleIds(a, b, governance, context, excluded);
    DistinctPolicyKeys(kind, a, ea);
    DistinctPolicyKeys(kind, a, eb);
    SortOrderIndependent(ea, eb, ByPolicy(kind, a));
    forall id | id in eb ensures ByPolicy(kind, a)(id) == ByPolicy(kind, b)(id) {
      SameRecordsFound(a, b, id);
    }
    SortKeysAgree(eb, ByPolicy(kind, a), ByPolicy(kind, b));
  }

  lemma {:induction false} FilterIds(s: seq<ProviderConfig>, keep: ProviderConfig -> bool, keepId: string -> bool)
    requires forall p :: p in s ==> keepId(p.id) == keep(p)
    ensures Filter(Ids(s), keepId) == Ids(Filter(s, keep))
  {
    if s != [] {
      assert s[0] in s;
      assert Ids(s)[1..] == Ids(s[1..]);
      forall p | p in s[1..] ensures keepId(p.id) == keep(p) {
        assert p in s;
      }
      FilterIds(s[1..], keep, keepId);
      if keep(s[0]) {
        assert Ids([s[0]] + Filter(s[1..], keep)) == [s[0].id] + Ids(Filter(s[1..], keep));
      }
    }
  }

  lemma {:induction false} IdsDetermine(reg: seq<ProviderConfig>, a: seq<ProviderConfig>, b: seq<ProviderConfig>)
    requires WellListed(reg) && (forall p :: p in a ==> p in reg) && (forall p :: p in b ==> p in reg)
    requires Ids(a) == Ids(b)
    ensures a == b
  {
    forall i | 0 <= i < |a| ensures a[i] == b[i] {
      assert Ids(a)[i] == Ids(b)[i];
      assert a[i] in a && b[i] in b;
      FindRegistered(reg, a[i]);
      FindRegistered(reg, b[i]);
    }
    assert |Ids(a)| == |Ids(b)|;
  }

  /** A provider of the group that is available and can take the request. */
  function Able(excluded: seq<string>, group: TaskGroup, requiresImage: bool): ProviderConfig -> bool {
    (p: ProviderConfig) => p.enabled && p.id !in excluded && p.taskGroup == group && (!requiresImage || p.acceptsImages)
  }

  function PermittedBy(governance: GovernancePolicy, context: RoutingContext): ProviderConfig -> bool {
    (p: ProviderConfig) => Permitted(governance, context, p)
  }

  function Both(f: ProviderConfig -> bool, g: ProviderConfig -> bool): ProviderConfig -> bool {
    (p: ProviderConfig) => f(p) && g(p)
  }

  /** Under a policy that keeps registry order, the eligible ids are those of the registry filtered. */
  lemma EligibleIdsAreFiltered(reg: seq<ProviderConfig>, governance: GovernancePolicy, context: RoutingContext,
                               excluded: seq<string>)
    requires WellListed(reg)
    ensures EligibleIds(reg, governance, context, excluded)
            == Ids(Filter(reg, Both(EnabledAndNotIn(excluded), PermittedBy(governance, context))))
  {
    var enabled, permitted := Filter(reg, EnabledAndNotIn(excluded)), PermittedBy(governance, context);
    forall p | p in enabled ensures Passes(governance, context, reg)(p.id) == permitted(p) {
      FindRegistered(reg, p);
      PermittedIffNoReason(governance, context, p);
    }
    FilterIds(enabled, permitted, Passes(governance, context, reg));
    FilterFilter(reg, EnabledAndNotIn(excluded), permitted, Both(EnabledAndNotIn(excluded), permitted));
  }

  /**
   Ranked by registry order, a governed chain is the registry filtered to the able and permitted,
   whatever the governance policy, the exclusions, the group and the image.
   */
  lemma LegacyChainIsFiltered(reg: seq<ProviderConfig>, governance: GovernancePolicy, kind: PolicyKind,
                              context: RoutingContext, excluded: seq<string>, group: TaskGroup, requiresImage: bool)
    requires WellListed(reg) && KeepsRegistryOrder(kind)
    ensures CandidatesFor(reg,
                          ChainQuery(group, requiresImage, excluded,
                                     Some(Resolved(reg, governance, kind, context, excluded))), true)
            == Filter(reg, Both(Able(excluded, group, requiresImage), PermittedBy(governance, context)))
  {
    var allowed := Resolved(reg, governance, kind, context, excluded);
    var q := ChainQuery(group, requiresImage, excluded, Some(allowed));
    var eligible := Both(EnabledAndNotIn(excluded), PermittedBy(governance, context));
    var served := Both(Able(excluded, group, requiresImage), PermittedBy(governance, context));
    ResolvedFacts(reg, governance, kind, context, excluded);
    EligibleIdsAreFiltered(reg, governance, context, excluded);
    ChainRefinesRanking(reg, q);
    forall p | p in reg ensures q.Accepts(p) == served(p) && (p.id in allowed <==> eligible(p)) {
      FindRegistered(reg, p);
    }
    forall p | p in Filter(reg, eligible) ensures InChain(reg, q)(p.id) == q.Filtering()(p) {
      FindRegistered(reg, p);
    }
    ChainOfFiltered(reg, q, eligible, served);
  }

  /** A chain whose ids are the accepted ones of a filtered registry is that registry filtered further. */
  lemma ChainOfFiltered(reg: seq<ProviderConfig>, q: ChainQuery,
                        eligible: ProviderConfig -> bool, served: ProviderConfig -> bool)
    requires WellListed(reg) && q.allowed == Some(Ids(Filter(reg, eligible)))
    requires Ids(CandidatesFor(reg, q, true)) == Filter(q.allowed.value, InChain(reg, q))
    requires forall p :: p in Filter(reg, eligible) ==> InChain(reg, q)(p.id) == q.Filtering()(p)
    requires forall p :: p in reg ==> q.Accepts(p) == served(p)
    requires forall p :: p in reg && served(p) ==> eligible(p)
    ensures CandidatesFor(reg, q, true) == Filter(reg, served)
  {
    CandidatesMembers(reg, q, true);
    FilterIds(Filter(reg, eligible), q.Filtering(), InChain(reg, q));
    FilterFilter(reg, eligible, q.Filtering(), served);
    IdsDetermine(reg, CandidatesFor(reg, q, true), Filter(reg, served));
  }

  /** The ungoverned chain is the able providers by priority. */
  lemma PriorityChainIsSorted(reg: seq<ProviderConfig>, excluded: seq<string>, group: TaskGroup, requiresImage: bool)
    requires WellListed(reg)
    ensures CandidatesFor(reg, ChainQuery(group, requiresImage, excluded, Some(AvailableForRouter(reg, excluded))),
                          false)
            == SortBy(Filter(reg, Able(excluded, group, requiresImage)), ByPriority())
  {
    var q := ChainQuery(group, requiresImage, excluded, Some(AvailableForRouter(reg, excluded)));
    AvailableRegistered(reg, excluded);
    forall p | p in reg ensures q.Filtering()(p) == Able(excluded, group, requiresImage)(p) {
      FindRegistered(reg, p);
    }
    FilterAgree(reg, q.Filtering(), Able(excluded, group, requiresImage));
  }

  /**
   For any governance policy, context, exclusions, group and image, a governed chain in registry
   order equals the ungoverned one exactly when governance denies no able provider of the group and
   those were registered in ascending (priority, id).
   */
  lemma LegacyEqualsPriorityIff(reg: seq<ProviderConfig>, governance: GovernancePolicy, kind: PolicyKind,
                                context: RoutingContext, excluded: seq<string>, group: TaskGroup, requiresImage: bool)
    requires WellListed(reg) && KeepsRegistryOrder(kind)
    ensures CandidatesFor(reg,
                          ChainQuery(group, requiresImage, excluded,
                                     Some(Resolved(reg, governance, kind, context, excluded))), true)
            == CandidatesFor(reg, ChainQuery(group, requiresImage, excluded, Some(AvailableForRouter(reg, excluded))),
                             false)
            <==>
            && (forall p :: p in reg && Able(excluded, group, requiresImage)(p) ==> Permitted(governance, context, p))
            && Ascending(Filter(reg, Able(excluded, group, requiresImage)))
  {
    var able, permitted := Able(excluded, group, requiresImage), PermittedBy(governance, context);
    LegacyChainIsFiltered(reg, governance, kind, context, excluded, group, requiresImage);
    PriorityChainIsSorted(reg, excluded, group, requiresImage);
    FilterWellListed(reg, able);
    AscendingIff(Filter(reg, able));
    DistinctPriorityKeys(Filter(reg, able));
    SortFixesExactlySorted(Filter(reg, able), ByPriority());
    SortMembers(Filter(reg, able), ByPriority());
    FilteredEqualsSortedIff(reg, able, permitted);
  }

  lemma FilteredEqualsSortedIff(reg: seq<ProviderConfig>,
                                able: ProviderConfig -> bool, permitted: ProviderConfig -> bool)
    requires forall p :: p in SortBy(Filter(reg, able), ByPriority()) <==> p in Filter(reg, able)
    ensures Filter(reg, Both(able, permitted)) == SortBy(Filter(reg, able), ByPriority())
            <==>
            && (forall p :: p in reg && able(p) ==> permitted(p))
            && SortBy(Filter(reg, able), ByPriority()) == Filter(reg, able)
  {
    if forall p :: p in reg && able(p) ==> permitted(p) {
      FilterAgree(reg, Both(able, permitted), able);
    } else {
      var p :| p in reg && able(p) && !permitted(p);
      assert p in Filter(reg, able) && p !in Filter(reg, Both(able, permitted));
    }
  }

  // ---- Images ---------------------------------------------------------------------

  /**
   An image request is offered only `multimodal` exactly when no other group has an allowed,
   enabled provider that accepts images; nothing in the group list itself enforces it.
   */
  lemma ImageOffersOnlyMultimodalIff(reg: seq<ProviderConfig>, allowed: seq<string>)
    ensures (forall g :: g in AvailableTaskGroups(reg, Some(allowed), true) ==> g == MULTIMODAL)
            <==> (forall p :: p in reg && p.enabled && p.id in allowed && p.acceptsImages ==> p.taskGroup == MULTIMODAL)
  {
    if p :| p in reg && p.enabled && p.id in allowed && p.acceptsImages && p.taskGroup != MULTIMODAL {
      var i :| 0 <= i < |reg| && reg[i] == p;
      assert MayServe(reg[i], Some(allowed), true);
      assert Offers(reg, Some(allowed), true, p.taskGroup);
      EveryGroupListed(p.taskGroup);
      assert p.taskGroup in AvailableTaskGroups(reg, Some(allowed), true);
    } else {
      forall g | g in AvailableTaskGroups(reg, Some(allowed), true) ensures g == MULTIMODAL {
        var i :| 0 <= i < |reg| && MayServe(reg[i], Some(allowed), true) && reg[i].taskGroup == g;
        assert reg[i] in reg;
      }
    }
  }

  /** What settings demand of the configured providers. */
  ghost predicate Configured(reg: seq<ProviderConfig>) {
    && WellListed(reg)
    && (forall i, j :: 0 <= i < j < |reg| && reg[i].taskGroup == reg[j].taskGroup ==>
          reg[i].priority != reg[j].priority)
    && (forall g :: g in TASK_GROUPS ==> exists i :: 0 <= i < |reg| && reg[i].enabled && reg[i].taskGroup == g)
    && (forall p :: p in reg && p.taskGroup == MULTIMODAL ==> p.acceptsImages)
  }

  function PlainProvider(id: string, group: TaskGroup, acceptsImages: bool): ProviderConfig {
    ProviderConfig(id, true, Google, group, 1, acceptsImages, [], ["INTERNAL"], 1.0, 1000.0, 0.5, 1.0, 1.0)
  }

  /** One text provider that also reads images is enough to offer its group for an image, under allowed settings. */
  lemma NonMultimodalGroupOffered()
    ensures var reg := [PlainProvider("g1", GENERAL, true), PlainProvider("c1", CODING_REASONING, false),
                        PlainProvider("w1", CREATIVE, false), PlainProvider("m1", MULTIMODAL, true)];
            && Configured(reg)
            && AvailableTaskGroups(reg, Some(AvailableForRouter(reg, [])), true) == [GENERAL, MULTIMODAL]
  {
    var g1, c1 := PlainProvider("g1", GENERAL, true), PlainProvider("c1", CODING_REASONING, false);
    var w1, m1 := PlainProvider("w1", CREATIVE, false), PlainProvider("m1", MULTIMODAL, true);
    var reg := [g1, c1, w1, m1];
    assert g1.id[0] == 'g' && c1.id[0] == 'c' && w1.id[0] == 'w' && m1.id[0] == 'm';
    assert |g1.id| == |c1.id| == |w1.id| == |m1.id| == 2;
    hide *;
    PlainProviders(reg, g1, c1, w1, m1);
    OneOfEachGroup(reg);
    OnlyThese(reg, AvailableForRouter(reg, []));
  }

  lemma PlainProviders(reg: seq<ProviderConfig>, g1: ProviderConfig, c1: ProviderConfig, w1: ProviderConfig,
                       m1: ProviderConfig)
    requires reg == [g1, c1, w1, m1]
    requires g1 == PlainProvider(g1.id, GENERAL, true) && c1 == PlainProvider(c1.id, CODING_REASONING, false)
    requires w1 == PlainProvider(w1.id, CREATIVE, false) && m1 == PlainProvider(m1.id, MULTIMODAL, true)
    ensures forall i :: 0 <= i < 4 ==> reg[i].enabled && reg[i].taskGroup == TASK_GROUPS[i]
    ensures forall i :: 0 <= i < 4 ==> (reg[i].acceptsImages <==> i == 0 || i == 3)
  {
  }

  lemma OneOfEachGroup(reg: seq<ProviderConfig>)
    requires |reg| == 4 && forall i, j :: 0 <= i < j < 4 ==> reg[i].id != reg[j].id
    requires forall i :: 0 <= i < 4 ==> reg[i].enabled && reg[i].taskGroup == TASK_GROUPS[i] && reg[i].id != ""
    requires reg[3].acceptsImages
    ensures Configured(reg)
    ensures forall i :: 0 <= i < 4 ==>
              (Offers(reg, Some(AvailableForRouter(reg, [])), true, TASK_GROUPS[i]) <==> reg[i].acceptsImages)
  {
    var ids := AvailableForRouter(reg, []);
    assert Configured(reg);
    hide Configured, Offers, AvailableForRouter;
    AvailableRegistered(reg, []);
    forall i | 0 <= i < 4 ensures MayServe(reg[i], Some(ids), true) <==> reg[i].acceptsImages {
      FindRegistered(reg, reg[i]);
    }
    forall i | 0 <= i < 4
      ensures Offers(reg, Some(ids), true, TASK_GROUPS[i]) <==> MayServe(reg[i], Some(ids), true)
    {
      OfferedByTheOne(reg, ids, i);
    }
  }

  lemma OfferedByTheOne(reg: seq<ProviderConfig>, ids: seq<string>, i: nat)
    requires |reg| == 4 && i < 4 && forall j :: 0 <= j < 4 ==> reg[j].taskGroup == TASK_GROUPS[j]
    ensures Offers(reg, Some(ids), true, TASK_GROUPS[i]) <==> MayServe(reg[i], Some(ids), true)
  {
    hide MayServe;
  }

  lemma OnlyThese(reg: seq<ProviderConfig>, ids: seq<string>)
    requires Offers(reg, Some(ids), true, GENERAL) && Offers(reg, Some(ids), true, MULTIMODAL)
    requires !Offers(reg, Some(ids), true, CODING_REASONING) && !Offers(reg, Some(ids), true, CREATIVE)
    ensures AvailableTaskGroups(reg, Some(ids), true) == [GENERAL, MULTIMODAL]
  {
    hide Offers;
    var offered := Offered(reg, Some(ids), true);
    assert TASK_GROUPS == [GENERAL, CODING_REASONING, CREATIVE, MULTIMODAL];
    assert Filter(TASK_GROUPS[3..], offered) == [MULTIMODAL];
    assert Filter(TASK_GROUPS[2..], offered) == [MULTIMODAL];
    assert Filter(TASK_GROUPS[1..], offered) == [MULTIMODAL];
  }
}
