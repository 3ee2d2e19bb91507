/** Governance, policy ranking and decision validation: what decides who may serve a request. */
module ControlPlane {
  import opened Common
  import opened Ordering
  import opened Schemas
  import opened Registry

  datatype PolicyKind = LegacyBalanced | Balanced | Cheapest | LowestLatency | HighestQuality | Compliance

  datatype PolicyDefinition =
    PolicyDefinition(tenantId: string, policyId: string, kind: PolicyKind, version: nat, active: bool)

  /** The lists are duplicate-free by schema; an empty list of allowed values allows all. */
  datatype GovernancePolicy = GovernancePolicy(
    tenantId: string,
    policyId: string,
    version: nat,
    allowedProviderIds: seq<string>,
    deniedProviderIds: seq<string>,
    allowedRegions: seq<string>)

  datatype ExclusionReason =
    | ProviderNotAllowed
    | ProviderDenied
    | DataClassificationNotAllowed
    | TenantRegionDenied
    | RegionNotAllowed

  datatype GovernanceExclusion = GovernanceExclusion(providerId: string, reason: ExclusionReason)

  datatype CandidateRanking = CandidateRanking(providerId: string, rank: nat, score: real)

  datatype CandidateSet = CandidateSet(
    providers: seq<string>,
    policy: PolicyDefinition,
    governance: GovernancePolicy,
    exclusions: seq<GovernanceExclusion>,
    rankings: seq<CandidateRanking>)

  /** What the audit log keeps of one request's candidate set. */
  datatype PolicyAuditReference = PolicyAuditReference(
    request: nat,
    tenantId: string,
    policyId: string,
    policyVersion: nat,
    governancePolicyId: string,
    governancePolicyVersion: nat,
    candidateIds: seq<string>,
    exclusions: seq<GovernanceExclusion>,
    rankings: seq<CandidateRanking>)

  // ---- Governance -----------------------------------------------------------------

  /** The first rule that keeps a provider out, in the order the rules are tried. */
  function ReasonToExclude(policy: GovernancePolicy, context: RoutingContext, p: ProviderConfig)
    : Option<ExclusionReason>
  {
    if policy.allowedProviderIds != [] && p.id !in policy.allowedProviderIds then Some(ProviderNotAllowed)
    else if p.id in policy.deniedProviderIds then Some(ProviderDenied)
    else if context.dataClassification !in p.classifications then Some(DataClassificationNotAllowed)
    else if context.HasRegion() && policy.allowedRegions != [] && context.region.value !in policy.allowedRegions then
      Some(TenantRegionDenied)
    else if context.HasRegion() && p.regions != [] && context.region.value !in p.regions then Some(RegionNotAllowed)
    else None
  }

  /** Eligibility as a conjunction of independent conditions. */
  predicate Permitted(policy: GovernancePolicy, context: RoutingContext, p: ProviderConfig) {
    && (policy.allowedProviderIds == [] || p.id in policy.allowedProviderIds)
    && p.id !in policy.deniedProviderIds
    && context.dataClassification in p.classifications
    && (context.HasRegion() ==>
          && (policy.allowedRegions == [] || context.region.value in policy.allowedRegions)
          && (p.regions == [] || context.region.value in p.regions))
  }

  /** The conditions on one provider, field by field; an absent or empty region constrains nothing. */
  lemma PermittedExactly(policy: GovernancePolicy, context: RoutingContext, p: ProviderConfig)
    ensures Permitted(policy, context, p) <==>
            && (policy.allowedProviderIds != [] ==> p.id in policy.allowedProviderIds)
            && p.id !in policy.deniedProviderIds
            && context.dataClassification in p.classifications
            && (match context.region
                case None => true
                case Some("") => true
                case Some(r) => && (policy.allowedRegions != [] ==> r in policy.allowedRegions)
                                && (p.regions != [] ==> r in p.regions))
  {
  }

  lemma PermittedIffNoReason(policy: GovernancePolicy, context: RoutingContext, p: ProviderConfig)
    ensures Permitted(policy, context, p) <==> ReasonToExclude(policy, context, p).None?
  {
  }

  /** Each rule on its own. */
  predicate Violates(policy: GovernancePolicy, context: RoutingContext, p: ProviderConfig, rule: ExclusionReason) {
    match rule
    case ProviderNotAllowed => policy.allowedProviderIds != [] && p.id !in policy.allowedProviderIds
    case ProviderDenied => p.id in policy.deniedProviderIds
    case DataClassificationNotAllowed => context.dataClassification !in p.classifications
    case TenantRegionDenied => context.HasRegion() && policy.allowedRegions != []
      && context.region.value !in policy.allowedRegions
    case RegionNotAllowed => context.HasRegion() && p.regions != [] && context.region.value !in p.regions
  }

  function Precedence(rule: ExclusionReason): nat {
    match rule
    case ProviderNotAllowed => 0
    case ProviderDenied => 1
    case DataClassificationNotAllowed => 2
    case TenantRegionDenied => 3
    case RegionNotAllowed => 4
  }

  /** The reason given is the violated rule of highest precedence, and there is one whenever a rule is violated. */
  lemma ReasonIsFirstViolated(policy: GovernancePolicy, context: RoutingContext, p: ProviderConfig,
                              rule: ExclusionReason)
    ensures ReasonToExclude(policy, context, p) == Some(rule) <==>
            && Violates(policy, context, p, rule)
            && forall other :: Violates(policy, context, p, other) ==> Precedence(rule) <= Precedence(other)
    ensures Permitted(policy, context, p) <==> forall other :: !Violates(policy, context, p, other)
  {
    var reason := ReasonToExclude(policy, context, p);
    if reason.Some? {
      assert Violates(policy, context, p, reason.value);
      forall other | Violates(policy, context, p, other) ensures Precedence(reason.value) <= Precedence(other) {
      }
      assert Precedence(rule) == Precedence(reason.value) ==> rule == reason.value;
    }
  }

  /** The rules in the order they are tried, spelled out: a reason is given only if every rule before it is kept. */
  lemma ReasonsInOrder(policy: GovernancePolicy, context: RoutingContext, p: ProviderConfig)
    ensures var reason := ReasonToExclude(policy, context, p);
            var listed := policy.allowedProviderIds == [] || p.id in policy.allowedProviderIds;
            var welcome := listed && p.id !in policy.deniedProviderIds;
            var cleared := welcome && context.dataClassification in p.classifications;
            && (reason == Some(ProviderNotAllowed) <==> !listed)
            && (reason == Some(ProviderDenied) <==> listed && !welcome)
            && (reason == Some(DataClassificationNotAllowed) <==> welcome && !cleared)
            && (match context.region
                case None => reason != Some(TenantRegionDenied) && reason != Some(RegionNotAllowed)
                case Some("") => reason != Some(TenantRegionDenied) && reason != Some(RegionNotAllowed)
                case Some(r) =>
                  var served := policy.allowedRegions == [] || r in policy.allowedRegions;
                  && (reason == Some(TenantRegionDenied) <==> cleared && !served)
                  && (reason == Some(RegionNotAllowed) <==> cleared && served && p.regions != [] && r !in p.regions))
  {
  }

  /** Whether the record registered under an id passes governance. */
  function Passes(policy: GovernancePolicy, context: RoutingContext, reg: seq<ProviderConfig>): string -> bool {
    (id: string) =>
      var p := Find(reg, id);
      p.Some? && ReasonToExclude(policy, context, p.value).None?
  }

  function Fails(policy: GovernancePolicy, context: RoutingContext, reg: seq<ProviderConfig>): string -> bool {
    (id: string) => !Passes(policy, context, reg)(id)
  }

  function ExcludedId(): GovernanceExclusion -> string {
    (x: GovernanceExclusion) => x.providerId
  }

  ghost predicate AllRegistered(reg: seq<ProviderConfig>, ids: seq<string>) {
    forall i :: 0 <= i < |ids| ==> Find(reg, ids[i]).Some?
  }

  /** `ids` split into what passes and what does not, each in its order, every exclusion with its first reason. */
  ghost predicate Split(policy: GovernancePolicy, context: RoutingContext, reg: seq<ProviderConfig>, ids: seq<string>,
                        allowed: seq<string>, exclusions: seq<GovernanceExclusion>)
  {
    && allowed == Filter(ids, Passes(policy, context, reg))
    && Map(exclusions, ExcludedId()) == Filter(ids, Fails(policy, context, reg))
    && forall k :: 0 <= k < |exclusions| ==>
         && Find(reg, exclusions[k].providerId).Some?
         && ReasonToExclude(policy, context, Find(reg, exclusions[k].providerId).value) == Some(exclusions[k].reason)
  }

  lemma SplitNone(policy: GovernancePolicy, context: RoutingContext, reg: seq<ProviderConfig>)
    ensures Split(policy, context, reg, [], [], [])
  {
  }

  lemma SplitOneMore(policy: GovernancePolicy, context: RoutingContext, reg: seq<ProviderConfig>, ids: seq<string>,
                     allowed: seq<string>, exclusions: seq<GovernanceExclusion>, id: string)
    requires Split(policy, context, reg, ids, allowed, exclusions) && Find(reg, id).Some?
    ensures match ReasonToExclude(policy, context, Find(reg, id).value)
            case Some(reason) => Split(policy, context, reg, ids + [id], allowed,
                                       exclusions + [GovernanceExclusion(id, reason)])
            case None => Split(policy, context, reg, ids + [id], allowed + [id], exclusions)
  {
    FilterAppend(ids, id, Passes(policy, context, reg));
    FilterAppend(ids, id, Fails(policy, context, reg));
    var reason := ReasonToExclude(policy, context, Find(reg, id).value);
    if reason.Some? {
      MapAppend(exclusions, GovernanceExclusion(id, reason.value), ExcludedId());
    }
  }

  /**
   Splits the available ids: what passes and what does not, both in the order they came,
   and every exclusion with the first reason that applies. No id is lost or doubled.
   */
  method EvaluateGovernance(policy: GovernancePolicy, context: RoutingContext, ids: seq<string>,
                            reg: seq<ProviderConfig>)
    returns (allowed: seq<string>, exclusions: seq<GovernanceExclusion>)
    requires AllRegistered(reg, ids)
    ensures Split(policy, context, reg, ids, allowed, exclusions)
    ensures multiset(allowed) + multiset(Map(exclusions, ExcludedId())) == multiset(ids)
  {
    hide Split, ReasonToExclude, Find;
    allowed, exclusions := [], [];
    SplitNone(policy, context, reg);
    for i := 0 to |ids|
      invariant Split(policy, context, reg, ids[..i], allowed, exclusions)
    {
      SplitOneMore(policy, context, reg, ids[..i], allowed, exclusions, ids[i]);
      assert ids[..i + 1] == ids[..i] + [ids[i]];
      var reason := ReasonToExclude(policy, context, Find(reg, ids[i]).value);
      if reason.Some? {
        exclusions := exclusions + [GovernanceExclusion(ids[i], reason.value)];
      } else {
        allowed := allowed + [ids[i]];
      }
    }
    assert ids[..|ids|] == ids;
    SplitConserves(policy, context, reg, ids, allowed, exclusions);
  }

  lemma SplitConserves(policy: GovernancePolicy, context: RoutingContext, reg: seq<ProviderConfig>, ids: seq<string>,
                       allowed: seq<string>, exclusions: seq<GovernanceExclusion>)
    requires Split(policy, context, reg, ids, allowed, exclusions)
    ensures multiset(allowed) + multiset(Map(exclusions, ExcludedId())) == multiset(ids)
  {
    FilterPartition(ids, Passes(policy, context, reg), Fails(policy, context, reg));
  }

  // ---- Policy ranking -------------------------------------------------------------

  /** The score a ranking reports; higher is better. */
  function Score(kind: PolicyKind, p: ProviderConfig): real {
    match kind
    case Balanced => p.health * p.capacity
    case Cheapest => -p.cost
    case LowestLatency => -p.latency
    case HighestQuality => p.quality
    case LegacyBalanced => 0.0
    case Compliance => 0.0
  }

  /** The first component of the key a policy sorts by; lower comes first. */
  function SortMajor(kind: PolicyKind, p: ProviderConfig): real {
    match kind
    case Balanced => -(p.health * p.capacity)
    case Cheapest => p.cost
    case LowestLatency => p.latency
    case HighestQuality => -p.quality
    case LegacyBalanced => 0.0
    case Compliance => 0.0
  }

  predicate KeepsRegistryOrder(kind: PolicyKind) {
    kind == LegacyBalanced || kind == Compliance
  }

  function ByPolicy(kind: PolicyKind, reg: seq<ProviderConfig>): string -> Key {
    (id: string) =>
      match Find(reg, id)
      case Some(p) => Key(SortMajor(kind, p), 0, id)
      case None => Key(0.0, 0, id)
  }

  function RankIds(kind: PolicyKind, reg: seq<ProviderConfig>, ids: seq<string>): seq<string> {
    if KeepsRegistryOrder(kind) then ids else SortBy(ids, ByPolicy(kind, reg))
  }

  function ScoreOf(kind: PolicyKind, reg: seq<ProviderConfig>, id: string): real {
    match Find(reg, id)
    case Some(p) => Score(kind, p)
    case None => 0.0
  }

  function Rankings(kind: PolicyKind, reg: seq<ProviderConfig>, ranked: seq<string>): (r: seq<CandidateRanking>)
    ensures |r| == |ranked|
    ensures forall i :: 0 <= i < |ranked| ==> r[i] == CandidateRanking(ranked[i], i + 1, ScoreOf(kind, reg, ranked[i]))
  {
    seq(|ranked|, i requires 0 <= i < |ranked| => CandidateRanking(ranked[i], i + 1, ScoreOf(kind, reg, ranked[i])))
  }

  // ---- Candidate sets -------------------------------------------------------------

  /** `CandidateSetResolver.resolve`, for the policies active at that moment. */
  method Resolve(reg: seq<ProviderConfig>, governance: GovernancePolicy, policy: PolicyDefinition,
                 context: RoutingContext, excluded: seq<string>) returns (c: CandidateSet)
    requires WellListed(reg)
    ensures c.governance == governance && c.policy == policy
    ensures c.providers == Resolved(reg, governance, policy.kind, context, excluded)
    ensures c.rankings == Rankings(policy.kind, reg, c.providers)
    ensures Split(governance, context, reg, AvailableForRouter(reg, excluded),
                  EligibleIds(reg, governance, context, excluded), c.exclusions)
    ensures multiset(c.providers) + multiset(Map(c.exclusions, ExcludedId()))
            == multiset(AvailableForRouter(reg, excluded))
  {
    var available := AvailableForRouter(reg, excluded);
    AvailableRegistered(reg, excluded);
    var eligible, exclusions := EvaluateGovernance(governance, context, available, reg);
    var ranked := RankIds(policy.kind, reg, eligible);
    c := CandidateSet(ranked, policy, governance, exclusions, Rankings(policy.kind, reg, ranked));
  }

  /** The available ids that pass governance, in registration order. */
  function EligibleIds(reg: seq<ProviderConfig>, governance: GovernancePolicy, context: RoutingContext,
                       excluded: seq<string>): seq<string>
  {
    Filter(AvailableForRouter(reg, excluded), Passes(governance, context, reg))
  }

  /** The ranked ids of a candidate set. */
  function Resolved(reg: seq<ProviderConfig>, governance: GovernancePolicy, kind: PolicyKind, context: RoutingContext,
                    excluded: seq<string>): seq<string>
  {
    RankIds(kind, reg, EligibleIds(reg, governance, context, excluded))
  }

  lemma AvailableRegistered(reg: seq<ProviderConfig>, excluded: seq<string>)
    requires WellListed(reg)
    ensures AllRegistered(reg, AvailableForRouter(reg, excluded))
    ensures Distinct(AvailableForRouter(reg, excluded))
    ensures forall id :: id in AvailableForRouter(reg, excluded) <==>
              Find(reg, id).Some? && Find(reg, id).value.enabled && id !in excluded
  {
    var kept := Filter(reg, EnabledAndNotIn(excluded));
    var ids := AvailableForRouter(reg, excluded);
    FilterWellListed(reg, EnabledAndNotIn(excluded));
    forall i | 0 <= i < |ids| ensures Find(reg, ids[i]) == Some(kept[i]) {
      assert kept[i] in kept;
      FindRegistered(reg, kept[i]);
    }
    forall id | Find(reg, id).Some? && Find(reg, id).value.enabled && id !in excluded ensures id in ids {
      FindNamed(reg, id);
      var p := Find(reg, id).value;
      assert p in kept;
      var k :| 0 <= k < |kept| && kept[k] == p;
      assert ids[k] == id;
    }
    forall id | id in ids ensures Find(reg, id).Some? && Find(reg, id).value.enabled && id !in excluded {
      var k :| 0 <= k < |ids| && ids[k] == id;
      assert kept[k] in kept;
    }
  }

  // ---- Decision validation --------------------------------------------------------

  datatype InvalidDecision = SchemaMismatch | RetryNotInvoked | UnavailableGroup | ImageNeedsMultimodal

  function Validate(d: RouterDecision, groups: seq<TaskGroup>, hasImage: bool, retry: bool)
    : Result<RouterDecision, InvalidDecision>
  {
    if !d.WellFormed() then Err(SchemaMismatch)
    else if d.action == RETRY && !retry then Err(RetryNotInvoked)
    else if d.action == ANSWER && d.taskGroup.value !in groups then Err(UnavailableGroup)
    else if d.action == ANSWER && hasImage && d.taskGroup.value != MULTIMODAL then Err(ImageNeedsMultimodal)
    else Ok(d)
  }
}
