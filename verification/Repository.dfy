/** The append-only control-plane repositories, and what an audit reference can be resolved to. */
module Repository {
  import opened Common
  import opened Schemas
  import opened ControlPlane

  datatype PolicyKey = PolicyKey(tenantId: string, policyId: string)

  /** Every stored version of every policy, oldest first, and each tenant's active policy. */
  datatype Policies = Policies(versions: map<PolicyKey, seq<PolicyDefinition>>, active: map<string, string>)

  const DEFAULT_POLICY := "legacy-balanced"

  /** Numbered, and a tenant that ever stored a version as active has an active policy. */
  ghost predicate Sound(p: Policies) {
    && Numbered(p)
    && (forall k, i :: k in p.versions && 0 <= i < |p.versions[k]| && p.versions[k][i].active ==>
          k.tenantId in p.active)
  }

  /** Stored versions are numbered from 1 without gaps, and the active policies are stored. */
  ghost predicate Numbered(p: Policies) {
    && (forall k :: k in p.versions ==> p.versions[k] != [])
    && (forall k, i :: k in p.versions && 0 <= i < |p.versions[k]| ==>
          var d := p.versions[k][i];
          d.version == i + 1 && d.tenantId == k.tenantId && d.policyId == k.policyId)
    && (forall t :: t in p.active ==> PolicyKey(t, p.active[t]) in p.versions)
  }

  function History(p: Policies, k: PolicyKey): seq<PolicyDefinition> {
    if k in p.versions then p.versions[k] else []
  }

  /** The definition a reference to a version denotes. */
  function Referenced(p: Policies, tenantId: string, policyId: string, version: nat): Option<PolicyDefinition> {
    var h := History(p, PolicyKey(tenantId, policyId));
    if 1 <= version <= |h| then Some(h[version - 1]) else None
  }

  function Synthesised(tenantId: string): PolicyDefinition {
    PolicyDefinition(tenantId, DEFAULT_POLICY, LegacyBalanced, 1, true)
  }

  function ActivePolicy(p: Policies, tenantId: string): PolicyDefinition
    requires Sound(p)
  {
    if tenantId in p.active then
      var h := p.versions[PolicyKey(tenantId, p.active[tenantId])];
      h[|h| - 1]
    else Synthesised(tenantId)
  }

  /** The latest version under a name, marked active if the tenant's pointer names it. */
  function Latest(p: Policies, k: PolicyKey): Option<PolicyDefinition> {
    var h := History(p, k);
    if h == [] then None
    else Some(h[|h| - 1].(active := k.tenantId in p.active && p.active[k.tenantId] == k.policyId))
  }

  function Created(p: Policies, d: PolicyDefinition, activate: bool): Policies {
    var k := PolicyKey(d.tenantId, d.policyId);
    var h := History(p, k);
    var q := p.(versions := p.versions[k := h + [d.(version := |h| + 1, active := activate)]]);
    if activate then q.(active := q.active[d.tenantId := d.policyId]) else q
  }

  function Activated(p: Policies, k: PolicyKey): Policies {
    if Latest(p, k).None? then p else p.(active := p.active[k.tenantId := k.policyId])
  }

  datatype Change = Create(definition: PolicyDefinition, activate: bool) | Activate(key: PolicyKey)

  function Changed(p: Policies, c: Change): Policies {
    match c
    case Create(d, activate) => Created(p, d, activate)
    case Activate(k) => Activated(p, k)
  }

  function ChangedAll(p: Policies, cs: seq<Change>): Policies
    decreases |cs|
  {
    if cs == [] then p else ChangedAll(Changed(p, cs[0]), cs[1..])
  }

  lemma ChangeKeepsSound(p: Policies, c: Change)
    requires Sound(p)
    ensures Sound(Changed(p, c))
  {
    match c
    case Create(d, activate) => CreateKeepsSound(p, d, activate);
    case Activate(k) =>
  }

  lemma CreateKeepsSound(p: Policies, d: PolicyDefinition, activate: bool)
    requires Sound(p)
    ensures Sound(Created(p, d, activate))
  {
    var k := PolicyKey(d.tenantId, d.policyId);
    StoringKeepsNumbered(p, d, activate);
    var q := Created(p, d, activate);
    assert q.versions == p.versions[k := History(p, k) + [d.(version := |History(p, k)| + 1, active := activate)]];
    assert p.active.Keys <= q.active.Keys && (activate ==> d.tenantId in q.active);
    hide Created, Numbered;
    forall j, i | j in q.versions && 0 <= i < |q.versions[j]| && q.versions[j][i].active
      ensures j.tenantId in q.active
    {
      if j == k {
        assert i < |History(p, k)| ==> q.versions[k][i] == History(p, k)[i];
      }
    }
  }

  lemma StoringKeepsNumbered(p: Policies, d: PolicyDefinition, activate: bool)
    requires Numbered(p)
    ensures Numbered(Created(p, d, activate))
  {
    var k := PolicyKey(d.tenantId, d.policyId);
    var q := Created(p, d, activate);
    assert q.versions[k] == History(p, k) + [d.(version := |History(p, k)| + 1, active := activate)];
    assert forall j :: j in q.versions && j != k ==> j in p.versions && q.versions[j] == p.versions[j];
  }

  /** The version is stored first, and its tenant's pointer moved after. */
  lemma CreateInSteps(p: Policies, d: PolicyDefinition, activate: bool)
    requires Sound(p)
    ensures var k := PolicyKey(d.tenantId, d.policyId);
            var created := d.(version := |History(p, k)| + 1, active := activate);
            var q := p.(versions := p.versions[k := History(p, k) + [created]]);
            && Numbered(q) && Sound(Created(p, d, activate))
            && Created(p, d, activate) == (if activate then Activated(q, k) else q)
            && Latest(Created(p, d, activate), k).Some?
            && Latest(Created(p, d, activate), k).value.version == |History(p, k)| + 1
  {
    CreateKeepsSound(p, d, activate);
    var k := PolicyKey(d.tenantId, d.policyId);
    var created := d.(version := |History(p, k)| + 1, active := activate);
    var h, q := History(p, k) + [created], p.(versions := p.versions[k := History(p, k) + [created]]);
    assert q.versions[k] == h && h != [] && h[|h| - 1] == created;
    assert forall j :: j in q.versions && j != k ==> j in p.versions && q.versions[j] == p.versions[j];
    assert History(Created(p, d, activate), k) == h;
  }

  /** A resolved reference denotes the same definition after any later changes. */
  lemma {:induction false} ReferencesArePermanent(p: Policies, cs: seq<Change>, tenantId: string, policyId: string,
                                                  version: nat)
    requires Sound(p) && Referenced(p, tenantId, policyId, version).Some?
    ensures Sound(ChangedAll(p, cs))
    ensures Referenced(ChangedAll(p, cs), tenantId, policyId, version) == Referenced(p, tenantId, policyId, version)
    decreases |cs|
  {
    if cs != [] {
      ChangeKeepsSound(p, cs[0]);
      ReferencesArePermanent(Changed(p, cs[0]), cs[1..], tenantId, policyId, version);
    }
  }

  /**
   The reference recorded for a tenant's active policy resolves to that very definition exactly
   if the tenant has an active policy, so that none had to be synthesised.
   */
  lemma ActiveReferenceResolvesIff(p: Policies, tenantId: string)
    requires Sound(p)
    ensures var d := ActivePolicy(p, tenantId);
            Referenced(p, tenantId, d.policyId, d.version) == Some(d) <==> tenantId in p.active
  {
    if tenantId in p.active {
      var k := PolicyKey(tenantId, p.active[tenantId]);
      var h := p.versions[k];
      assert h[|h| - 1].version == |h| && h[|h| - 1].policyId == k.policyId;
    }
  }

  /** Storing a further version of a policy makes it the active one if it is activated, or its policy was active. */
  lemma ActiveIsLatest(p: Policies, d: PolicyDefinition, activate: bool)
    requires Sound(p)
    requires activate || (d.tenantId in p.active && p.active[d.tenantId] == d.policyId)
    ensures Sound(Created(p, d, activate))
    ensures ActivePolicy(Created(p, d, activate), d.tenantId)
            == d.(version := |History(p, PolicyKey(d.tenantId, d.policyId))| + 1, active := activate)
  {
    CreateInSteps(p, d, activate);
  }

  /** A tenant with no active policy is ranked by registration order, at version 1. */
  lemma DefaultPolicyIs(p: Policies, tenantId: string)
    requires Sound(p) && tenantId !in p.active
    ensures ActivePolicy(p, tenantId) == PolicyDefinition(tenantId, "legacy-balanced", LegacyBalanced, 1, true)
  {
  }

  /** A policy asked for by name is always resolved by the reference to it. */
  lemma NamedReferenceResolves(p: Policies, k: PolicyKey)
    requires Sound(p) && Latest(p, k).Some?
    ensures var d := Latest(p, k).value;
            var found := Referenced(p, k.tenantId, d.policyId, d.version);
            d.policyId == k.policyId && found.Some? && found.value.kind == d.kind && found.value.version == d.version
  {
    var h := p.versions[k];
    assert h[|h| - 1].version == |h| && h[|h| - 1].policyId == k.policyId;
  }

  /** The policy a request is ranked by: the one it names, if any, else its tenant's active one. */
  function ResolvedPolicy(p: Policies, tenantId: string, named: Option<string>): Option<PolicyDefinition>
    requires Sound(p)
  {
    if named.Some? && named.value != "" then Latest(p, PolicyKey(tenantId, named.value))
      else Some(ActivePolicy(p, tenantId))
  }

  /** The reference to the policy a request was ranked by denotes it for good, unless that policy was synthesised. */
  lemma RankedByReferenceIsPermanent(p: Policies, cs: seq<Change>, tenantId: string, named: Option<string>)
    requires Sound(p) && ResolvedPolicy(p, tenantId, named).Some?
    requires (named.Some? && named.value != "") || tenantId in p.active
    ensures var d := ResolvedPolicy(p, tenantId, named).value;
            var found := Referenced(ChangedAll(p, cs), tenantId, d.policyId, d.version);
            found.Some? && found.value.kind == d.kind && found.value.version == d.version
  {
    var d := ResolvedPolicy(p, tenantId, named).value;
    if named.Some? && named.value != "" {
      NamedReferenceResolves(p, PolicyKey(tenantId, named.value));
    } else {
      ActiveReferenceResolvesIff(p, tenantId);
    }
    ReferencesArePermanent(p, cs, tenantId, d.policyId, d.version);
  }

  /** The reference to a synthesised default can later come to denote a policy of another kind. */
  lemma SynthesisedReferenceCanBeTaken(p: Policies, tenantId: string) returns (c: Change)
    requires Sound(p) && tenantId !in p.active && History(p, PolicyKey(tenantId, DEFAULT_POLICY)) == []
    ensures var d := ActivePolicy(p, tenantId);
            && Referenced(p, tenantId, d.policyId, d.version).None?
            && Referenced(Changed(p, c), tenantId, d.policyId, d.version).Some?
            && Referenced(Changed(p, c), tenantId, d.policyId, d.version).value.kind != d.kind
  {
    c := Change.Create(PolicyDefinition(tenantId, DEFAULT_POLICY, Cheapest, 1, false), false);
  }

  class PolicyRepository {
    var versions: map<PolicyKey, seq<PolicyDefinition>>
    var active: map<string, string>

    function Value(): Policies
      reads this
    {
      Policies(versions, active)
    }

    ghost predicate Valid()
      reads this
    {
      Sound(Value())
    }

    constructor ()
      ensures Valid() && Value() == Policies(map[], map[])
    {
      versions, active := map[], map[];
    }

    method GetActive(tenantId: string) returns (d: PolicyDefinition)
      requires Valid()
      ensures d == ActivePolicy(Value(), tenantId)
    {
      if tenantId in active {
        var h := versions[PolicyKey(tenantId, active[tenantId])];
        d := h[|h| - 1];
      } else {
        d := PolicyDefinition(tenantId, DEFAULT_POLICY, LegacyBalanced, 1, true);
      }
    }

    method Get(tenantId: string, policyId: string) returns (d: Option<PolicyDefinition>)
      requires Valid()
      ensures d == Latest(Value(), PolicyKey(tenantId, policyId))
    {
      var k := PolicyKey(tenantId, policyId);
      if k !in versions || versions[k] == [] {
        return None;
      }
      var h := versions[k];
      d := Some(h[|h| - 1].(active := tenantId in active && active[tenantId] == policyId));
    }

    /** Appends a new version, whatever number the definition came with. */
    method Create(definition: PolicyDefinition, activate: bool) returns (d: PolicyDefinition)
      requires Valid()
      modifies this
      ensures Valid() && Value() == Created(old(Value()), definition, activate)
      ensures Some(d) == Latest(Value(), PolicyKey(definition.tenantId, definition.policyId))
      ensures d.version == |old(History(Value(), PolicyKey(definition.tenantId, definition.policyId)))| + 1
    {
      CreateInSteps(Value(), definition, activate);
      hide Sound, Numbered, Created, Activated, Latest;
      var k := PolicyKey(definition.tenantId, definition.policyId);
      var h := if k in versions then versions[k] else [];
      var created := definition.(version := |h| + 1, active := activate);
      versions := versions[k := h + [created]];
      if activate {
        var known := Activate(created.tenantId, created.policyId);
      }
      var got := Get(created.tenantId, created.policyId);
      d := if got.Some? then got.value else created;
    }

    /** Also the last step of `Create`, which has stored a version as active by then. */
    method Activate(tenantId: string, policyId: string) returns (d: Option<PolicyDefinition>)
      requires Numbered(Value())
      modifies this`active
      ensures Value() == Activated(old(Value()), PolicyKey(tenantId, policyId))
      ensures old(Valid()) ==> Valid()
      ensures d.Some? <==> PolicyKey(tenantId, policyId) in versions
      ensures d.Some? ==> d == Latest(Value(), PolicyKey(tenantId, policyId)) && d.value.active
    {
      var k := PolicyKey(tenantId, policyId);
      if k !in versions {
        return None;
      }
      active := active[tenantId := policyId];
      var h := versions[k];
      d := Some(h[|h| - 1].(active := true));
    }
  }

  /** `_resolve_policy`: a policy asked for by name must exist. */
  method ResolvePolicy(repository: PolicyRepository, tenantId: string, named: Option<string>)
    returns (d: Option<PolicyDefinition>)
    requires repository.Valid()
    ensures d == ResolvedPolicy(repository.Value(), tenantId, named)
  {
    if named.Some? && named.value != "" {
      d := repository.Get(tenantId, named.value);
    } else {
      var active := repository.GetActive(tenantId);
      d := Some(active);
    }
  }

  // ---- Governance and audit -------------------------------------------------------

  /** Every stored version of every tenant's governance policy, numbered over all its policy ids. */
  type Governances = map<string, seq<GovernancePolicy>>

  const DEFAULT_GOVERNANCE := "default-governance"

  ghost predicate SoundGovernances(g: Governances) {
    forall t, i :: t in g && 0 <= i < |g[t]| ==> g[t][i].version == i + 1 && g[t][i].tenantId == t
  }

  function GovernanceHistory(g: Governances, tenantId: string): seq<GovernancePolicy> {
    if tenantId in g then g[tenantId] else []
  }

  /** The policy a reference to a version denotes. */
  function ReferencedGovernance(g: Governances, tenantId: string, policyId: string, version: nat)
    : Option<GovernancePolicy>
  {
    var h := GovernanceHistory(g, tenantId);
    if 1 <= version <= |h| && h[version - 1].policyId == policyId then Some(h[version - 1]) else None
  }

  function Unrestricted(tenantId: string): GovernancePolicy {
    GovernancePolicy(tenantId, DEFAULT_GOVERNANCE, 1, [], [], [])
  }

  /** The default denies nobody: only a provider's own classifications and regions count. */
  lemma UnrestrictedPermits(tenantId: string, context: RoutingContext, p: ProviderConfig)
    ensures Permitted(Unrestricted(tenantId), context, p) <==>
            && context.dataClassification in p.classifications
            && (context.region.Some? && context.region.value != "" && p.regions != [] ==>
                  context.region.value in p.regions)
  {
  }

  function ActiveGovernance(g: Governances, tenantId: string): GovernancePolicy {
    var h := GovernanceHistory(g, tenantId);
    if h == [] then Unrestricted(tenantId) else h[|h| - 1]
  }

  function Upserted(g: Governances, policy: GovernancePolicy): Governances {
    var h := GovernanceHistory(g, policy.tenantId);
    g[policy.tenantId := h + [policy.(version := |h| + 1)]]
  }

  function UpsertedAll(g: Governances, policies: seq<GovernancePolicy>): Governances
    decreases |policies|
  {
    if policies == [] then g else UpsertedAll(Upserted(g, policies[0]), policies[1..])
  }

  /** A governance reference that resolves denotes the same policy after any later upserts. */
  lemma {:induction false} GovernanceReferencesArePermanent(g: Governances, policies: seq<GovernancePolicy>,
                                                            tenantId: string, policyId: string, version: nat)
    requires SoundGovernances(g) && ReferencedGovernance(g, tenantId, policyId, version).Some?
    ensures SoundGovernances(UpsertedAll(g, policies))
    ensures ReferencedGovernance(UpsertedAll(g, policies), tenantId, policyId, version)
            == ReferencedGovernance(g, tenantId, policyId, version)
    decreases |policies|
  {
    if policies != [] {
      GovernanceReferencesArePermanent(Upserted(g, policies[0]), policies[1..], tenantId, policyId, version);
    }
  }

  /** The reference to a tenant's active governance policy resolves to it exactly if the tenant has stored one. */
  lemma ActiveGovernanceResolvesIff(g: Governances, tenantId: string)
    requires SoundGovernances(g)
    ensures var d := ActiveGovernance(g, tenantId);
            ReferencedGovernance(g, tenantId, d.policyId, d.version) == Some(d)
            <==> GovernanceHistory(g, tenantId) != []
  {
  }

  /**
   The reference to the unrestricted default, resolving to nothing, comes to denote the first
   policy its tenant stores, exactly if that one bears the default's id, whatever it restricts.
   */
  lemma UnrestrictedReferenceTakenIff(g: Governances, policy: GovernancePolicy, more: seq<GovernancePolicy>)
    requires SoundGovernances(g) && GovernanceHistory(g, policy.tenantId) == []
    ensures var d := ActiveGovernance(g, policy.tenantId);
            var later := UpsertedAll(Upserted(g, policy), more);
            && ReferencedGovernance(g, policy.tenantId, d.policyId, d.version).None?
            && (ReferencedGovernance(later, policy.tenantId, d.policyId, d.version) == Some(policy.(version := 1))
                <==> policy.policyId == DEFAULT_GOVERNANCE)
            && (policy.policyId != DEFAULT_GOVERNANCE
                ==> ReferencedGovernance(later, policy.tenantId, d.policyId, d.version).None?)
  {
    FirstVersionStays(Upserted(g, policy), more, policy.tenantId);
  }

  lemma {:induction false} FirstVersionStays(g: Governances, policies: seq<GovernancePolicy>, tenantId: string)
    requires GovernanceHistory(g, tenantId) != []
    ensures var h := GovernanceHistory(UpsertedAll(g, policies), tenantId);
            h != [] && h[0] == GovernanceHistory(g, tenantId)[0]
    decreases |policies|
  {
    if policies != [] {
      FirstVersionStays(Upserted(g, policies[0]), policies[1..], tenantId);
    }
  }

  class GovernanceRepository {
    var versions: Governances

    ghost predicate Valid()
      reads this
    {
      SoundGovernances(versions)
    }

    constructor ()
      ensures Valid() && versions == map[]
    {
      versions := map[];
    }

    /** The latest stored policy, or an unrestricted default that is not stored. */
    method GetActive(tenantId: string) returns (g: GovernancePolicy)
      requires Valid()
      ensures g == ActiveGovernance(versions, tenantId)
      ensures g.version
              == if GovernanceHistory(versions, tenantId) == [] then 1 else |GovernanceHistory(versions, tenantId)|
    {
      if tenantId in versions && versions[tenantId] != [] {
        g := versions[tenantId][|versions[tenantId]| - 1];
      } else {
        g := GovernancePolicy(tenantId, DEFAULT_GOVERNANCE, 1, [], [], []);
      }
    }

    /** Appends; every earlier version of every tenant stays where it was. */
    method Upsert(policy: GovernancePolicy) returns (created: GovernancePolicy)
      requires Valid()
      modifies this
      ensures Valid() && versions == Upserted(old(versions), policy)
      ensures created == ActiveGovernance(versions, policy.tenantId) == policy.(version := created.version)
      ensures forall t :: t != policy.tenantId ==> GovernanceHistory(versions, t) == GovernanceHistory(old(versions), t)
    {
      var h := if policy.tenantId in versions then versions[policy.tenantId] else [];
      created := policy.(version := |h| + 1);
      versions := versions[policy.tenantId := h + [created]];
    }
  }

  class PolicyAuditRepository {
    var records: seq<PolicyAuditReference>

    constructor ()
      ensures records == []
    {
      records := [];
    }

    method Append(reference: PolicyAuditReference)
      modifies this
      ensures records == old(records) + [reference]
    {
      records := records + [reference];
    }

    function OfTenant(tenantId: string): PolicyAuditReference -> bool {
      (r: PolicyAuditReference) => r.tenantId == tenantId
    }

    /** A tenant reads its own references, in order, and no one else's. */
    method List(tenantId: string) returns (own: seq<PolicyAuditReference>)
      ensures own == Filter(records, OfTenant(tenantId))
      ensures forall r :: r in own <==> r in records && r.tenantId == tenantId
    {
      own := Filter(records, OfTenant(tenantId));
    }
  }
}
