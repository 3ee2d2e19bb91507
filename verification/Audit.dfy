/** What the references in the audit log can be resolved to, at the time and ever after. */
module Audit {
  import opened Common
  import opened ControlPlane
  import opened Repository
  import opened Lifecycle

  /** A round finds the policies that the repositories hold for its tenant at that moment. */
  ghost predicate HeldThen(p: Policies, g: Governances, s: Session, view: PlaneView)
    requires Sound(p)
  {
    && view.policy == ResolvedPolicy(p, s.Key().tenantId, s.inbound.context.policyId)
    && view.governance == ActiveGovernance(g, s.Key().tenantId)
  }

  /** The reference resolves, in what is stored now, to these policies; whether one is active may have changed. */
  ghost predicate ResolvesTo(p: Policies, g: Governances, a: PolicyAuditReference, d: PolicyDefinition,
                             governance: GovernancePolicy)
  {
    var found := Referenced(p, a.tenantId, a.policyId, a.policyVersion);
    && found.Some? && found.value.(active := d.active) == d
    && ReferencedGovernance(g, a.tenantId, a.governancePolicyId, a.governancePolicyVersion) == Some(governance)
  }

  /** The policy a request is ranked by is one its tenant has stored, or equal to one. */
  predicate PolicyStored(p: Policies, tenantId: string, named: Option<string>) {
    var defaults := History(p, PolicyKey(tenantId, DEFAULT_POLICY));
    || (named.Some? && named.value != "") || tenantId in p.active
    || (defaults != [] && defaults[0].kind == LegacyBalanced)
  }

  lemma PolicyReferenceResolvesIff(p: Policies, tenantId: string, named: Option<string>)
    requires Sound(p) && ResolvedPolicy(p, tenantId, named).Some?
    ensures var d := ResolvedPolicy(p, tenantId, named).value;
            var found := Referenced(p, tenantId, d.policyId, d.version);
            found.Some? && found.value.(active := d.active) == d <==> PolicyStored(p, tenantId, named)
  {
    var d := ResolvedPolicy(p, tenantId, named).value;
    if named.Some? && named.value != "" {
      var h := p.versions[PolicyKey(tenantId, named.value)];
      assert h[|h| - 1].version == |h|;
    } else if tenantId in p.active {
      ActiveReferenceResolvesIff(p, tenantId);
    }
  }

  /** So it does, whatever either repository stores later. */
  ghost predicate ResolvesForGood(p: Policies, g: Governances, a: PolicyAuditReference, d: PolicyDefinition,
                                  governance: GovernancePolicy)
  {
    forall cs, upserts :: ResolvesTo(ChangedAll(p, cs), UpsertedAll(g, upserts), a, d, governance)
  }

  /** A reference that resolves does so for good. */
  lemma ResolvesForGoodIff(p: Policies, g: Governances, a: PolicyAuditReference, d: PolicyDefinition,
                           governance: GovernancePolicy)
    requires Sound(p) && SoundGovernances(g)
    ensures ResolvesForGood(p, g, a, d, governance) <==> ResolvesTo(p, g, a, d, governance)
  {
    if ResolvesTo(p, g, a, d, governance) {
      forall cs, upserts ensures ResolvesTo(ChangedAll(p, cs), UpsertedAll(g, upserts), a, d, governance) {
        ReferencesArePermanent(p, cs, a.tenantId, a.policyId, a.policyVersion);
        GovernanceReferencesArePermanent(g, upserts, a.tenantId, a.governancePolicyId, a.governancePolicyVersion);
      }
    } else {
      var cs: seq<Change>, upserts: seq<GovernancePolicy> := [], [];
      assert ChangedAll(p, cs) == p && UpsertedAll(g, upserts) == g;
      assert !ResolvesTo(ChangedAll(p, cs), UpsertedAll(g, upserts), a, d, governance);
    }
  }

  /** At the time, they resolve exactly if both were stored. */
  lemma AuditEntryResolvesIff(site: Site, s: Session, round: nat, excluded: seq<string>, a: PolicyAuditReference,
                              p: Policies, g: Governances)
    requires Sound(p) && SoundGovernances(g) && HeldThen(p, g, s, s.script.plane(round))
    requires AuditedAs(site, s, round, excluded, a)
    ensures var view := s.script.plane(round);
            ResolvesTo(p, g, a, view.policy.value, view.governance)
            <==>
            && PolicyStored(p, s.Key().tenantId, s.inbound.context.policyId)
            && GovernanceHistory(g, s.Key().tenantId) != []
  {
    hide Resolved, Rankings, Split, EligibleIds;
    PolicyReferenceResolvesIff(p, s.Key().tenantId, s.inbound.context.policyId);
    ActiveGovernanceResolvesIff(g, s.Key().tenantId);
    hide Referenced, ResolvedPolicy, PolicyStored, ReferencedGovernance;
  }

  /**
   The audit entry of a request can be resolved to the policies its round used, whatever is stored
   later, exactly if both were stored when it was made.
   */
  lemma AuditEntryIsPermanentIff(site: Site, s: Session, round: nat, excluded: seq<string>, a: PolicyAuditReference,
                                 p: Policies, g: Governances)
    requires Sound(p) && SoundGovernances(g) && HeldThen(p, g, s, s.script.plane(round))
    requires AuditedAs(site, s, round, excluded, a)
    ensures var view := s.script.plane(round);
            ResolvesForGood(p, g, a, view.policy.value, view.governance)
            <==>
            && PolicyStored(p, s.Key().tenantId, s.inbound.context.policyId)
            && GovernanceHistory(g, s.Key().tenantId) != []
  {
    var d, governance := s.script.plane(round).policy.value, s.script.plane(round).governance;
    AuditEntryResolvesIff(site, s, round, excluded, a, p, g);
    hide *;
    ResolvesForGoodIff(p, g, a, d, governance);
  }
}
