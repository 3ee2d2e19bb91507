/**
 The provider registry: the mutable store of `registry/model_registry.py`, and its
 queries as functions of the listing it holds.
 */
module Registry {
  import opened Common
  import opened Ordering
  import opened Schemas

  /** Every id is registered once, and is not empty. */
  ghost predicate WellListed(reg: seq<ProviderConfig>) {
    && (forall i, j :: 0 <= i < j < |reg| ==> reg[i].id != reg[j].id)
    && (forall p :: p in reg ==> p.id != "")
  }

  function IdOf(): ProviderConfig -> string {
    (p: ProviderConfig) => p.id
  }

  function Ids(reg: seq<ProviderConfig>): seq<string> {
    Map(reg, IdOf())
  }

  /** The record registered under an id. */
  function Find(reg: seq<ProviderConfig>, id: string): Option<ProviderConfig> {
    if reg == [] then None
    else if reg[0].id == id then Some(reg[0])
    else Find(reg[1..], id)
  }

  lemma {:induction false} FindNamed(reg: seq<ProviderConfig>, id: string)
    ensures Find(reg, id).Some? ==> Find(reg, id).value in reg && Find(reg, id).value.id == id
    ensures Find(reg, id).None? ==> forall p :: p in reg ==> p.id != id
  {
    if reg != [] && reg[0].id != id {
      FindNamed(reg[1..], id);
    }
  }

  /** Looking a registered record up by its id gives that record back. */
  lemma FindRegistered(reg: seq<ProviderConfig>, p: ProviderConfig)
    requires WellListed(reg) && p in reg
    ensures Find(reg, p.id) == Some(p)
  {
    FindNamed(reg, p.id);
    var q := Find(reg, p.id).value;
    var i :| 0 <= i < |reg| && reg[i] == p;
    var j :| 0 <= j < |reg| && reg[j] == q;
    assert i == j;
  }

  // ---- Queries --------------------------------------------------------------------

  function EnabledAndNotIn(excluded: seq<string>): ProviderConfig -> bool {
    (p: ProviderConfig) => p.enabled && p.id !in excluded
  }

  /** The ids a router round may draw on, in registration order. */
  function AvailableForRouter(reg: seq<ProviderConfig>, excluded: seq<string>): seq<string> {
    Ids(Filter(reg, EnabledAndNotIn(excluded)))
  }

  predicate MayServe(p: ProviderConfig, allowed: Option<seq<string>>, requiresImage: bool) {
    && p.enabled
    && (allowed.None? || p.id in allowed.value)
    && (!requiresImage || p.acceptsImages)
  }

  /** Some registered provider of the group may serve the request. */
  predicate Offers(reg: seq<ProviderConfig>, allowed: Option<seq<string>>, requiresImage: bool, group: TaskGroup) {
    exists i :: 0 <= i < |reg| && MayServe(reg[i], allowed, requiresImage) && reg[i].taskGroup == group
  }

  function Offered(reg: seq<ProviderConfig>, allowed: Option<seq<string>>, requiresImage: bool): TaskGroup -> bool {
    (g: TaskGroup) => Offers(reg, allowed, requiresImage, g)
  }

  function AvailableTaskGroups(reg: seq<ProviderConfig>, allowed: Option<seq<string>>, requiresImage: bool)
    : seq<TaskGroup>
  {
    Filter(TASK_GROUPS, Offered(reg, allowed, requiresImage))
  }

  /** The arguments of one `candidates_for` call. */
  datatype ChainQuery =
    ChainQuery(group: TaskGroup, requiresImage: bool, excluded: seq<string>, allowed: Option<seq<string>>)
  {
    predicate Accepts(p: ProviderConfig) {
      MayServe(p, allowed, requiresImage) && p.taskGroup == group && p.id !in excluded
    }

    function Filtering(): ProviderConfig -> bool {
      (p: ProviderConfig) => Accepts(p)
    }
  }

  /** The last position of an id: a later duplicate overwrites an earlier rank. */
  function LastIndex(ids: seq<string>, id: string): (k: nat)
    requires id in ids
    ensures k < |ids| && ids[k] == id
  {
    if ids[|ids| - 1] == id then |ids| - 1
    else
      assert ids == ids[..|ids| - 1] + [ids[|ids| - 1]];
      LastIndex(ids[..|ids| - 1], id)
  }

  function PolicyRank(allowed: seq<string>, id: string): nat {
    if id in allowed then LastIndex(allowed, id) else |set x | x in allowed|
  }

  function ByPriority(): ProviderConfig -> Key {
    (p: ProviderConfig) => Key(0.0, p.priority, p.id)
  }

  function ByPolicyRank(allowed: seq<string>): ProviderConfig -> Key {
    (p: ProviderConfig) => Key(PolicyRank(allowed, p.id) as real, p.priority, p.id)
  }

  /** The providers to try, in the order to try them. */
  function CandidatesFor(reg: seq<ProviderConfig>, q: ChainQuery, preserveAllowedOrder: bool): seq<ProviderConfig> {
    var candidates := Filter(reg, q.Filtering());
    if !preserveAllowedOrder || q.allowed.None? then SortBy(candidates, ByPriority())
    else SortBy(candidates, ByPolicyRank(q.allowed.value))
  }

  lemma CandidatesMembers(reg: seq<ProviderConfig>, q: ChainQuery, preserve: bool)
    ensures forall p :: p in CandidatesFor(reg, q, preserve) <==> p in reg && q.Accepts(p)
  {
    var candidates := Filter(reg, q.Filtering());
    SortMembers(candidates, ByPriority());
    if q.allowed.Some? {
      SortMembers(candidates, ByPolicyRank(q.allowed.value));
    }
  }

  /** Distinct ids survive filtering. */
  lemma {:induction false} FilterWellListed(reg: seq<ProviderConfig>, keep: ProviderConfig -> bool)
    requires WellListed(reg)
    ensures WellListed(Filter(reg, keep))
  {
    if reg != [] {
      var rest := reg[1..];
      assert WellListed(rest) by {
        forall i, j | 0 <= i < j < |rest| ensures rest[i].id != rest[j].id {
          assert reg[i + 1].id != reg[j + 1].id;
        }
      }
      FilterWellListed(rest, keep);
      var kept := Filter(rest, keep);
      forall k | 0 <= k < |kept| ensures kept[k].id != reg[0].id {
        assert kept[k] in rest;
        var j :| 0 <= j < |rest| && rest[j] == kept[k];
        assert reg[0].id != reg[j + 1].id;
      }
    }
  }

  /** A chain never names one provider twice. */
  lemma CandidatesDistinct(reg: seq<ProviderConfig>, q: ChainQuery, preserve: bool)
    requires WellListed(reg)
    ensures WellListed(CandidatesFor(reg, q, preserve))
  {
    FilterWellListed(reg, q.Filtering());
    var candidates := Filter(reg, q.Filtering());
    var key := if !preserve || q.allowed.None? then ByPriority() else ByPolicyRank(q.allowed.value);
    SortStrict(candidates, key);
    SortMembers(candidates, key);
    var chain := SortBy(candidates, key);
    forall i, j | 0 <= i < j < |chain| ensures chain[i].id != chain[j].id {
      assert KeyLess(key(chain[i]), key(chain[j]));
      assert chain[i] in chain && chain[j] in chain;
      if chain[i].id == chain[j].id {
        FindRegistered(candidates, chain[i]);
        FindRegistered(candidates, chain[j]);
      }
    }
    forall p | p in chain ensures p.id != "" {
      assert p in candidates;
    }
  }

  /** Every record before a later one has a lower priority number, or the same and a smaller id. */
  ghost predicate Ascending(s: seq<ProviderConfig>) {
    forall i, j :: 0 <= i < j < |s| ==>
      || s[i].priority < s[j].priority
      || (s[i].priority == s[j].priority && s[i].id != s[j].id && StringLe(s[i].id, s[j].id))
  }

  lemma AscendingIff(s: seq<ProviderConfig>)
    requires WellListed(s)
    ensures StrictlySorted(s, ByPriority()) <==> Ascending(s)
  {
    var key := ByPriority();
    forall i, j | 0 <= i < j < |s|
      ensures KeyLess(key(s[i]), key(s[j])) <==>
              || s[i].priority < s[j].priority
              || (s[i].priority == s[j].priority && s[i].id != s[j].id && StringLe(s[i].id, s[j].id))
    {
    }
  }

  /** An ungoverned chain is in ascending (priority, id). */
  lemma PriorityChainAscends(reg: seq<ProviderConfig>, q: ChainQuery)
    requires WellListed(reg)
    ensures Ascending(CandidatesFor(reg, q, false))
  {
    FilterWellListed(reg, q.Filtering());
    SortStrict(Filter(reg, q.Filtering()), ByPriority());
    CandidatesDistinct(reg, q, false);
    AscendingIff(CandidatesFor(reg, q, false));
  }

  // ---- The mutable registry -------------------------------------------------------

  /** Replace in place, or append. */
  function Registered(reg: seq<ProviderConfig>, p: ProviderConfig): seq<ProviderConfig> {
    if reg == [] then [p]
    else if reg[0].id == p.id then [p] + reg[1..]
    else [reg[0]] + Registered(reg[1..], p)
  }

  function NotNamed(id: string): ProviderConfig -> bool {
    (p: ProviderConfig) => p.id != id
  }

  function Switched(id: string, enabled: bool): ProviderConfig -> ProviderConfig {
    (p: ProviderConfig) => if p.id == id then p.(enabled := enabled) else p
  }

  /** Registering at a known position is an update there; otherwise it appends. */
  lemma {:induction false} RegisteredAt(reg: seq<ProviderConfig>, p: ProviderConfig, k: nat)
    requires k <= |reg| && (forall i :: 0 <= i < k ==> reg[i].id != p.id)
    requires k < |reg| ==> reg[k].id == p.id
    ensures Registered(reg, p) == if k < |reg| then reg[k := p] else reg + [p]
  {
    if reg != [] && k > 0 {
      assert reg == [reg[0]] + reg[1..];
      forall i | 0 <= i < k - 1 ensures reg[1..][i].id != p.id {
        assert reg[i + 1].id != p.id;
      }
      RegisteredAt(reg[1..], p, k - 1);
    }
  }

  /** A filter that rejects exactly position `k` cuts it out. */
  lemma {:induction false} FilterCutsOne(reg: seq<ProviderConfig>, id: string, k: nat)
    requires k < |reg| && reg[k].id == id
    requires forall i :: 0 <= i < |reg| && i != k ==> reg[i].id != id
    ensures Filter(reg, NotNamed(id)) == reg[..k] + reg[k + 1..]
  {
    var rest := reg[1..];
    if k == 0 {
      FilterAll(rest, NotNamed(id));
    } else {
      FilterCutsOne(rest, id, k - 1);
      assert [reg[0]] + (rest[..k - 1] + rest[k..]) == reg[..k] + reg[k + 1..];
    }
  }

  /** A dictionary of records and the order its keys arrived in. */
  ghost predicate Consistent(providers: map<string, ProviderConfig>, order: seq<string>) {
    && Distinct(order)
    && (forall i :: 0 <= i < |order| ==> order[i] in providers)
    && (forall id :: id in providers ==> id in order && providers[id].id == id && id != "")
  }

  function Listing(providers: map<string, ProviderConfig>, order: seq<string>): (r: seq<ProviderConfig>)
    requires Consistent(providers, order)
    ensures |r| == |order|
    ensures forall i :: 0 <= i < |order| ==> r[i] == providers[order[i]]
  {
    seq(|order|, i requires 0 <= i < |order| => providers[order[i]])
  }

  lemma ListingWellListed(providers: map<string, ProviderConfig>, order: seq<string>)
    requires Consistent(providers, order)
    ensures WellListed(Listing(providers, order))
  {
  }

  /** The first occurrence removed, as `list.remove` does. */
  function RemoveFirst(s: seq<string>, x: string): seq<string> {
    if s == [] then []
    else if s[0] == x then s[1..]
    else [s[0]] + RemoveFirst(s[1..], x)
  }

  lemma {:induction false} RemoveFirstAt(s: seq<string>, x: string) returns (k: nat)
    requires Distinct(s) && x in s
    ensures k < |s| && s[k] == x && RemoveFirst(s, x) == s[..k] + s[k + 1..]
  {
    if s[0] == x {
      k := 0;
    } else {
      var rest := s[1..];
      assert Distinct(rest) by {
        forall i, j | 0 <= i < j < |rest| ensures rest[i] != rest[j] {
          assert s[i + 1] != s[j + 1];
        }
      }
      var j := RemoveFirstAt(rest, x);
      k := j + 1;
      assert [s[0]] + (rest[..j] + rest[j + 1..]) == s[..k] + s[k + 1..];
    }
  }

  lemma RegisterConsistent(providers: map<string, ProviderConfig>, order: seq<string>, p: ProviderConfig)
    requires Consistent(providers, order) && p.id != ""
    ensures Consistent(providers[p.id := p], if p.id in providers then order else order + [p.id])
  {
    if p.id !in providers {
      var after := order + [p.id];
      assert after[|order|] == p.id;
      forall id | id in providers ensures id in after {
        assert id in order;
      }
    }
  }

  lemma RegisterListing(providers: map<string, ProviderConfig>, order: seq<string>, p: ProviderConfig)
    requires Consistent(providers, order) && p.id !in providers
    requires Consistent(providers[p.id := p], order + [p.id])
    ensures Listing(providers[p.id := p], order + [p.id]) == Registered(Listing(providers, order), p)
  {
    var reg := Listing(providers, order);
    RegisteredAt(reg, p, |reg|);
    assert Listing(providers[p.id := p], order + [p.id]) == reg + [p];
  }

  lemma ReplaceListing(providers: map<string, ProviderConfig>, order: seq<string>, p: ProviderConfig, k: nat)
    requires Consistent(providers, order) && k < |order| && order[k] == p.id
    requires Consistent(providers[p.id := p], order)
    ensures Listing(providers[p.id := p], order) == Registered(Listing(providers, order), p)
  {
    var reg, after := Listing(providers, order), Listing(providers[p.id := p], order);
    RegisteredAt(reg, p, k);
    forall i | 0 <= i < |order| ensures after[i] == reg[k := p][i] {
      assert i != k ==> order[i] != p.id;
    }
    assert after == reg[k := p];
  }

  lemma RemoveConsistent(providers: map<string, ProviderConfig>, order: seq<string>, id: string, k: nat)
    requires Consistent(providers, order)
    requires k < |order| && order[k] == id
    ensures Consistent(providers - {id}, order[..k] + order[k + 1..])
  {
    var after := order[..k] + order[k + 1..];
    forall x | x in providers - {id} ensures x in after {
      var j :| 0 <= j < |order| && order[j] == x;
      assert after[if j < k then j else j - 1] == x;
    }
  }

  lemma NamedOnlyAt(providers: map<string, ProviderConfig>, order: seq<string>, id: string, k: nat)
    requires Consistent(providers, order)
    requires k < |order| && order[k] == id
    ensures var reg := Listing(providers, order);
            reg[k].id == id && forall i :: 0 <= i < |reg| && i != k ==> reg[i].id != id
  {
  }

  /** Two listings of the same dictionary entries in the same order are equal. */
  lemma ListingCut(providers: map<string, ProviderConfig>, order: seq<string>, left: map<string, ProviderConfig>,
                   k: nat)
    requires Consistent(providers, order) && k < |order|
    requires Consistent(left, order[..k] + order[k + 1..])
    requires forall id :: id in left ==> id in providers && left[id] == providers[id]
    ensures Listing(left, order[..k] + order[k + 1..])
            == Listing(providers, order)[..k] + Listing(providers, order)[k + 1..]
  {
    var cut := order[..k] + order[k + 1..];
    var a, b := Listing(left, cut), Listing(providers, order)[..k] + Listing(providers, order)[k + 1..];
    forall i | 0 <= i < |cut| ensures a[i] == b[i] {
      assert cut[i] in left;
    }
    assert a == b;
  }

  lemma RemoveListing(providers: map<string, ProviderConfig>, order: seq<string>, id: string, k: nat)
    requires Consistent(providers, order)
    requires k < |order| && order[k] == id
    requires Consistent(providers - {id}, order[..k] + order[k + 1..])
    ensures Listing(providers - {id}, order[..k] + order[k + 1..]) == Filter(Listing(providers, order), NotNamed(id))
  {
    NamedOnlyAt(providers, order, id, k);
    FilterCutsOne(Listing(providers, order), id, k);
    ListingCut(providers, order, providers - {id}, k);
  }

  lemma SwitchConsistent(providers: map<string, ProviderConfig>, order: seq<string>, id: string, enabled: bool)
    requires Consistent(providers, order) && id in providers
    ensures Consistent(providers[id := providers[id].(enabled := enabled)], order)
  {
  }

  lemma SwitchListing(providers: map<string, ProviderConfig>, order: seq<string>, id: string, enabled: bool)
    requires Consistent(providers, order) && id in providers
    requires Consistent(providers[id := providers[id].(enabled := enabled)], order)
    ensures Listing(providers[id := providers[id].(enabled := enabled)], order)
            == Map(Listing(providers, order), Switched(id, enabled))
  {
    var after := Listing(providers[id := providers[id].(enabled := enabled)], order);
    var switched := Map(Listing(providers, order), Switched(id, enabled));
    forall i | 0 <= i < |order| ensures after[i] == switched[i] {
      assert order[i] in providers;
    }
    assert after == switched;
  }

  class ModelRegistry {
    var providers: map<string, ProviderConfig>
    var order: seq<string>

    ghost predicate Valid()
      reads this
    {
      Consistent(providers, order)
    }

    /** All records, in the order their ids were first registered. */
    function ListProviders(): (r: seq<ProviderConfig>)
      requires Valid()
      reads this
      ensures WellListed(r)
    {
      ListingWellListed(providers, order);
      Listing(providers, order)
    }

    constructor (configs: seq<ProviderConfig>)
      requires forall p :: p in configs ==> p.id != ""
      ensures Valid()
      ensures ListProviders() == FoldRegistered([], configs)
    {
      providers := map[];
      order := [];
      new;
      for i := 0 to |configs|
        invariant Valid()
        invariant ListProviders() == FoldRegistered([], configs[..i])
      {
        assert configs[i] in configs;
        assert configs[..i + 1][..i] == configs[..i];
        Register(configs[i]);
      }
      assert configs[..|configs|] == configs;
    }

    method Register(p: ProviderConfig)
      requires Valid() && p.id != ""
      modifies this
      ensures Valid()
      ensures ListProviders() == Registered(old(ListProviders()), p)
    {
      RegisterConsistent(providers, order, p);
      if p.id !in providers {
        RegisterListing(providers, order, p);
        order := order + [p.id];
      } else {
        ghost var k :| 0 <= k < |order| && order[k] == p.id;
        ReplaceListing(providers, order, p, k);
      }
      providers := providers[p.id := p];
    }

    /** `remove`: an unknown id is reported and nothing changes. */
    method Remove(id: string) returns (known: bool)
      requires Valid()
      modifies this
      ensures Valid()
      ensures known <==> Find(old(ListProviders()), id).Some?
      ensures known ==> ListProviders() == Filter(old(ListProviders()), NotNamed(id))
      ensures !known ==> ListProviders() == old(ListProviders())
    {
      FindKnown(providers, order, id);
      known := id in providers;
      if known {
        ghost var k := RemoveFirstAt(order, id);
        RemoveConsistent(providers, order, id, k);
        RemoveListing(providers, order, id, k);
        providers := providers - {id};
        order := RemoveFirst(order, id);
      }
    }

    /** `enable` and `disable`: the flag of one record changes, its place does not. */
    method SetEnabled(id: string, enabled: bool) returns (known: bool)
      requires Valid()
      modifies this
      ensures Valid()
      ensures known <==> Find(old(ListProviders()), id).Some?
      ensures known ==>
                && |ListProviders()| == |old(ListProviders())|
                && forall i :: 0 <= i < |ListProviders()| ==>
                     var p := old(ListProviders())[i];
                     ListProviders()[i] == if p.id == id then p.(enabled := enabled) else p
      ensures !known ==> ListProviders() == old(ListProviders())
    {
      FindKnown(providers, order, id);
      known := id in providers;
      if known {
        SwitchConsistent(providers, order, id, enabled);
        SwitchListing(providers, order, id, enabled);
        providers := providers[id := providers[id].(enabled := enabled)];
      }
    }

    /** `get_provider`. */
    method GetProvider(id: string) returns (p: Option<ProviderConfig>)
      requires Valid()
      ensures p == Find(ListProviders(), id)
    {
      FindKnown(providers, order, id);
      p := if id in providers then Some(providers[id]) else None;
    }
  }

  lemma FindKnown(providers: map<string, ProviderConfig>, order: seq<string>, id: string)
    requires Consistent(providers, order)
    ensures Find(Listing(providers, order), id) == if id in providers then Some(providers[id]) else None
  {
    var reg := Listing(providers, order);
    ListingWellListed(providers, order);
    FindNamed(reg, id);
    if id in providers {
      var k :| 0 <= k < |order| && order[k] == id;
      assert reg[k] in reg;
      FindRegistered(reg, reg[k]);
    }
  }

  function FoldRegistered(reg: seq<ProviderConfig>, configs: seq<ProviderConfig>): seq<ProviderConfig> {
    if configs == [] then reg
    else Registered(FoldRegistered(reg, configs[..|configs| - 1]), configs[|configs| - 1])
  }
}
