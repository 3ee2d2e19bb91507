/** Startup verification: every configured model checked against its backend's catalog, loaded once. */
module Catalog {
  import opened Common
  import opened Schemas

  datatype Target =
    Target(name: string, backend: Backend, endpoint: string, model: string, apiKey: string, role: string)

  /** Why a catalog could not be loaded. */
  datatype CatalogError = CatalogError(reason: string, httpStatus: Option<nat>)

  datatype Verification = Verification(
    name: string,
    backend: Backend,
    configuredModel: string,
    available: bool,
    reason: string,
    catalogModel: Option<string>,
    httpStatus: Option<nat>,
    role: string)

  /** What a catalog request returns, for any target it might be made for, unless it escapes its loader. */
  type Loader = Target -> Result<set<string>, CatalogError>

  const MODELS_PREFIX := "models/"

  function RemovePrefix(s: string, prefix: string): string {
    if prefix <= s then s[|prefix|..] else s
  }

  function ResolveCatalogModelId(backend: Backend, model: string, ids: set<string>): Option<string> {
    if model in ids then Some(model)
    else if backend == Google && MODELS_PREFIX + RemovePrefix(model, MODELS_PREFIX) in ids then
      Some(MODELS_PREFIX + RemovePrefix(model, MODELS_PREFIX))
    else None
  }

  /** A resolved id is in the catalog and names the configured model, up to Google's prefix. */
  lemma ResolvedIdIsListed(backend: Backend, model: string, ids: set<string>)
    ensures var id := ResolveCatalogModelId(backend, model, ids);
            && (id.Some? ==> id.value in ids)
            && (id.Some? && id.value != model
                ==> backend == Google
                    && RemovePrefix(id.value, MODELS_PREFIX) == RemovePrefix(model, MODELS_PREFIX))
            && (id.None?
                <==> model !in ids
                     && (backend == Google ==> MODELS_PREFIX + RemovePrefix(model, MODELS_PREFIX) !in ids))
  {
    var bare := RemovePrefix(model, MODELS_PREFIX);
    assert (MODELS_PREFIX + bare)[|MODELS_PREFIX|..] == bare;
  }

  function Failed(t: Target, reason: string, httpStatus: Option<nat>): Verification {
    Verification(t.name, t.backend, t.model, false, reason, None, httpStatus, t.role)
  }

  function Checked(t: Target, ids: set<string>): Verification {
    var id := ResolveCatalogModelId(t.backend, t.model, ids);
    Verification(t.name, t.backend, t.model, id.Some?,
                 if id.Some? then "available" else "model_not_found", id, None, t.role)
  }

  // ---- Specification --------------------------------------------------------------

  function InRole(role: Option<string>): Target -> bool {
    (t: Target) => role.None? || t.role == role.value
  }

  /** A role selects the targets of that role, no role all of them. */
  lemma SelectedIff(targets: seq<Target>, role: Option<string>, t: Target)
    ensures t in Filter(targets, InRole(role)) <==> t in targets && (role == None || role == Some(t.role))
  {
  }

  function OnBackend(b: Backend): Target -> bool {
    (t: Target) => t.backend == b
  }

  /** The backends in the order their first target comes. */
  function FirstSeen(targets: seq<Target>): (r: seq<Backend>)
    ensures Distinct(r)
    ensures forall b :: b in r <==> exists i :: 0 <= i < |targets| && targets[i].backend == b
  {
    if targets == [] then []
    else
      var before := targets[..|targets| - 1];
      var b := targets[|targets| - 1].backend;
      if b in FirstSeen(before) then FirstSeen(before) else FirstSeen(before) + [b]
  }

  /** All targets of a backend share one endpoint and key. */
  predicate Consistent(group: seq<Target>) {
    forall i :: 0 < i < |group| ==> group[i].endpoint == group[0].endpoint && group[i].apiKey == group[0].apiKey
  }

  /** Any two of the targets agree on where, and with which key, their backend is asked. */
  ghost predicate Agreeing(targets: seq<Target>, b: Backend) {
    forall t, u :: t in targets && u in targets && t.backend == b && u.backend == b ==>
      t.endpoint == u.endpoint && t.apiKey == u.apiKey
  }

  lemma ConsistentIff(targets: seq<Target>, b: Backend)
    ensures Consistent(Filter(targets, OnBackend(b))) <==> Agreeing(targets, b)
  {
    var group := Filter(targets, OnBackend(b));
    forall i | 0 <= i < |group| ensures group[i] in targets && group[i].backend == b {
      assert group[i] in group;
    }
    if Consistent(group) {
      forall t, u | t in targets && u in targets && t.backend == b && u.backend == b
        ensures t.endpoint == u.endpoint && t.apiKey == u.apiKey
      {
        assert t in group && u in group;
      }
    }
  }

  /** The verdict on one target, from its backend's group and the catalog of the group's first target. */
  function Judge(group: seq<Target>, load: Loader): Target -> Verification
    requires group != []
  {
    (t: Target) =>
      if !Consistent(group) then Failed(t, "inconsistent_backend_configuration", None)
      else match load(group[0])
        case Err(e) => Failed(t, e.reason, e.httpStatus)
        case Ok(ids) => Checked(t, ids)
  }

  function JudgeGroup(selected: seq<Target>, b: Backend, load: Loader): seq<Verification> {
    var group := Filter(selected, OnBackend(b));
    if group == [] then [] else Map(group, Judge(group, load))
  }

  function JudgeAll(selected: seq<Target>, backends: seq<Backend>, load: Loader): seq<Verification> {
    if backends == [] then []
    else JudgeAll(selected, backends[..|backends| - 1], load) + JudgeGroup(selected, backends[|backends| - 1], load)
  }

  // ---- The verifier ---------------------------------------------------------------

  /** The catalogs fetched for `backends`: one per consistent backend, for its group's first target. */
  function Fetched(selected: seq<Target>, backends: seq<Backend>): seq<Target> {
    if backends == [] then []
    else
      Fetched(selected, backends[..|backends| - 1]) + FetchedFor(Filter(selected, OnBackend(backends[|backends| - 1])))
  }

  function FetchedFor(group: seq<Target>): seq<Target> {
    if group != [] && Consistent(group) then [group[0]] else []
  }

  /** A catalog of `b` is among the fetched ones. */
  predicate Asked(fetched: seq<Target>, b: Backend) {
    exists i :: 0 <= i < |fetched| && fetched[i].backend == b
  }

  lemma {:induction false} FetchedOnce(selected: seq<Target>, bs: seq<Backend>)
    requires Distinct(bs)
    ensures forall i, j :: 0 <= i < j < |Fetched(selected, bs)|
              ==> Fetched(selected, bs)[i].backend != Fetched(selected, bs)[j].backend
    ensures forall t :: t in Fetched(selected, bs) ==> t in selected && t.backend in bs
    ensures forall b :: b in bs ==>
              var group := Filter(selected, OnBackend(b));
              Asked(Fetched(selected, bs), b) <==> group != [] && Consistent(group)
  {
    if bs != [] {
      var before, last := bs[..|bs| - 1], bs[|bs| - 1];
      FetchedOnce(selected, before);
      FetchedForMeans(selected, last);
      assert bs == before + [last] && last !in before;
      var fetched, now := Fetched(selected, before), FetchedFor(Filter(selected, OnBackend(last)));
      assert Fetched(selected, bs) == fetched + now;
      hide *;
      forall b | b in bs ensures Asked(fetched + now, b) <==> Asked(fetched, b) || Asked(now, b) {
        AskedEither(fetched, now, b);
      }
      AskedOf(fetched, last);
      forall b | b in before ensures !Asked(now, b) {
        AskedOf(now, b);
      }
    }
  }

  lemma AskedEither(fetched: seq<Target>, now: seq<Target>, b: Backend)
    ensures Asked(fetched + now, b) <==> Asked(fetched, b) || Asked(now, b)
  {
    if i :| 0 <= i < |fetched| && fetched[i].backend == b {
      assert (fetched + now)[i].backend == b;
    }
    if i :| 0 <= i < |now| && now[i].backend == b {
      assert (fetched + now)[|fetched| + i].backend == b;
    }
  }

  lemma AskedOf(fetched: seq<Target>, b: Backend)
    ensures Asked(fetched, b) <==> exists t :: t in fetched && t.backend == b
  {
  }

  lemma FetchedForMeans(selected: seq<Target>, b: Backend)
    ensures var group := Filter(selected, OnBackend(b));
            && |FetchedFor(group)| <= 1
            && (forall t :: t in FetchedFor(group) ==> t in selected && t.backend == b)
            && (Asked(FetchedFor(group), b) <==> group != [] && Consistent(group))
  {
    var group := Filter(selected, OnBackend(b));
    if group != [] {
      assert group[0] in group;
    }
  }

  /** No backend's catalog is fetched twice, none is fetched for an inconsistent backend, and none is forgotten. */
  lemma FetchedOncePerConsistentBackend(selected: seq<Target>, bs: seq<Backend>)
    requires Distinct(bs)
    ensures forall i, j :: 0 <= i < j < |Fetched(selected, bs)|
              ==> Fetched(selected, bs)[i].backend != Fetched(selected, bs)[j].backend
    ensures forall t :: t in Fetched(selected, bs) ==> t in selected && t.backend in bs
    ensures forall b :: b in bs ==>
              ((exists t :: t in Fetched(selected, bs) && t.backend == b) <==>
                 (exists t :: t in selected && t.backend == b) && Agreeing(selected, b))
  {
    FetchedOnce(selected, bs);
    hide *;
    forall b | b in bs
      ensures (exists t :: t in Fetched(selected, bs) && t.backend == b) <==>
              (exists t :: t in selected && t.backend == b) && Agreeing(selected, b)
    {
      ConsistentIff(selected, b);
      SomeOnBackend(selected, b);
      AskedOf(Fetched(selected, bs), b);
    }
  }

  /** The catalog fetched for a backend is asked for as its first selected target is configured. */
  lemma {:induction false} FetchedForFirst(selected: seq<Target>, bs: seq<Backend>, t: Target)
    requires t in Fetched(selected, bs)
    ensures exists k: nat :: && k < |selected| && selected[k] == t
                             && forall i :: 0 <= i < k ==> selected[i].backend != t.backend
  {
    var before, last := bs[..|bs| - 1], bs[|bs| - 1];
    if t in Fetched(selected, before) {
      FetchedForFirst(selected, before, t);
    } else {
      assert t == Filter(selected, OnBackend(last))[0];
      FirstKept(selected, last);
    }
  }

  lemma {:induction false} FirstKept(selected: seq<Target>, b: Backend)
    requires Filter(selected, OnBackend(b)) != []
    ensures var t := Filter(selected, OnBackend(b))[0];
            && t.backend == b
            && exists k: nat :: && k < |selected| && selected[k] == t
                                && forall i :: 0 <= i < k ==> selected[i].backend != b
  {
    var t := Filter(selected, OnBackend(b))[0];
    if selected[0].backend != b {
      FirstKept(selected[1..], b);
      var k: nat :| && k < |selected[1..]| && selected[1..][k] == t
                    && forall i :: 0 <= i < k ==> selected[1..][i].backend != b;
      assert selected[k + 1] == t;
      forall i | 0 <= i < k + 1 ensures selected[i].backend != b {
        assert i > 0 ==> selected[i] == selected[1..][i - 1];
      }
    }
  }

  lemma SomeOnBackend(selected: seq<Target>, b: Backend)
    ensures Filter(selected, OnBackend(b)) != [] <==> exists t :: t in selected && t.backend == b
  {
    var group := Filter(selected, OnBackend(b));
    if group != [] {
      assert group[0] in group;
    }
    if t :| t in selected && t.backend == b {
      assert t in group;
    }
  }

  /** The catalog of this backend is fetched, and the fetch fails in a way that is not told as a catalog error. */
  predicate Aborts(selected: seq<Target>, b: Backend, escapes: Target -> bool) {
    var group := Filter(selected, OnBackend(b));
    group != [] && Consistent(group) && escapes(group[0])
  }

  /** Backend `k` is the first, in order, whose fetch ends the whole verification. */
  ghost predicate FirstAbort(selected: seq<Target>, order: seq<Backend>, k: nat, escapes: Target -> bool) {
    && k < |order| && Aborts(selected, order[k], escapes)
    && forall i :: 0 <= i < k ==> !Aborts(selected, order[i], escapes)
  }

  /** The verdicts on all groups, or none if some fetch aborts. */
  ghost function Verdicts(selected: seq<Target>, order: seq<Backend>, load: Loader, escapes: Target -> bool)
    : Option<seq<Verification>>
  {
    if exists b :: b in order && Aborts(selected, b, escapes) then None else Some(JudgeAll(selected, order, load))
  }

  /** What is fetched: the catalogs of all consistent backends, or of those up to the first fetch that aborts. */
  ghost predicate FetchedUntilAbort(selected: seq<Target>, order: seq<Backend>, escapes: Target -> bool,
                                    fetched: seq<Target>)
  {
    || (fetched == Fetched(selected, order) && forall b :: b in order ==> !Aborts(selected, b, escapes))
    || exists k: nat :: FirstAbort(selected, order, k, escapes) && fetched == Fetched(selected, order[..k + 1])
  }

  /**
   `verify`: groups the selected targets by backend, then judges one group after another. It comes
   to nothing at the first fetch that fails in a way the loader does not translate (`escapes`).
   */
  method Verify(targets: seq<Target>, role: Option<string>, load: Loader, escapes: Target -> bool)
    returns (results: Option<seq<Verification>>, ghost fetched: seq<Target>)
    ensures results == Verdicts(Filter(targets, InRole(role)), FirstSeen(Filter(targets, InRole(role))), load, escapes)
    ensures var selected := Filter(targets, InRole(role));
            FetchedUntilAbort(selected, FirstSeen(selected), escapes, fetched)
  {
    ghost var selected := Filter(targets, InRole(role));
    var byBackend, order := Group(targets, role);
    forall b | b in order ensures byBackend[b] == Filter(selected, OnBackend(b)) && byBackend[b] != [] {
      GroupNotEmpty(selected, b);
    }
    hide *;
    results, fetched := VerifyInOrder(selected, byBackend, order, load, escapes);
  }

  method VerifyInOrder(ghost selected: seq<Target>, byBackend: map<Backend, seq<Target>>, order: seq<Backend>,
                       load: Loader, escapes: Target -> bool)
    returns (results: Option<seq<Verification>>, ghost fetched: seq<Target>)
    requires forall b :: b in order ==>
               b in byBackend && byBackend[b] == Filter(selected, OnBackend(b)) && byBackend[b] != []
    ensures results == Verdicts(selected, order, load, escapes)
    ensures FetchedUntilAbort(selected, order, escapes, fetched)
  {
    hide *;
    var judged: seq<Verification> := [];
    fetched := [];
    NothingVerified(selected, order, load);
    for k := 0 to |order|
      invariant judged == JudgeAll(selected, order[..k], load)
      invariant fetched == Fetched(selected, order[..k])
      invariant forall i :: 0 <= i < k ==> !Aborts(selected, order[i], escapes)
    {
      var verdicts: Option<seq<Verification>>;
      ghost var loaded: seq<Target>;
      verdicts, loaded := VerifyGroup(byBackend[order[k]], load, escapes);
      OneMoreGroup(selected, order, k, load);
      AbortsMeans(selected, order, k, escapes);
      fetched := fetched + loaded;
      if verdicts.None? {
        AbortedAt(selected, order, load, escapes, k, fetched);
        return None, fetched;
      }
      judged := judged + verdicts.value;
    }
    results := Some(judged);
    AllVerified(selected, order, load, escapes, judged, fetched);
  }

  lemma NothingVerified(selected: seq<Target>, order: seq<Backend>, load: Loader)
    ensures JudgeAll(selected, order[..0], load) == [] && Fetched(selected, order[..0]) == []
  {
  }

  lemma AbortedAt(selected: seq<Target>, order: seq<Backend>, load: Loader, escapes: Target -> bool, k: nat,
                  fetched: seq<Target>)
    requires FirstAbort(selected, order, k, escapes) && fetched == Fetched(selected, order[..k + 1])
    ensures Verdicts(selected, order, load, escapes) == None && FetchedUntilAbort(selected, order, escapes, fetched)
  {
    hide JudgeAll, Fetched, Aborts;
    assert order[k] in order;
  }

  lemma AllVerified(selected: seq<Target>, order: seq<Backend>, load: Loader, escapes: Target -> bool,
                    verdicts: seq<Verification>, fetched: seq<Target>)
    requires verdicts == JudgeAll(selected, order[..|order|], load)
    requires fetched == Fetched(selected, order[..|order|])
    requires forall i :: 0 <= i < |order| ==> !Aborts(selected, order[i], escapes)
    ensures Verdicts(selected, order, load, escapes) == Some(verdicts)
    ensures FetchedUntilAbort(selected, order, escapes, fetched)
  {
    hide JudgeAll, Fetched, Aborts;
    assert order[..|order|] == order;
  }

  lemma AbortsMeans(selected: seq<Target>, order: seq<Backend>, k: nat, escapes: Target -> bool)
    requires k < |order| && Filter(selected, OnBackend(order[k])) != []
    ensures var group := Filter(selected, OnBackend(order[k]));
            Aborts(selected, order[k], escapes) <==> Consistent(group) && escapes(group[0])
    ensures Aborts(selected, order[k], escapes) && (forall i :: 0 <= i < k ==> !Aborts(selected, order[i], escapes))
            ==> FirstAbort(selected, order, k, escapes)
  {
  }

  /** One backend: its configuration is compared, its catalog fetched at most once, its targets judged. */
  method VerifyGroup(group: seq<Target>, load: Loader, escapes: Target -> bool)
    returns (verdicts: Option<seq<Verification>>, ghost fetched: seq<Target>)
    requires group != []
    ensures verdicts == if Consistent(group) && escapes(group[0]) then None else Some(Map(group, Judge(group, load)))
    ensures fetched == FetchedFor(group)
  {
    var judged;
    fetched := [];
    if !Consistent(group) {
      judged := FailAll(group, "inconsistent_backend_configuration", None);
    } else {
      fetched := [group[0]];
      if escapes(group[0]) {
        return None, fetched;
      }
      match load(group[0])
      case Err(e) => judged := FailAll(group, e.reason, e.httpStatus);
      case Ok(ids) => judged := CheckAll(group, ids);
    }
    assert judged == Map(group, Judge(group, load));
    verdicts := Some(judged);
  }

  lemma OneMoreGroup(selected: seq<Target>, order: seq<Backend>, k: nat, load: Loader)
    requires k < |order| && Filter(selected, OnBackend(order[k])) != []
    ensures var group := Filter(selected, OnBackend(order[k]));
            && JudgeAll(selected, order[..k + 1], load)
               == JudgeAll(selected, order[..k], load) + Map(group, Judge(group, load))
            && Fetched(selected, order[..k + 1]) == Fetched(selected, order[..k]) + FetchedFor(group)
  {
    hide Filter, Map;
    assert order[..k + 1][..k] == order[..k];
  }

  lemma GroupNotEmpty(selected: seq<Target>, b: Backend)
    requires b in FirstSeen(selected)
    ensures Filter(selected, OnBackend(b)) != []
  {
    var i :| 0 <= i < |selected| && selected[i].backend == b;
    assert selected[i] in Filter(selected, OnBackend(b));
  }

  method FailAll(group: seq<Target>, reason: string, httpStatus: Option<nat>) returns (r: seq<Verification>)
    ensures |r| == |group| && forall i :: 0 <= i < |group| ==> r[i] == Failed(group[i], reason, httpStatus)
  {
    r := [];
    for k := 0 to |group|
      invariant |r| == k && forall i :: 0 <= i < k ==> r[i] == Failed(group[i], reason, httpStatus)
    {
      r := r + [Failed(group[k], reason, httpStatus)];
    }
  }

  method CheckAll(group: seq<Target>, ids: set<string>) returns (r: seq<Verification>)
    ensures |r| == |group| && forall i :: 0 <= i < |group| ==> r[i] == Checked(group[i], ids)
  {
    r := [];
    for k := 0 to |group|
      invariant |r| == k && forall i :: 0 <= i < k ==> r[i] == Checked(group[i], ids)
    {
      r := r + [Checked(group[k], ids)];
    }
  }

  /** The dictionary holds each backend's targets in their order, under the backends seen so far. */
  ghost predicate Grouped(byBackend: map<Backend, seq<Target>>, order: seq<Backend>, selected: seq<Target>) {
    && order == FirstSeen(selected)
    && (forall b :: b in byBackend <==> b in order)
    && (forall b :: b in byBackend ==> byBackend[b] == Filter(selected, OnBackend(b)))
  }

  /** The dictionary of groups, with its keys in insertion order. */
  method Group(targets: seq<Target>, role: Option<string>)
    returns (byBackend: map<Backend, seq<Target>>, order: seq<Backend>)
    ensures Grouped(byBackend, order, Filter(targets, InRole(role)))
  {
    hide Grouped;
    byBackend, order := map[], [];
    GroupedNone();
    for k := 0 to |targets|
      invariant Grouped(byBackend, order, Filter(targets[..k], InRole(role)))
    {
      var t := targets[k];
      ghost var before := Filter(targets[..k], InRole(role));
      assert targets[..k + 1] == targets[..k] + [t];
      FilterAppend(targets[..k], t, InRole(role));
      if role.None? || t.role == role.value {
        GroupedOneMore(byBackend, order, before, t);
        if t.backend !in byBackend {
          order := order + [t.backend];
          byBackend := byBackend[t.backend := []];
        }
        byBackend := byBackend[t.backend := byBackend[t.backend] + [t]];
      } else {
        assert before + [] == before;
      }
    }
    assert targets[..|targets|] == targets;
  }

  lemma GroupedNone()
    ensures Grouped(map[], [], [])
  {
  }

  lemma GroupedOneMore(byBackend: map<Backend, seq<Target>>, order: seq<Backend>, before: seq<Target>, t: Target)
    requires Grouped(byBackend, order, before)
    ensures t.backend in byBackend ==> Grouped(byBackend[t.backend := byBackend[t.backend] + [t]], order, before + [t])
    ensures t.backend !in byBackend
            ==> Grouped(byBackend[t.backend := []][t.backend := [] + [t]], order + [t.backend], before + [t])
  {
    hide *;
    GroupedMeans(byBackend, order, before);
    OrderOneMore(before, t);
    forall b: Backend
      ensures Filter(before + [t], OnBackend(b)) == Filter(before, OnBackend(b)) + (if t.backend == b then [t] else [])
    {
      FilterAppend(before, t, OnBackend(b));
      OnBackendMeans(b, t);
    }
    if t.backend !in byBackend {
      NoneBefore(before, t.backend);
      assert [] + [t] == [t];
      GroupedIf(byBackend[t.backend := []][t.backend := [] + [t]], order + [t.backend], before + [t]);
    } else {
      assert order + [] == order;
      GroupedIf(byBackend[t.backend := byBackend[t.backend] + [t]], order, before + [t]);
    }
  }

  lemma OnBackendMeans(b: Backend, t: Target)
    ensures OnBackend(b)(t) == (t.backend == b)
  {
  }

  lemma GroupedMeans(byBackend: map<Backend, seq<Target>>, order: seq<Backend>, selected: seq<Target>)
    requires Grouped(byBackend, order, selected)
    ensures order == FirstSeen(selected) && (forall b :: b in byBackend <==> b in order)
    ensures forall b :: b in byBackend ==> byBackend[b] == Filter(selected, OnBackend(b))
  {
    hide Filter, FirstSeen;
  }

  lemma GroupedIf(byBackend: map<Backend, seq<Target>>, order: seq<Backend>, selected: seq<Target>)
    requires order == FirstSeen(selected) && (forall b :: b in byBackend <==> b in order)
    requires forall b :: b in byBackend ==> byBackend[b] == Filter(selected, OnBackend(b))
    ensures Grouped(byBackend, order, selected)
  {
    hide Filter, FirstSeen;
  }

  lemma OrderOneMore(before: seq<Target>, t: Target)
    ensures FirstSeen(before + [t]) == FirstSeen(before) + if t.backend in FirstSeen(before) then [] else [t.backend]
  {
    assert (before + [t])[..|before|] == before;
  }

  lemma NoneBefore(before: seq<Target>, b: Backend)
    requires b !in FirstSeen(before)
    ensures Filter(before, OnBackend(b)) == []
  {
    assert forall i :: 0 <= i < |before| ==> before[i].backend != b;
    FilterNone(before, OnBackend(b));
  }

  // ---- Conservation ---------------------------------------------------------------

  /** What identifies a target in a result. */
  datatype Subject = Subject(name: string, backend: Backend, model: string, role: string)

  function OfTarget(): Target -> Subject {
    (t: Target) => Subject(t.name, t.backend, t.model, t.role)
  }

  function OfResult(): Verification -> Subject {
    (v: Verification) => Subject(v.name, v.backend, v.configuredModel, v.role)
  }

  function AmongBackends(bs: seq<Backend>): Target -> bool {
    (t: Target) => t.backend in bs
  }

  lemma JudgedSubjects(selected: seq<Target>, b: Backend, load: Loader)
    ensures Map(JudgeGroup(selected, b, load), OfResult()) == Map(Filter(selected, OnBackend(b)), OfTarget())
  {
    var group := Filter(selected, OnBackend(b));
    if group != [] {
      assert forall i :: 0 <= i < |group| ==> OfResult()(Judge(group, load)(group[i])) == OfTarget()(group[i]);
      assert Map(JudgeGroup(selected, b, load), OfResult()) == Map(group, OfTarget());
    }
  }

  lemma {:induction false} FilterSplit(s: seq<Target>, p: Target -> bool, q: Target -> bool, either: Target -> bool)
    requires forall t :: t in s ==> !(p(t) && q(t)) && either(t) == (p(t) || q(t))
    ensures multiset(Map(Filter(s, either), OfTarget()))
            == multiset(Map(Filter(s, p), OfTarget())) + multiset(Map(Filter(s, q), OfTarget()))
  {
    if s != [] {
      assert s[0] in s;
      forall t | t in s[1..] ensures !(p(t) && q(t)) && either(t) == (p(t) || q(t)) {
        assert t in s;
      }
      FilterSplit(s[1..], p, q, either);
      MapConcat([s[0]], Filter(s[1..], either), OfTarget());
      MapConcat([s[0]], Filter(s[1..], p), OfTarget());
      MapConcat([s[0]], Filter(s[1..], q), OfTarget());
    }
  }

  lemma {:induction false} JudgedAmong(selected: seq<Target>, bs: seq<Backend>, load: Loader)
    requires Distinct(bs)
    ensures multiset(Map(JudgeAll(selected, bs, load), OfResult()))
            == multiset(Map(Filter(selected, AmongBackends(bs)), OfTarget()))
  {
    if bs == [] {
      FilterNone(selected, AmongBackends([]));
    } else {
      var before, b := bs[..|bs| - 1], bs[|bs| - 1];
      assert bs == before + [b];
      assert JudgeAll(selected, bs, load) == JudgeAll(selected, before, load) + JudgeGroup(selected, b, load) by {
        hide Filter, Map, JudgeGroup;
      }
      hide *;
      MapConcat(JudgeAll(selected, before, load), JudgeGroup(selected, b, load), OfResult());
      JudgedSubjects(selected, b, load);
      JudgedAmong(selected, before, load);
      AmongOneMore(selected, before, b);
    }
  }

  lemma AmongOneMore(selected: seq<Target>, before: seq<Backend>, b: Backend)
    requires Distinct(before + [b])
    ensures multiset(Map(Filter(selected, AmongBackends(before + [b])), OfTarget())) ==
            multiset(Map(Filter(selected, AmongBackends(before)), OfTarget()))
              + multiset(Map(Filter(selected, OnBackend(b)), OfTarget()))
  {
    forall i | 0 <= i < |before| ensures before[i] != b {
      assert (before + [b])[i] != (before + [b])[|before|];
    }
    hide *;
    FilterSplit(selected, AmongBackends(before), OnBackend(b), AmongBackends(before + [b]));
  }

  /** Every selected target gets exactly one result, and nothing else does. */
  lemma ResultsConserveTargets(targets: seq<Target>, role: Option<string>, load: Loader)
    ensures var selected := Filter(targets, InRole(role));
            multiset(Map(JudgeAll(selected, FirstSeen(selected), load), OfResult()))
              == multiset(Map(selected, OfTarget()))
  {
    var selected := Filter(targets, InRole(role));
    var bs := FirstSeen(selected);
    assert forall i :: 0 <= i < |selected| ==> AmongBackends(bs)(selected[i]);
    hide *;
    JudgedAmong(selected, bs, load);
    FilterAll(selected, AmongBackends(bs));
  }

  /** Why a model is reported as it is. */
  lemma ReasonReported(selected: seq<Target>, load: Loader, v: Verification)
    requires v in JudgeAll(selected, FirstSeen(selected), load)
    ensures var group := Filter(selected, OnBackend(v.backend));
            && group != []
            && (if !Agreeing(selected, v.backend) then
                  v.reason == "inconsistent_backend_configuration" && v.httpStatus == None && v.catalogModel == None
                else match load(group[0])
                  case Err(e) => v.reason == e.reason && v.httpStatus == e.httpStatus && v.catalogModel == None
                  case Ok(_) =>
                    v.httpStatus == None && v.reason == if v.available then "available" else "model_not_found")
  {
    ConsistentIff(selected, v.backend);
    JudgedFrom(selected, FirstSeen(selected), load, v);
    var group := Filter(selected, OnBackend(v.backend));
    var i :| 0 <= i < |group| && JudgeGroup(selected, v.backend, load)[i] == v;
    assert v == Judge(group, load)(group[i]);
  }

  /** Backends are taken in the order of their first targets. */
  lemma {:induction false} FirstSeenInOrder(targets: seq<Target>, i: nat, j: nat, k: nat)
    requires i < j < |FirstSeen(targets)| && k < |targets| && targets[k].backend == FirstSeen(targets)[j]
    ensures exists m: nat :: m < k && targets[m].backend == FirstSeen(targets)[i]
    decreases |targets|
  {
    var n := |targets| - 1;
    var before := targets[..n];
    if k < n {
      assert before[k].backend in FirstSeen(before);
      if j < |FirstSeen(before)| {
        FirstSeenInOrder(before, i, j, k);
      }
    } else if i < |FirstSeen(before)| {
      assert FirstSeen(before)[i] in FirstSeen(before);
      var m: nat :| m < |before| && before[m].backend == FirstSeen(before)[i];
      assert targets[m].backend == FirstSeen(targets)[i];
    }
  }

  lemma {:induction false} JudgedFrom(selected: seq<Target>, bs: seq<Backend>, load: Loader, v: Verification)
    requires v in JudgeAll(selected, bs, load)
    ensures v.backend in bs && v in JudgeGroup(selected, v.backend, load)
  {
    var before, b := bs[..|bs| - 1], bs[|bs| - 1];
    if v in JudgeAll(selected, before, load) {
      JudgedFrom(selected, before, load, v);
    } else {
      var group := Filter(selected, OnBackend(b));
      var i :| 0 <= i < |group| && JudgeGroup(selected, b, load)[i] == v;
      assert group[i] in group;
    }
  }

  /** A model is reported available exactly when its id resolves in the catalog its consistent backend returned. */
  lemma AvailableIff(selected: seq<Target>, load: Loader, v: Verification)
    requires v in JudgeAll(selected, FirstSeen(selected), load)
    ensures var group := Filter(selected, OnBackend(v.backend));
            && group != []
            && (v.available <==>
                  && Agreeing(selected, v.backend) && load(group[0]).Ok?
                  && ResolveCatalogModelId(v.backend, v.configuredModel, load(group[0]).value).Some?)
            && (v.available ==> v.catalogModel.Some? && v.catalogModel.value in load(group[0]).value)
  {
    ConsistentIff(selected, v.backend);
    JudgedFrom(selected, FirstSeen(selected), load, v);
    var group := Filter(selected, OnBackend(v.backend));
    var i :| 0 <= i < |group| && JudgeGroup(selected, v.backend, load)[i] == v;
    assert v == Judge(group, load)(group[i]);
    ResolvedIdIsListed(v.backend, v.configuredModel, if load(group[0]).Ok? then load(group[0]).value else {});
  }
}
