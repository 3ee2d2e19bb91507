/**
 Whole turns: a new message and the retries that follow it, served one after another on
 one conversation, whatever other conversations do meanwhile.
 */
module Turn {
  import opened Common
  import opened Conversation
  import opened Backends
  import opened EventLoop
  import opened Lifecycle
  import opened Accounting
  import opened Engine

  /** One served request: what came in, what went out, who answered, the retries counted, the record it left. */
  datatype Exchange =
    Exchange(session: Session, reply: Reply, answerer: Option<string>, retries: nat, after: Option<Record>)

  /** Each exchange starts from the record the previous one left. */
  ghost predicate Sequential(site: Site, before: Option<Record>, xs: seq<Exchange>)
    decreases |xs|
  {
    || xs == []
    || (&& Served(site, xs[0].session, before, xs[0].after, xs[0].retries, xs[0].reply, xs[0].answerer)
        && Sequential(site, xs[0].after, xs[1..]))
  }

  function RecordAfter(before: Option<Record>, xs: seq<Exchange>): Option<Record> {
    if xs == [] then before else xs[|xs| - 1].after
  }

  lemma {:induction false} SequentialAppend(site: Site, before: Option<Record>, xs: seq<Exchange>, x: Exchange)
    requires Sequential(site, before, xs)
    requires Served(site, x.session, RecordAfter(before, xs), x.after, x.retries, x.reply, x.answerer)
    ensures Sequential(site, before, xs + [x]) && RecordAfter(before, xs + [x]) == x.after
    decreases |xs|
  {
    if xs == [] {
      assert ([] + [x])[1..] == [];
    } else {
      assert (xs + [x])[1..] == xs[1..] + [x];
      SequentialAppend(site, xs[0].after, xs[1..], x);
    }
  }

  /** A new message, then retries only. */
  ghost predicate IsTurn(xs: seq<Exchange>) {
    && xs != [] && !xs[0].session.inbound.chat.retry
    && forall i :: 0 < i < |xs| ==> xs[i].session.inbound.chat.retry
  }

  /** Who answered, in order. */
  function Answerers(xs: seq<Exchange>): seq<string>
    decreases |xs|
  {
    if xs == [] then [] else Given(xs[0]) + Answerers(xs[1..])
  }

  function Given(x: Exchange): seq<string> {
    if x.answerer.Some? then [x.answerer.value] else []
  }

  /** The record accounts for every provider that has answered so far. */
  ghost predicate Remembers(r: Record, answered: seq<string>) {
    && Distinct(answered)
    && (forall p :: p in answered ==> p != "" && (p in r.excludedProviders || r.lastProvider == Some(p)))
    && |answered| <= r.attemptCount + 1 && |answered| <= r.maxAttempts
  }

  /** After a retry, every earlier answerer is excluded, and so it stays. */
  lemma {:induction false} RetriedRemembers(r: Record, n: nat, answered: seq<string>)
    requires Remembers(r, answered)
    ensures var x := RetriedTimes(Retried(r), n);
            && (forall p :: p in answered ==> p in x.excludedProviders)
            && x.attemptCount == r.attemptCount + n + 1 && x.maxAttempts == r.maxAttempts
  {
    if n > 0 {
      RetriedRemembers(r, n - 1, answered);
    }
  }

  lemma ExchangeRemembers(site: Site, x: Exchange, r: Record, answered: seq<string>)
    requires Remembers(r, answered) && x.session.inbound.chat.retry
    requires Served(site, x.session, Some(r), x.after, x.retries, x.reply, x.answerer)
    ensures x.after.Some? && x.after.value.maxAttempts == r.maxAttempts
    ensures Remembers(x.after.value, answered + Given(x))
  {
    assert answered + [] == answered;
    var base := r.(hasImage := x.session.inbound.chat.hasImage);
    if OpeningOf(site, x.session, Some(r)) == Routes(Retried(base)) {
      RetriedRemembers(base, x.retries, answered);
    }
  }

  lemma NobodyAnswered(r: Record)
    ensures Answerers([]) == [] && RecordAfter(Some(r), []) == Some(r)
  {
  }

  lemma FirstExchange(site: Site, before: Option<Record>, xs: seq<Exchange>)
    requires xs != [] && Sequential(site, before, xs)
    ensures Served(site, xs[0].session, before, xs[0].after, xs[0].retries, xs[0].reply, xs[0].answerer)
    ensures Sequential(site, xs[0].after, xs[1..]) && Answerers(xs) == Given(xs[0]) + Answerers(xs[1..])
    ensures RecordAfter(before, xs) == RecordAfter(xs[0].after, xs[1..])
  {
  }

  lemma {:induction false} RetriesRemember(site: Site, r: Record, answered: seq<string>, xs: seq<Exchange>)
    requires Remembers(r, answered) && Sequential(site, Some(r), xs)
    requires forall i :: 0 <= i < |xs| ==> xs[i].session.inbound.chat.retry
    ensures var last := RecordAfter(Some(r), xs);
            last.Some? && last.value.maxAttempts == r.maxAttempts && Remembers(last.value, answered + Answerers(xs))
    decreases |xs|
  {
    hide *;
    if xs == [] {
      NobodyAnswered(r);
      assert answered + [] == answered;
    } else {
      FirstExchange(site, Some(r), xs);
      ExchangeRemembers(site, xs[0], r, answered);
      RetriesRemember(site, xs[0].after.value, answered + Given(xs[0]), xs[1..]);
      assert answered + (Given(xs[0]) + Answerers(xs[1..])) == (answered + Given(xs[0])) + Answerers(xs[1..]);
    }
  }

  /**
   Turn safety: in one turn no provider answers twice, no more than the allowed attempts are
   answered, and every answerer is excluded from the rest of the turn or is its latest answerer.
   */
  ghost predicate SafeTurn(xs: seq<Exchange>, last: Option<Record>) {
    && Distinct(Answerers(xs)) && last.Some? && |Answerers(xs)| <= last.value.maxAttempts
    && forall p :: p in Answerers(xs) ==> p in last.value.excludedProviders || last.value.lastProvider == Some(p)
  }

  lemma TurnSafety(site: Site, before: Option<Record>, xs: seq<Exchange>)
    requires IsTurn(xs) && Sequential(site, before, xs)
    ensures SafeTurn(xs, RecordAfter(before, xs))
  {
    var x := xs[0];
    FirstRemembers(site, before, x);
    hide Served;
    RetriesRemember(site, x.after.value, Given(x), xs[1..]);
    assert Answerers(xs) == Given(x) + Answerers(xs[1..]);
  }

  lemma FirstRemembers(site: Site, before: Option<Record>, x: Exchange)
    requires !x.session.inbound.chat.retry
    requires Served(site, x.session, before, x.after, x.retries, x.reply, x.answerer)
    ensures x.after.Some? && Remembers(x.after.value, Given(x))
  {
    RetriedTimesCounts(FreshBase(site.maxAttempts, x.session.inbound, before), x.retries);
  }

  lemma {:induction false} RetriedKeeps(r: Record, n: nat)
    ensures var x := RetriedTimes(r, n);
            && x.previousResponse == r.previousResponse && x.lastProvider == r.lastProvider
            && x.hasImage == r.hasImage && x.originalQuery == r.originalQuery && x.conversationId == r.conversationId
  {
    if n > 0 {
      RetriedKeeps(r, n - 1);
    }
  }

  /**
   No late commit: the stored answer changes exactly when the client is given an answer, to
   exactly that answer, and then the record names its provider; a retry that lacks its image
   leaves the record as it was.
   */
  lemma NoLateCommit(site: Site, s: Session, before: Option<Record>, after: Option<Record>, n: nat, r: Reply,
                     answerer: Option<string>)
    requires Served(site, s, before, after, n, r, answerer)
    ensures before.Some? ==> after.Some?
    ensures after.Some? ==>
              after.value.previousResponse == if Answered(r) then Some(r.value.response)
                                              else if before.Some? then before.value.previousResponse else None
    ensures Answered(r) ==> after.Some? && answerer.Some? && after.value.lastProvider == answerer
    ensures s.inbound.chat.retry && before.Some? && before.value.hasImage && !s.inbound.chat.hasImage ==>
              r == Err(InvalidRequest) && after == before
    ensures s.inbound.chat.retry && after.Some? && !Answered(r) ==>
              before.Some? && after.value.lastProvider == before.value.lastProvider
  {
    var o := OpeningOf(site, s, before);
    if o.Routes? {
      RetriedKeeps(o.start, n);
    }
  }

  /**
   A client sending one request after another on a conversation that is its own, among any
   number of other clients: whatever it sends, its exchanges are sequential, and if it sends a
   turn, the turn is safe.
   */
  method Converse(engine: RoutingEngine, inbounds: seq<Inbound>, scripts: seq<Script>, request: nat, key: Key)
    returns (replies: seq<Reply>, ghost xs: seq<Exchange>)
    requires engine.Wired() && engine.registry.Valid() && engine.world.Idle(request, key)
    requires |scripts| == |inbounds| && forall i :: 0 <= i < |inbounds| ==> inbounds[i].Key() == key
    modifies engine.world, engine.world.store, engine.world.circuits, engine.world.circuits.circuits.Values
    ensures engine.world.Idle(request, key) && |xs| == |replies| == |inbounds|
    ensures forall i :: 0 <= i < |xs| ==>
              xs[i].session == Session(request, inbounds[i], scripts[i], true) && xs[i].reply == replies[i]
    ensures Sequential(engine.Site(), old(engine.world.RecordAt(key)), xs)
    ensures engine.world.RecordAt(key) == RecordAfter(old(engine.world.RecordAt(key)), xs)
    ensures IsTurn(xs) ==> SafeTurn(xs, engine.world.RecordAt(key))
  {
    hide *;
    ghost var before, site := engine.world.RecordAt(key), engine.Site();
    replies, xs := [], [];
    NothingExchanged(site, before);
    for k := 0 to |inbounds|
      invariant engine.world.Idle(request, key) && |xs| == |replies| == k
      invariant forall i :: 0 <= i < k ==>
                  xs[i].session == Session(request, inbounds[i], scripts[i], true) && xs[i].reply == replies[i]
      invariant Sequential(site, before, xs)
      invariant engine.world.RecordAt(key) == RecordAfter(before, xs)
    {
      var reply;
      ghost var x;
      reply, x := Send(engine, inbounds[k], scripts[k], request, key);
      SequentialAppend(site, before, xs, x);
      replies, xs := replies + [reply], xs + [x];
    }
    if IsTurn(xs) {
      TurnSafety(site, before, xs);
    }
  }

  /** The client's wait before it sends again, and one request. */
  method Send(engine: RoutingEngine, inbound: Inbound, script: Script, request: nat, key: Key)
    returns (reply: Reply, ghost x: Exchange)
    requires engine.Wired() && engine.registry.Valid() && engine.world.Idle(request, key) && inbound.Key() == key
    modifies engine.world, engine.world.store, engine.world.circuits, engine.world.circuits.circuits.Values
    ensures engine.world.Idle(request, key)
    ensures x.session == Session(request, inbound, script, true) && x.reply == reply
            && x.after == engine.world.RecordAt(key)
    ensures Served(engine.Site(), x.session, old(engine.world.RecordAt(key)), x.after, x.retries, reply, x.answerer)
  {
    hide *;
    ghost var a := engine.world.Snapshot();
    BeforeAwait(engine.world, request, key);
    engine.world.Await(request, key, true);
    AfterAwait(engine.world, a, request, key);
    var capture;
    ghost var inner;
    reply, capture, inner := engine.Handle(inbound, script, request, true);
    ghost var s := Session(request, inbound, script, true);
    engine.KeyMeans(s);
    engine.IdleIf(s);
    LastingMeans(s, capture.Ladder(), reply);
    x := Exchange(s, reply, AnswererOf(capture.Phase(), reply), capture.Ladder().Retries(), engine.world.RecordAt(key));
  }

  lemma BeforeAwait(world: World, request: nat, key: Key)
    requires world.Idle(request, key)
    ensures world.Valid() && world.Kept(request, key) && NoneOf(world.Snapshot().systems, request)
    ensures world.RecordAt(key) == RecordIn(world.Snapshot().records, key)
  {
  }

  lemma AfterAwait(world: World, a: Shared, request: nat, key: Key)
    requires Rely(a, world.Snapshot(), request, key, true) && NoneOf(a.systems, request)
    ensures world.circuits.NothingInFlight(request) && world.RecordAt(key) == RecordIn(a.records, key)
  {
    RelyKeepsCalls(a, world.Snapshot(), request, key, true);
  }

  lemma NothingExchanged(site: Site, before: Option<Record>)
    ensures Sequential(site, before, []) && RecordAfter(before, []) == before
  {
  }
}
