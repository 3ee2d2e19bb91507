/**
 The process-wide state that concurrent requests share, and the bargain between them: code between
 two awaits is atomic, and everything else may run at an await. Each request guarantees that a block
 of its own writes only its own record and makes or settles only its own calls; so that is all that
 any request needs to rely on when it awaits.
 */
module EventLoop {
  import opened Common
  import opened Schemas
  import opened Conversation
  import opened Circuit
  import opened CircuitSystem
  import opened Backends

  /** What is shared, as values: the stored records, and each backend with the calls made on it. */
  datatype Shared = Shared(records: map<Key, Record>, systems: map<Backend, System>)

  /** No record but the one under `key` was written, and none was deleted. */
  ghost predicate WroteOnly(before: map<Key, Record>, after: map<Key, Record>, key: Key) {
    after == before || (key in after && after == before[key := after[key]])
  }

  /** What a request guarantees of each of its blocks, from state `a` to state `z`. */
  ghost predicate Guarantee(a: Shared, z: Shared, request: nat, key: Key) {
    && WroteOnly(a.records, z.records, key)
    && z.systems.Keys == a.systems.Keys
    && forall b :: b in a.systems ==> Touched(a.systems[b], z.systems[b], request, true)
  }

  /**
   What a request relies on while it waits, from state `a` to state `z`: no record is deleted,
   nobody makes or settles calls in its name, and, if nobody else works on its conversation
   (`alone`), its record stays as it was.
   */
  ghost predicate Rely(a: Shared, z: Shared, request: nat, key: Key, alone: bool) {
    && RecordsRelied(a.records, z.records, key, alone)
    && z.systems.Keys == a.systems.Keys
    && forall b :: b in a.systems ==> Touched(a.systems[b], z.systems[b], request, false)
  }

  ghost predicate RecordsRelied(before: map<Key, Record>, after: map<Key, Record>, key: Key, alone: bool) {
    before.Keys <= after.Keys && (alone ==> RecordIn(after, key) == RecordIn(before, key))
  }

  lemma RecordsReliedAtOnce(a: map<Key, Record>, key: Key, alone: bool)
    ensures RecordsRelied(a, a, key, alone)
  {
  }

  lemma RecordsReliedTwice(a: map<Key, Record>, m: map<Key, Record>, z: map<Key, Record>, key: Key, alone: bool)
    requires RecordsRelied(a, m, key, alone) && RecordsRelied(m, z, key, alone)
    ensures RecordsRelied(a, z, key, alone)
  {
  }

  function RecordIn(records: map<Key, Record>, key: Key): Option<Record> {
    if key in records then Some(records[key]) else None
  }

  /** What one request guarantees, another may rely on; alone on its conversation, if theirs differ. */
  lemma GuaranteeIsRelied(a: Shared, z: Shared, writer: nat, written: Key, request: nat, key: Key, alone: bool)
    requires Guarantee(a, z, writer, written) && writer != request && (alone ==> written != key)
    ensures Rely(a, z, request, key, alone)
  {
    forall b | b in a.systems ensures Touched(a.systems[b], z.systems[b], request, false) {
      TouchedByOther(a.systems[b], z.systems[b], writer, request);
    }
  }

  lemma RelyTwice(a: Shared, m: Shared, z: Shared, request: nat, key: Key, alone: bool)
    requires Rely(a, m, request, key, alone) && Rely(m, z, request, key, alone)
    ensures Rely(a, z, request, key, alone)
  {
    forall b | b in a.systems ensures Touched(a.systems[b], z.systems[b], request, false) {
      TouchedTwice(a.systems[b], m.systems[b], z.systems[b], request, false);
    }
  }

  /** One block of some request, and the state it leaves. */
  datatype Block = Block(request: nat, key: Key, after: Shared)

  /** Each block keeps its request's guarantee. */
  ghost predicate Guaranteed(a: Shared, blocks: seq<Block>)
    decreases |blocks|
  {
    blocks == []
      || (Guarantee(a, blocks[0].after, blocks[0].request, blocks[0].key) && Guaranteed(blocks[0].after, blocks[1..]))
  }

  function StateAfter(a: Shared, blocks: seq<Block>): Shared {
    if blocks == [] then a else blocks[|blocks| - 1].after
  }

  /**
   Any number of blocks of any other requests, in any order, keep what a waiting request relies on,
   if each keeps the guarantee of the request it belongs to.
   */
  lemma {:induction false} OthersAreRelied(a: Shared, blocks: seq<Block>, request: nat, key: Key, alone: bool)
    requires Guaranteed(a, blocks)
    requires forall i :: 0 <= i < |blocks| ==> blocks[i].request != request && (alone ==> blocks[i].key != key)
    ensures Rely(a, StateAfter(a, blocks), request, key, alone)
    decreases |blocks|
  {
    if blocks != [] {
      GuaranteeIsRelied(a, blocks[0].after, blocks[0].request, blocks[0].key, request, key, alone);
      OthersAreRelied(blocks[0].after, blocks[1..], request, key, alone);
      RelyTwice(a, blocks[0].after, StateAfter(a, blocks), request, key, alone);
    }
  }

  /** A block writing the request's own record keeps the guarantee. */
  lemma OwnWriteGuaranteed(a: Shared, m: Shared, z: Shared, request: nat, key: Key, r: Record)
    requires Guarantee(a, m, request, key) && z == m.(records := m.records[key := r])
    ensures Guarantee(a, z, request, key)
  {
  }

  /** So does a block that makes or settles a call of the request's own. */
  lemma OwnCallGuaranteed(cfg: Config, a: Shared, m: Shared, z: Shared, request: nat, key: Key, b: Backend, e: Event,
                          elapsed: real)
    requires Guarantee(a, m, request, key) && b in m.systems && !e.Tick? && e.id.request == request
    requires z == m.(systems := m.systems[b := Step(cfg, Step(cfg, m.systems[b], Tick(elapsed)), e)])
    ensures Guarantee(a, z, request, key)
  {
    var p, q := m.systems[b], Step(cfg, m.systems[b], Tick(elapsed));
    StepTouches(cfg, p, Tick(elapsed), request);
    StepTouches(cfg, q, e, request);
    TouchedTwice(p, q, z.systems[b], request, true);
    TouchedTwice(a.systems[b], p, z.systems[b], request, true);
  }

  /** What others do leaves a request's own calls where they were. */
  lemma RelyKeepsCalls(a: Shared, z: Shared, request: nat, key: Key, alone: bool)
    requires Rely(a, z, request, key, alone)
    ensures AccountOf(z.systems, request) == AccountOf(a.systems, request)
    ensures NoneOf(a.systems, request) ==> NoneOf(z.systems, request)
    ensures forall b, id: CallId :: id.request == request && OnlyOf(a.systems, b, id) ==> OnlyOf(z.systems, b, id)
  {
    forall b | b in a.systems ensures MarksOf(z.systems[b].log, request) == MarksOf(a.systems[b].log, request) {
      MarksKept(a.systems[b], z.systems[b], request);
    }
  }

  class World {
    const store: ConversationStateManager
    const circuits: BackendCircuits
    /** The shared state as the running request found it when it last resumed. */
    ghost var seen: Shared

    constructor (store: ConversationStateManager, circuits: BackendCircuits)
      ensures this.store == store && this.circuits == circuits && Resumed()
    {
      this.store, this.circuits := store, circuits;
      new;
      seen := Snapshot();
    }

    ghost function Snapshot(): Shared
      reads store, store.conversations.Values, circuits
    {
      Shared(store.Contents(), circuits.systems)
    }

    ghost function RecordAt(key: Key): Option<Record>
      reads store, store.conversations.Values
    {
      RecordIn(store.Contents(), key)
    }

    /** Every request re-establishes this before it awaits or returns. */
    ghost predicate Valid()
      reads store, store.conversations.Values, circuits, circuits.circuits.Values
    {
      store.Valid() && store.AllGood() && circuits.Valid()
    }

    /** The running request has just resumed. */
    ghost predicate Resumed()
      reads this, store, store.conversations.Values, circuits
    {
      seen == Snapshot()
    }

    /** Since it last resumed, the running request has kept its guarantee. */
    ghost predicate Kept(request: nat, key: Key)
      reads this, store, store.conversations.Values, circuits
    {
      Guarantee(seen, Snapshot(), request, key)
    }

    /** Between two blocks of a request: all is sound, its guarantee kept, and it has no call in flight. */
    ghost predicate Idle(request: nat, key: Key)
      reads this, store, store.conversations.Values, circuits, circuits.circuits.Values
    {
      Valid() && Kept(request, key) && circuits.NothingInFlight(request)
    }

    /** Between two blocks of a request whose only call in flight is `id` on `b`. */
    ghost predicate Calling(b: Backend, id: CallId, key: Key)
      reads this, store, store.conversations.Values, circuits, circuits.circuits.Values
    {
      Valid() && Kept(id.request, key) && circuits.OnlyInFlight(b, id)
    }

    lemma IdleMeans(request: nat, key: Key)
      ensures Idle(request, key) <==>
              && store.Valid() && store.AllGood() && circuits.Valid() && circuits.NothingInFlight(request)
              && Guarantee(seen, Snapshot(), request, key)
      ensures Snapshot() == Shared(store.Contents(), circuits.systems)
    {
    }

    lemma CallingMeans(b: Backend, id: CallId, key: Key)
      ensures Calling(b, id, key) <==>
              && store.Valid() && store.AllGood() && circuits.Valid() && circuits.OnlyInFlight(b, id)
              && Guarantee(seen, Snapshot(), id.request, key)
      ensures Snapshot() == Shared(store.Contents(), circuits.systems)
      ensures circuits.Valid() ==> b in circuits.systems
    {
      if circuits.Valid() {
        assert circuits.Agrees(b);
      }
    }

    lemma ResumedKeeps(request: nat, key: Key)
      requires Resumed()
      ensures Kept(request, key)
    {
    }

    /**
     Gives way to every other task, which a request may do only with its guarantee kept. The body
     does nothing to the shared state, since a single request does nothing here; callers may assume
     no more than the contract, which any number of blocks of others keep (`OthersAreRelied`).
     */
    method Await(ghost request: nat, ghost key: Key, ghost alone: bool)
      requires Valid() && Kept(request, key)
      modifies this, store, circuits, circuits.circuits.Values
      ensures Valid() && Resumed() && old(circuits.now) <= circuits.now
      ensures Rely(old(Snapshot()), Snapshot(), request, key, alone)
    {
      seen := Snapshot();
    }
  }
}
