/** Conversation records and the in-memory store that hands out copies of them. */
module Conversation {
  import opened Common

  /** The fields of a conversation that routing reads or writes. */
  datatype Record = Record(
    conversationId: string,
    originalQuery: string,
    previousResponse: Option<string>,
    attemptCount: nat,
    maxAttempts: nat,
    excludedProviders: seq<string>,
    lastProvider: Option<string>,
    hasImage: bool)

  datatype Key = Key(tenantId: string, conversationId: string)

  function NewRecord(conversationId: string, query: string, maxAttempts: nat): Record {
    Record(conversationId, query, None, 0, maxAttempts, [], None, false)
  }

  function AddOnce(s: seq<string>, x: string): seq<string> {
    if x in s then s else s + [x]
  }

  /** The record a new message starts from. */
  function Begun(r: Record, message: string, hasImage: bool): Record {
    r.(originalQuery := message, attemptCount := 0, excludedProviders := [], lastProvider := None, hasImage := hasImage)
  }

  /** The record with its turn and its last answer cleared. */
  function Forgotten(r: Record): Record {
    r.(previousResponse := None, attemptCount := 0, excludedProviders := [], lastProvider := None)
  }

  function Committed(r: Record, response: string, provider: string): Record {
    r.(previousResponse := Some(response), lastProvider := Some(provider))
  }

  /** What every stored record satisfies whenever no request is inside an atomic block. */
  ghost predicate Good(r: Record) {
    && r.attemptCount <= r.maxAttempts
    && Distinct(r.excludedProviders)
    && |r.excludedProviders| <= r.attemptCount
  }

  ghost predicate GoodRecords(records: map<Key, Record>) {
    forall k :: k in records ==> Good(records[k])
  }

  /** A mutable record: what the store keeps, and what a request edits its own copy of. */
  class ConversationState {
    /** Whether this object is one the store keeps; a copy handed out never becomes one. */
    ghost const stored: bool
    const conversationId: string
    var originalQuery: string
    var previousResponse: Option<string>
    var attemptCount: nat
    var maxAttempts: nat
    var excludedProviders: seq<string>
    var lastProvider: Option<string>
    var hasImage: bool

    function Value(): Record
      reads this
    {
      Record(conversationId, originalQuery, previousResponse, attemptCount, maxAttempts, excludedProviders,
             lastProvider, hasImage)
    }

    /** A deep copy. */
    constructor (r: Record, ghost stored: bool)
      ensures Value() == r && this.stored == stored
    {
      this.stored := stored;
      conversationId := r.conversationId;
      originalQuery, previousResponse := r.originalQuery, r.previousResponse;
      attemptCount, maxAttempts := r.attemptCount, r.maxAttempts;
      excludedProviders, lastProvider, hasImage := r.excludedProviders, r.lastProvider, r.hasImage;
    }

    method Forget()
      modifies this
      ensures Value() == Forgotten(old(Value()))
    {
      previousResponse := None;
      attemptCount := 0;
      excludedProviders := [];
      lastProvider := None;
    }

    /** A new message starts the turn afresh; the last answer stays as context. */
    method BeginTurn(message: string, hasImage: bool)
      modifies this
      ensures Value() == Begun(old(Value()), message, hasImage)
    {
      originalQuery := message;
      attemptCount := 0;
      excludedProviders := [];
      lastProvider := None;
      this.hasImage := hasImage;
    }
  }

  class ConversationStateManager {
    var conversations: map<Key, ConversationState>

    /** The records the store holds. */
    ghost function Contents(): map<Key, Record>
      reads this, conversations.Values
    {
      map k | k in conversations :: conversations[k].Value()
    }

    /** Every record is kept under its own id, in an object of the store's own. */
    ghost predicate Valid()
      reads this, conversations.Values
    {
      forall k :: k in conversations ==> conversations[k].stored && conversations[k].conversationId == k.conversationId
    }

    ghost predicate AllGood()
      reads this, conversations.Values
    {
      GoodRecords(Contents())
    }

    constructor ()
      ensures Valid() && AllGood() && conversations == map[]
    {
      conversations := map[];
    }

    method Create(conversationId: string, query: string, maxAttempts: nat, tenantId: string)
      returns (state: ConversationState)
      requires Valid()
      modifies this
      ensures Valid() && fresh(state) && !state.stored
      ensures state.Value() == NewRecord(conversationId, query, maxAttempts)
      ensures Contents()
              == old(Contents())[Key(tenantId, conversationId) := NewRecord(conversationId, query, maxAttempts)]
    {
      var r := NewRecord(conversationId, query, maxAttempts);
      Put(Key(tenantId, conversationId), r);
      state := new ConversationState(r, false);
    }

    /** Keeps `r` in a new object under `key`. */
    method Put(key: Key, r: Record)
      requires Valid() && r.conversationId == key.conversationId
      modifies this
      ensures Valid() && Contents() == old(Contents())[key := r]
    {
      var stored := new ConversationState(r, true);
      conversations := conversations[key := stored];
    }

    method Load(key: Key) returns (state: Option<ConversationState>)
      requires Valid()
      ensures state.Some? <==> key in Contents()
      ensures state.Some? ==>
                && fresh(state.value) && !state.value.stored
                && state.value.Value() == Contents()[key] && state.value.conversationId == key.conversationId
    {
      if key !in conversations {
        return None;
      }
      var copy := new ConversationState(conversations[key].Value(), false);
      return Some(copy);
    }

    /** Replaces the whole record under the state's key by a copy; an unknown key is an error. */
    method Update(state: ConversationState, tenantId: string) returns (known: bool)
      requires Valid()
      modifies this
      ensures Valid()
      ensures known <==> Key(tenantId, state.conversationId) in old(Contents())
      ensures Contents() == if known then old(Contents())[Key(tenantId, state.conversationId) := state.Value()]
                            else old(Contents())
    {
      var key := Key(tenantId, state.conversationId);
      if key !in conversations {
        return false;
      }
      Put(key, state.Value());
      return true;
    }

    method IncrementAttempt(state: ConversationState, tenantId: string) returns (known: bool)
      requires Valid() && !state.stored
      modifies this, state
      ensures Valid()
      ensures state.Value() == old(state.Value()).(attemptCount := old(state.attemptCount) + 1)
      ensures known <==> Key(tenantId, state.conversationId) in old(Contents())
      ensures Contents() == if known then old(Contents())[Key(tenantId, state.conversationId) := state.Value()]
                            else old(Contents())
    {
      state.attemptCount := state.attemptCount + 1;
      assert Contents() == old(Contents());
      known := Update(state, tenantId);
    }

    method ExcludeProvider(state: ConversationState, providerId: string, tenantId: string) returns (known: bool)
      requires Valid() && !state.stored
      modifies this, state
      ensures Valid()
      ensures state.Value() ==
              old(state.Value()).(excludedProviders := AddOnce(old(state.excludedProviders), providerId))
      ensures known <==> Key(tenantId, state.conversationId) in old(Contents())
      ensures Contents() == if known then old(Contents())[Key(tenantId, state.conversationId) := state.Value()]
                            else old(Contents())
    {
      if providerId !in state.excludedProviders {
        state.excludedProviders := state.excludedProviders + [providerId];
      }
      assert Contents() == old(Contents());
      known := Update(state, tenantId);
    }

    /** Forgets the turn and the last answer, keeping the query and the image mark. */
    method Reset(key: Key) returns (known: bool)
      requires Valid()
      modifies this
      ensures Valid()
      ensures known <==> key in old(Contents())
      ensures !known ==> Contents() == old(Contents())
      ensures known ==>
                var r := old(Contents())[key];
                Contents() == old(Contents())[key :=
                  Record(r.conversationId, r.originalQuery, None, 0, r.maxAttempts, [], None, r.hasImage)]
    {
      var loaded := Load(key);
      if loaded.None? {
        return false;
      }
      var state := loaded.value;
      assert state.conversationId == key.conversationId && Key(key.tenantId, state.conversationId) == key;
      state.Forget();
      known := Update(state, key.tenantId);
    }
  }

  // ---- Two copies at once ---------------------------------------------------------

  /**
   Two requests that loaded copies of one record and commit their answers in turn: the second
   commit replaces the whole record, and the first answerer is remembered, as excluded or as the
   last provider, only if it is also the second or was excluded before.
   */
  method CommitTwoCopies(store: ConversationStateManager, key: Key, first: string, second: string, answer: string)
    requires store.Valid() && key in store.Contents()
    modifies store
    ensures store.Valid()
    ensures var r := old(store.Contents())[key];
            && store.Contents() == old(store.Contents())[key := Committed(r, answer, second)]
            && ((first in store.Contents()[key].excludedProviders || store.Contents()[key].lastProvider == Some(first))
                <==> first == second || first in r.excludedProviders)
  {
    hide *;
    ghost var before := store.Contents();
    var a := store.Load(key);
    var b := store.Load(key);
    var known := Answer(store, key, a.value, answer, first);
    known := Answer(store, key, b.value, answer, second);
    LastWriteWins(before, key, a.value.Value(), b.value.Value());
    LastAnswererOnly(before[key], answer, first, second);
  }

  lemma LastWriteWins(m: map<Key, Record>, key: Key, r: Record, q: Record)
    ensures m[key := r][key := q] == m[key := q]
  {
  }

  lemma LastAnswererOnly(r: Record, answer: string, first: string, second: string)
    ensures var after := Committed(r, answer, second);
            first in after.excludedProviders || after.lastProvider == Some(first)
            <==> first == second || first in r.excludedProviders
  {
  }

  /** An answer committed on a copy replaces the whole stored record by it. */
  method Answer(store: ConversationStateManager, key: Key, copy: ConversationState, answer: string, provider: string)
    returns (known: bool)
    requires store.Valid() && !copy.stored && copy.conversationId == key.conversationId && key in store.Contents()
    modifies store, copy
    ensures store.Valid() && copy.Value() == Committed(old(copy.Value()), answer, provider)
    ensures store.Contents() == old(store.Contents())[key := copy.Value()]
  {
    copy.previousResponse := Some(answer);
    copy.lastProvider := Some(provider);
    assert store.Contents() == old(store.Contents());
    assert Key(key.tenantId, copy.conversationId) == key;
    known := store.Update(copy, key.tenantId);
  }
}
