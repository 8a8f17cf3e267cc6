/**
 * The garden agent's conversation store (apps/agents/src/garden/memory.ts).
 * The key-value server becomes a map from key to record; serialisation is
 * the identity, and a record lives until it is deleted.
 */
module Memory {
  import opened Wrappers
  import opened Text
  import opened Types
  import opened Constants

  type Store = map<string, GardenNegotiation>

  /** Every key is the key of the record stored under it. */
  predicate WellKeyed(store: Store) {
    forall k :: k in store ==> k == GardenConversationKey(store[k].userAddress)
  }

  /** `loadConversation`: the record under the address's key, if any. */
  function Load(store: Store, userAddress: string): (r: Option<GardenNegotiation>)
    ensures r.Some? <==> GardenConversationKey(userAddress) in store
    ensures WellKeyed(store) && r.Some? ==> EqualIgnoringCase(r.value.userAddress, userAddress)
  {
    var key := GardenConversationKey(userAddress);
    if key in store then
      SameKeyIffEqualIgnoringCase(store[key].userAddress, userAddress);
      Some(store[key])
    else None
  }

  /** `saveConversation`: the record replaces whatever its address's key held. */
  function Save(store: Store, negotiation: GardenNegotiation): (r: Store)
    ensures WellKeyed(store) ==> WellKeyed(r)
    ensures r.Keys == store.Keys + {GardenConversationKey(negotiation.userAddress)}
  {
    store[GardenConversationKey(negotiation.userAddress) := negotiation]
  }

  /** `deleteConversation`: the address's key is gone. */
  function Delete(store: Store, userAddress: string): (r: Store)
    ensures WellKeyed(store) ==> WellKeyed(r)
    ensures r.Keys == store.Keys - {GardenConversationKey(userAddress)}
  {
    store - {GardenConversationKey(userAddress)}
  }

  /** The keys `KEYS garden:conv:*` lists, with the prefix replaced by nothing. */
  function Active(store: Store): (addresses: set<string>)
    ensures forall k :: k in store && ConversationKeyPrefix <= k ==> k[|ConversationKeyPrefix|..] in addresses
  {
    set k | k in store && ConversationKeyPrefix <= k :: k[|ConversationKeyPrefix|..]
  }

  /** The store after saving each record in turn. */
  function SaveAll(store: Store, negotiations: seq<GardenNegotiation>): Store
    decreases |negotiations|
  {
    if negotiations == [] then store
    else SaveAll(Save(store, negotiations[0]), negotiations[1..])
  }

  // ---------------------------------------------------------------------
  // Round trips
  // ---------------------------------------------------------------------

  /** A saved record loads back under any case variant of its address. */
  lemma SaveThenLoad(store: Store, negotiation: GardenNegotiation, userAddress: string)
    requires EqualIgnoringCase(userAddress, negotiation.userAddress)
    ensures Load(Save(store, negotiation), userAddress) == Some(negotiation)
  {
    SameKeyIffEqualIgnoringCase(userAddress, negotiation.userAddress);
  }

  /** Saving leaves the records of every other address as they were. */
  lemma SaveLeavesOthers(store: Store, negotiation: GardenNegotiation, userAddress: string)
    requires !EqualIgnoringCase(userAddress, negotiation.userAddress)
    ensures Load(Save(store, negotiation), userAddress) == Load(store, userAddress)
  {
    SameKeyIffEqualIgnoringCase(userAddress, negotiation.userAddress);
  }

  /** The second of two saves for the same address is the one that loads. */
  lemma SaveOverwrites(store: Store, first: GardenNegotiation, second: GardenNegotiation)
    requires EqualIgnoringCase(first.userAddress, second.userAddress)
    ensures Load(Save(Save(store, first), second), first.userAddress) == Some(second)
  {
    SameKeyIffEqualIgnoringCase(first.userAddress, second.userAddress);
  }

  /** After a delete, no case variant of the address loads anything. */
  lemma DeleteThenLoad(store: Store, deleted: string, userAddress: string)
    requires EqualIgnoringCase(deleted, userAddress)
    ensures Load(Delete(store, deleted), userAddress) == None
  {
    SameKeyIffEqualIgnoringCase(deleted, userAddress);
  }

  /** Deleting leaves the records of every other address as they were. */
  lemma DeleteLeavesOthers(store: Store, deleted: string, userAddress: string)
    requires !EqualIgnoringCase(deleted, userAddress)
    ensures Load(Delete(store, deleted), userAddress) == Load(store, userAddress)
  {
    SameKeyIffEqualIgnoringCase(deleted, userAddress);
  }

  /** An address none of whose case variants was ever saved loads nothing. */
  lemma {:induction false} NeverSavedLoadsNone(store: Store, negotiations: seq<GardenNegotiation>, userAddress: string)
    requires Load(store, userAddress).None?
    requires forall i :: 0 <= i < |negotiations| ==> !EqualIgnoringCase(negotiations[i].userAddress, userAddress)
    ensures Load(SaveAll(store, negotiations), userAddress).None?
    decreases |negotiations|
  {
    if negotiations != [] {
      SaveLeavesOthers(store, negotiations[0], userAddress);
      NeverSavedLoadsNone(Save(store, negotiations[0]), negotiations[1..], userAddress);
    }
  }

  /**
   * In a well-keyed store, the active list is exactly the lower-cased
   * addresses of the stored records, and an address loads a record exactly
   * when its lower-cased form is listed.
   */
  lemma ActiveIsLowerAddresses(store: Store, userAddress: string)
    requires WellKeyed(store)
    ensures Lower(userAddress) in Active(store) <==> Load(store, userAddress).Some?
    ensures forall a :: a in Active(store) ==> exists k :: k in store && a == Lower(store[k].userAddress)
  {
    var n := |ConversationKeyPrefix|;
    var key := GardenConversationKey(userAddress);
    assert ConversationKeyPrefix <= key;
    KeySuffixIsLowerAddress(userAddress);
    if Lower(userAddress) in Active(store) {
      var k :| k in store && ConversationKeyPrefix <= k && k[n..] == Lower(userAddress);
      assert k == key by {
        assert k[..n] == key[..n];
        assert k == k[..n] + k[n..];
        assert key == key[..n] + key[n..];
      }
    }
    forall a | a in Active(store) ensures exists k :: k in store && a == Lower(store[k].userAddress) {
      var k :| k in store && ConversationKeyPrefix <= k && a == k[n..];
      KeySuffixIsLowerAddress(store[k].userAddress);
    }
  }

  /**
   * The store as an object: `saveConversation` and `deleteConversation`
   * update the map in place, the other operations read it. `ttl` is kept
   * but expiry is not modelled.
   */
  class GardenMemory {
    var store: Store
    const ttl: int

    predicate Valid()
      reads this
    {
      WellKeyed(store)
    }

    /** `new GardenMemory(url, ttl)`, with 86400 seconds as the default `ttl`. */
    constructor(ttl: Option<int>)
      ensures Valid() && store == map[]
      ensures this.ttl == ttl.GetOr(86400)
    {
      store := map[];
      this.ttl := ttl.GetOr(86400);
    }

    method LoadConversation(userAddress: string) returns (r: Option<GardenNegotiation>)
      requires Valid()
      ensures r == Load(store, userAddress)
      ensures r.Some? ==> EqualIgnoringCase(r.value.userAddress, userAddress)
    {
      var key := GardenConversationKey(userAddress);
      if key in store {
        r := Some(store[key]);
      } else {
        r := None;
      }
    }

    method SaveConversation(negotiation: GardenNegotiation)
      requires Valid()
      modifies this
      ensures Valid()
      ensures store == Save(old(store), negotiation)
    {
      store := store[GardenConversationKey(negotiation.userAddress) := negotiation];
    }

    method DeleteConversation(userAddress: string)
      requires Valid()
      modifies this
      ensures Valid()
      ensures store == Delete(old(store), userAddress)
    {
      store := store - {GardenConversationKey(userAddress)};
    }

    method GetActiveConversations() returns (addresses: set<string>)
      requires Valid()
      ensures addresses == Active(store)
      ensures forall a :: a in addresses ==> Load(store, a).Some?
    {
      addresses := set k | k in store && ConversationKeyPrefix <= k :: k[|ConversationKeyPrefix|..];
      forall a | a in addresses ensures Load(store, a).Some? {
        ActiveIsLowerAddresses(store, a);
        var k :| k in store && a == Lower(store[k].userAddress);
        LowerIdempotent(store[k].userAddress);
      }
    }
  }
}
