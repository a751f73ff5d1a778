/**
 * The part of the SAFE network the faucet touches, kept abstract: a store of
 * mutable data objects, each addressed by a name and a type tag and holding
 * key/value entries.  Hashing and encryption are symbolic constructors, so
 * two different inputs never collide and nothing is ever decrypted.
 */
module SafeNet {
  import opened Wrappers
  import opened Records

  /** A 32-byte network name: a random one (kept as its hex text) or the SHA3 hash of a string. */
  datatype XorName = RandomName(hex: string) | Sha3(input: string)

  /** Where a mutable data lives: its name and its type tag. */
  datatype Address = Address(name: XorName, tag: int)

  /** What an entry of a mutable data can hold. */
  datatype Value =
    | CoinRecord(coin: Coin)
      /** A transaction notification, stored as plain JSON. */
    | TxRecord(tx: TxNotification)
      /** Plain bytes, read back with `buf.toString()`. */
    | Raw(text: string)
      /** A serialised mutable data handle, opened with `fromSerial`. */
    | Serialised(location: Address)
      /**
       * The address of an immutable blob holding `email` sealed for `pk`,
       * itself sealed for `pk`.
       */
    | SealedEmailRef(pk: string, email: Email)

  /** A mutable data object: its entries, and whether anyone may update them. */
  datatype MutableData = MutableData(entries: map<string, Value>, anyoneMayUpdate: bool)

  type Store = map<Address, MutableData>

  datatype Error =
    | NoSuchData
    | DataExists
    | NoSuchEntry
    | EntryExists
    | NotSerialised
    | NotRaw
    | EmailIdNotFound
      /** A call of a name the imported module does not export: JavaScript's `TypeError`. */
    | NotAFunction

  /** One action of an entries mutation. */
  datatype EntryAction = Insert(key: string, value: Value) | Update(key: string, value: Value)

  predicate InsertsOnly(actions: seq<EntryAction>)
  {
    forall i :: 0 <= i < |actions| ==> actions[i].Insert?
  }

  /** The keys a mutation touches. */
  function ActionKeys(actions: seq<EntryAction>): set<string>
  {
    if actions == [] then {} else {actions[0].key} + ActionKeys(actions[1..])
  }

  /**
   * The entries after a mutation: an insert needs an absent key, an update an
   * existing one, and one failing action rejects the whole mutation.
   */
  function ApplyActions(entries: map<string, Value>, actions: seq<EntryAction>): Result<map<string, Value>, Error>
    decreases |actions|
  {
    if actions == [] then Success(entries)
    else
      match actions[0]
      case Insert(k, v) =>
        if k in entries then Failure(EntryExists) else ApplyActions(entries[k := v], actions[1..])
      case Update(k, v) =>
        if k !in entries then Failure(NoSuchEntry) else ApplyActions(entries[k := v], actions[1..])
  }

  /**
   * A mutation made of inserts only is append-only: when it applies, every
   * earlier entry keeps its value and the new keys are exactly the inserted ones.
   */
  lemma {:induction false} InsertsOnlyAppend(entries: map<string, Value>, actions: seq<EntryAction>)
    requires InsertsOnly(actions)
    decreases |actions|
    ensures ApplyActions(entries, actions).Success? ==>
              var after := ApplyActions(entries, actions).value;
              && (forall k :: k in entries ==> k in after && after[k] == entries[k])
              && after.Keys == entries.Keys + ActionKeys(actions)
  {
    if actions != [] && ApplyActions(entries, actions).Success? {
      var k, v := actions[0].key, actions[0].value;
      var rest := actions[1..];
      InsertsOnlyTail(actions);
      assert actions[0].Insert? && k !in entries;
      InsertsOnlyAppend(entries[k := v], rest);
    }
  }

  /** ... and the entry count grows by exactly the number of inserts. */
  lemma {:induction false} InsertsOnlyGrowth(entries: map<string, Value>, actions: seq<EntryAction>)
    requires InsertsOnly(actions)
    decreases |actions|
    ensures ApplyActions(entries, actions).Success? ==>
              |ApplyActions(entries, actions).value| == |entries| + |actions|
  {
    if actions != [] && ApplyActions(entries, actions).Success? {
      var k, v := actions[0].key, actions[0].value;
      InsertsOnlyTail(actions);
      assert actions[0].Insert? && k !in entries;
      assert |entries[k := v]| == |entries| + 1;
      InsertsOnlyGrowth(entries[k := v], actions[1..]);
    }
  }

  /** A single insert adds its entry when the key is free and fails otherwise. */
  lemma SingleInsert(entries: map<string, Value>, k: string, v: Value)
    ensures ApplyActions(entries, [Insert(k, v)])
            == if k in entries then Failure(EntryExists) else Success(entries[k := v])
  {
    assert [Insert(k, v)][1..] == [];
  }

  lemma InsertsOnlyTail(actions: seq<EntryAction>)
    requires InsertsOnly(actions) && actions != []
    ensures InsertsOnly(actions[1..])
  {
    forall i | 0 <= i < |actions| - 1 ensures actions[1..][i].Insert? {
      assert actions[1..][i] == actions[i + 1];
    }
  }

  /** `get(handle, key)` on the data at `addr`. */
  function Lookup(store: Store, addr: Address, key: string): (r: Result<Value, Error>)
    ensures r.Success? <==> addr in store && key in store[addr].entries
    ensures r.Success? ==> r.value == store[addr].entries[key]
  {
    if addr !in store then Failure(NoSuchData)
    else if key !in store[addr].entries then Failure(NoSuchEntry)
    else Success(store[addr].entries[key])
  }

  /** `applyEntriesMutation` on the data at `addr`: all of the mutation or nothing. */
  function ApplyMutation(store: Store, addr: Address, actions: seq<EntryAction>): (r: Result<Store, Error>)
    ensures r.Success? <==> addr in store && ApplyActions(store[addr].entries, actions).Success?
    ensures r.Success? ==>
              && r.value.Keys == store.Keys
              && r.value[addr] == store[addr].(entries := ApplyActions(store[addr].entries, actions).value)
              && forall a :: a in store && a != addr ==> r.value[a] == store[a]
  {
    if addr !in store then Failure(NoSuchData)
    else
      match ApplyActions(store[addr].entries, actions)
      case Success(entries) => Success(store[addr := store[addr].(entries := entries)])
      case Failure(e) => Failure(e)
  }

  /** The network as one mutable object, shared by every call of the faucet. */
  class Network {
    var store: Store

    constructor (initial: Store)
      ensures store == initial
    {
      store := initial;
    }

    /** `safeMutableData.get` */
    method Get(addr: Address, key: string) returns (r: Result<Value, Error>)
      ensures r.Success? <==> addr in store && key in store[addr].entries
      ensures r.Success? ==> r.value == store[addr].entries[key]
      ensures r.Failure? ==> r.error == (if addr in store then NoSuchEntry else NoSuchData)
    {
      if addr !in store {
        r := Failure(NoSuchData);
      } else if key !in store[addr].entries {
        r := Failure(NoSuchEntry);
      } else {
        r := Success(store[addr].entries[key]);
      }
    }

    /** `safeMutableData.quickSetup`: put a new data object with the given entries at `addr`. */
    method QuickSetup(addr: Address, entries: map<string, Value>) returns (r: Outcome<Error>)
      modifies this
      ensures r == if addr in old(store) then Fail(DataExists) else Pass
      ensures store == if r.Pass? then old(store)[addr := MutableData(entries, false)] else old(store)
    {
      if addr in store {
        r := Fail(DataExists);
      } else {
        r := Pass;
        store := store[addr := MutableData(entries, false)];
      }
    }

    /** `safeMutableData.setUserPermissions` for the "anyone" user. */
    method SetUserPermissions(addr: Address, anyoneMayUpdate: bool) returns (r: Outcome<Error>)
      modifies this
      ensures r == if addr in old(store) then Pass else Fail(NoSuchData)
      ensures store == if r.Pass? then old(store)[addr := old(store)[addr].(anyoneMayUpdate := anyoneMayUpdate)]
                       else old(store)
    {
      if addr !in store {
        r := Fail(NoSuchData);
      } else {
        r := Pass;
        store := store[addr := store[addr].(anyoneMayUpdate := anyoneMayUpdate)];
      }
    }

    /** `safeMutableData.applyEntriesMutation` */
    method ApplyEntriesMutation(addr: Address, actions: seq<EntryAction>) returns (r: Outcome<Error>)
      modifies this
      ensures match ApplyMutation(old(store), addr, actions)
              case Success(after) => r == Pass && store == after
              case Failure(e) => r == Fail(e) && store == old(store)
    {
      if addr !in store {
        r := Fail(NoSuchData);
        return;
      }
      var applied := ApplyActions(store[addr].entries, actions);
      if applied.Failure? {
        r := Fail(applied.error);
      } else {
        r := Pass;
        store := store[addr := store[addr].(entries := applied.value)];
      }
    }
  }
}
