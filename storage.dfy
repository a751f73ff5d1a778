/**
 * The storage helpers of the faucet: minting a coin, dropping a transaction
 * notification into a wallet's inbox, and storing a feedback email in the
 * inbox an email id names.  Each works on the shared `Network`, which stands
 * for the application handle every call of the source goes through.
 * Random keys and names and the current time are parameters.
 */
module Storage {
  import opened Wrappers
  import opened Records
  import opened ServiceId
  import opened SafeNet

  /** 32 random bytes in hex: what `crypto.randomBytes(32).toString('hex')` yields. */
  predicate IsRandomHex(s: string)
  {
    |s| == 64 && forall i :: 0 <= i < |s| ==> s[i] in "0123456789abcdef"
  }

  /** Where a freshly minted coin with random name `name` lives. */
  function CoinAddress(name: string): Address
  {
    Address(RandomName(name), TAG_TYPE_THANKS_COIN)
  }

  /** A wallet's transaction inbox: at the hash of its public key. */
  function TxInboxAddress(pk: string): Address
  {
    Address(Sha3(pk), TAG_TYPE_WALLET_TX_INBOX)
  }

  /** The record of services published under a public id. */
  function ServicesAddress(publicId: string): Address
  {
    Address(Sha3(publicId), TAG_TYPE_DNS)
  }

  /** The initial entries of a coin's data: one entry, `coin-data`, holding the coin. */
  function CoinData(pk: string): map<string, Value>
  {
    map[COIN_ENTRY_KEY_DATA := CoinRecord(MintedCoin(pk))]
  }

  /** The coin a data object records under `coin-data`, if any: what a wallet reads back. */
  function CoinIn(md: MutableData): Option<Coin>
  {
    if COIN_ENTRY_KEY_DATA in md.entries && md.entries[COIN_ENTRY_KEY_DATA].CoinRecord? then
      Some(md.entries[COIN_ENTRY_KEY_DATA].coin)
    else None
  }

  /**
   * The effect of `mintCoin(pk)` when the network picks the random name `name`:
   * it fails exactly when a data object of that name already exists.
   */
  function Mint(store: Store, pk: string, name: string): (r: Result<(Store, string), Error>)
    ensures r.Success? <==> CoinAddress(name) !in store
    ensures r.Failure? ==> r.error == DataExists
  {
    var addr := CoinAddress(name);
    if addr in store then Failure(DataExists)
    else Success((store[addr := MutableData(CoinData(pk), true)], name))
  }

  /**
   * A successful mint adds one new data object owned by `pk`, previously
   * owned by `GENESIS`, updatable by anyone, leaves every other object as it
   * was, and returns its name as the coin id.
   */
  lemma MintCreatesCoin(store: Store, pk: string, name: string)
    ensures var r := Mint(store, pk, name);
            r.Success? ==>
              var (after, coinId) := r.value;
              && coinId == name
              && after.Keys == store.Keys + {CoinAddress(name)}
              && (forall a :: a in store ==> after[a] == store[a])
              && after[CoinAddress(name)].entries.Keys == {COIN_ENTRY_KEY_DATA}
              && CoinIn(after[CoinAddress(name)]) == Some(Coin(pk, OWNER_OF_MINTED_COINS))
              && after[CoinAddress(name)].anyoneMayUpdate
  {
  }

  /** `mintCoin`: create the coin's data, open it to updates by anyone, return its name. */
  method MintCoin(net: Network, pk: string, name: string) returns (r: Result<string, Error>)
    requires IsRandomHex(name)
    modifies net
    ensures match Mint(old(net.store), pk, name)
            case Success((after, coinId)) => r == Success(coinId) && net.store == after
            case Failure(e) => r == Failure(e) && net.store == old(net.store)
  {
    var coinData := CoinData(pk);
    var coinHandle := CoinAddress(name);
    var setup := net.QuickSetup(coinHandle, coinData);
    if setup.Fail? {
      r := Failure(setup.error);
      return;
    }
    var permitted := net.SetUserPermissions(coinHandle, true);
    assert permitted.Pass?;
    r := Success(name);
  }

  /**
   * The mutation `sendTxNotif` applies: a single insert, under the random key
   * `txId`, of a notification carrying `coinIds` unchanged.
   */
  function TxMutation(txId: string, coinIds: seq<string>, date: string): (actions: seq<EntryAction>)
    ensures |actions| == 1 && InsertsOnly(actions)
    ensures actions[0].key == txId
    ensures actions[0].value.TxRecord? && actions[0].value.tx.coinIds == coinIds
    ensures actions[0].value.tx.msg == TX_NOTIF_MSG
  {
    [Insert(txId, TxRecord(TxNotif(coinIds, date)))]
  }

  /** `sendTxNotif(pk, coinIds)`: insert one notification into the wallet's inbox. */
  method SendTxNotif(net: Network, pk: string, coinIds: seq<string>, txId: string, date: string)
    returns (r: Outcome<Error>)
    requires IsRandomHex(txId)
    modifies net
    ensures match ApplyMutation(old(net.store), TxInboxAddress(pk), TxMutation(txId, coinIds, date))
            case Success(after) => r == Pass && net.store == after
            case Failure(e) => r == Fail(e) && net.store == old(net.store)
  {
    var mutation := TxMutation(txId, coinIds, date);
    var xorName := Sha3(pk);
    r := net.ApplyEntriesMutation(Address(xorName, TAG_TYPE_WALLET_TX_INBOX), mutation);
  }

  /**
   * A notification never replaces anything: when `sendTxNotif` succeeds the
   * inbox has exactly one entry more, keyed by `txId`, every earlier entry is
   * unchanged, and no other data object changes.
   */
  lemma TxNotifAppendsOne(store: Store, pk: string, txId: string, coinIds: seq<string>, date: string)
    ensures var r := ApplyMutation(store, TxInboxAddress(pk), TxMutation(txId, coinIds, date));
            var inbox := TxInboxAddress(pk);
            r.Success? ==>
              && txId !in store[inbox].entries
              && r.value[inbox].entries.Keys == store[inbox].entries.Keys + {txId}
              && |r.value[inbox].entries| == |store[inbox].entries| + 1
              && (forall k :: k in store[inbox].entries ==> r.value[inbox].entries[k] == store[inbox].entries[k])
              && r.value[inbox].entries[txId] == TxRecord(TxNotif(coinIds, date))
              && r.value.Keys == store.Keys
              && (forall a :: a in store && a != inbox ==> r.value[a] == store[a])
  {
    var inbox := TxInboxAddress(pk);
    var actions := TxMutation(txId, coinIds, date);
    if inbox in store {
      InsertsOnlyAppend(store[inbox].entries, actions);
      InsertsOnlyGrowth(store[inbox].entries, actions);
    }
  }

  /**
   * What `_storeEmail(email, to)` does to the network: find the inbox the
   * service record of `to` points to, read its owner's encryption key, and
   * insert one sealed reference to the email under the random key `entryKey`.
   */
  function StoreEmailEffect(store: Store, email: Email, to: string, entryKey: string): (r: Result<Store, Error>)
  {
    var info := SplitPublicIdAndService(to);
    match Lookup(store, ServicesAddress(info.publicId), info.serviceName)
    case Failure(_) => Failure(EmailIdNotFound)
    case Success(service) =>
      if !service.Serialised? then Failure(NotSerialised)
      else
        var inbox := service.location;
        match Lookup(store, inbox, MD_KEY_EMAIL_ENC_PUBLIC_KEY)
        case Failure(e) => Failure(e)
        case Success(key) =>
          if !key.Raw? then Failure(NotRaw)
          else ApplyMutation(store, inbox, [Insert(entryKey, SealedEmailRef(key.text, email))])
  }

  /** `_storeEmail`, step by step as the source chains it. */
  method StoreEmail(net: Network, email: Email, to: string, entryKey: string) returns (r: Outcome<Error>)
    requires IsRandomHex(entryKey)
    modifies net
    ensures match StoreEmailEffect(old(net.store), email, to, entryKey)
            case Success(after) => r == Pass && net.store == after
            case Failure(e) => r == Fail(e) && net.store == old(net.store)
  {
    var serviceInfo := SplitPublicIdAndService(to);
    var servicesHandle := ServicesAddress(serviceInfo.publicId);
    var service := net.Get(servicesHandle, serviceInfo.serviceName);
    if service.Failure? {
      r := Fail(EmailIdNotFound);
      return;
    }
    if !service.value.Serialised? {
      r := Fail(NotSerialised);
      return;
    }
    var inboxHandle := service.value.location;
    var pk := net.Get(inboxHandle, MD_KEY_EMAIL_ENC_PUBLIC_KEY);
    if pk.Failure? {
      r := Fail(pk.error);
      return;
    }
    if !pk.value.Raw? {
      r := Fail(NotRaw);
      return;
    }
    var entryValue := SealedEmailRef(pk.value.text, email);
    var mutation := [Insert(entryKey, entryValue)];
    r := net.ApplyEntriesMutation(inboxHandle, mutation);
  }

  /**
   * "Email id not found" is reported exactly when the service record of the
   * id's public id lacks the derived service name, and then nothing is written.
   */
  lemma EmailIdNotFoundExactly(store: Store, email: Email, to: string, entryKey: string)
    ensures var info := SplitPublicIdAndService(to);
            var services := ServicesAddress(info.publicId);
            (StoreEmailEffect(store, email, to, entryKey) == Failure(EmailIdNotFound)
             <==> services !in store || info.serviceName !in store[services].entries)
  {
    var info := SplitPublicIdAndService(to);
    var services := ServicesAddress(info.publicId);
    if services in store && info.serviceName in store[services].entries {
      var service := store[services].entries[info.serviceName];
      if service.Serialised? {
        var inbox := service.location;
        var key := Lookup(store, inbox, MD_KEY_EMAIL_ENC_PUBLIC_KEY);
        if key.Success? && key.value.Raw? {
          if inbox in store {
            SingleInsert(store[inbox].entries, entryKey, SealedEmailRef(key.value.text, email));
          }
        }
      }
    }
  }

  /**
   * A stored email adds exactly one entry to the inbox the service record
   * points to: a reference sealed for that inbox's key, under `entryKey`.
   * Nothing else on the network changes.
   */
  lemma StoreEmailAppendsOne(store: Store, email: Email, to: string, entryKey: string)
    ensures var r := StoreEmailEffect(store, email, to, entryKey);
            var info := SplitPublicIdAndService(to);
            var services := ServicesAddress(info.publicId);
            r.Success? ==>
              && services in store && info.serviceName in store[services].entries
              && store[services].entries[info.serviceName].Serialised?
              && var inbox := store[services].entries[info.serviceName].location;
                 && inbox in store && MD_KEY_EMAIL_ENC_PUBLIC_KEY in store[inbox].entries
                 && var key := store[inbox].entries[MD_KEY_EMAIL_ENC_PUBLIC_KEY];
                    && key.Raw?
                    && entryKey !in store[inbox].entries
                    && r.value[inbox] == store[inbox].(entries := store[inbox].entries[entryKey := SealedEmailRef(key.text, email)])
                    && r.value.Keys == store.Keys
                    && (forall a :: a in store && a != inbox ==> r.value[a] == store[a])
  {
    var info := SplitPublicIdAndService(to);
    var services := ServicesAddress(info.publicId);
    if services in store && info.serviceName in store[services].entries {
      var service := store[services].entries[info.serviceName];
      if service.Serialised? {
        var inbox := service.location;
        var key := Lookup(store, inbox, MD_KEY_EMAIL_ENC_PUBLIC_KEY);
        if key.Success? && key.value.Raw? {
          if inbox in store {
            SingleInsert(store[inbox].entries, entryKey, SealedEmailRef(key.value.text, email));
          }
        }
      }
    }
  }

  /**
   * A stored email leaves behind, in some inbox, a sealed reference to that
   * very email under the chosen entry key.
   */
  lemma StoreEmailDelivers(store: Store, email: Email, to: string, entryKey: string)
    ensures var r := StoreEmailEffect(store, email, to, entryKey);
            r.Success? ==>
              exists inbox, sealedFor :: inbox in r.value && entryKey in r.value[inbox].entries
                                         && r.value[inbox].entries[entryKey] == SealedEmailRef(sealedFor, email)
  {
    var r := StoreEmailEffect(store, email, to, entryKey);
    if r.Success? {
      StoreEmailAppendsOne(store, email, to, entryKey);
      var info := SplitPublicIdAndService(to);
      var inbox := store[ServicesAddress(info.publicId)].entries[info.serviceName].location;
      var key := store[inbox].entries[MD_KEY_EMAIL_ENC_PUBLIC_KEY];
      assert r.value[inbox].entries[entryKey] == SealedEmailRef(key.text, email);
    }
  }

  /** Storing an email never removes a data object or changes the coin any object records. */
  lemma StoreEmailKeepsCoins(store: Store, email: Email, to: string, entryKey: string)
    ensures var r := StoreEmailEffect(store, email, to, entryKey);
            r.Success? ==> forall a :: a in store ==> a in r.value && CoinIn(r.value[a]) == CoinIn(store[a])
  {
    var r := StoreEmailEffect(store, email, to, entryKey);
    if r.Success? {
      StoreEmailAppendsOne(store, email, to, entryKey);
    }
  }

  /** `sendEmail(rating, comments, emailId)`: build the feedback email and store it. */
  method SendEmail(net: Network, rating: int, comments: string, emailId: string, time: string, entryKey: string)
    returns (r: Outcome<Error>)
    requires IsRandomHex(entryKey)
    modifies net
    ensures match StoreEmailEffect(old(net.store), FeedbackEmail(rating, comments, time), emailId, entryKey)
            case Success(after) => r == Pass && net.store == after
            case Failure(e) => r == Fail(e) && net.store == old(net.store)
  {
    var emailContent := FeedbackEmail(rating, comments, time);
    r := StoreEmail(net, emailContent, emailId, entryKey);
  }
}
