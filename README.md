# SAFE Faucet — a Dafny model

The SAFE Faucet is a small web page. A visitor rates the SAFE Wallet app, adds
comments and gives a wallet public key. Submitting the form is meant to do four things:

1. It mints one ThanksCoin for that key, as a new mutable data object on the SAFE network.
2. It adds an entry to the wallet's transaction inbox list.
3. It saves that list.
4. It stores the feedback as an email. The email goes into the inbox that the
   email id names, found through a DNS-like services record.

As shipped, a submission stops after step 1: the inbox helpers that steps 2 and 3
call are not exported by `src/storage.js` (see "## Findings").

This project models two source files and proves properties about them:

- `src/storage.js`:
  - the email-id splitting helper `_splitPublicIdAndService`;
  - the records the faucet writes: the coin, the transaction notification and the feedback email;
  - the store interaction of `mintCoin`, `sendTxNotif`, `_storeEmail` and `sendEmail`, over an abstract network.
- `src/App.js`: the page component.
  - Its state is `claimed`, `transferred` and `rating`.
  - `handleRating` sets the rating.
  - `handleSubmit` sets `claimed` and runs the submission chain.
  - The `render` conditions are predicates over the state.

Modules, one file each:

- `Wrappers` (`wrappers.dfy`): `Option`, `Result` and `Outcome`.
- `Text` (`text.dfy`): the JavaScript string operations the source relies on.
  - `replace(/\.+$/, '')`, `split` and `slice` with a negative end.
  - The decimal text that `"[" + rating` produces for an integer rating.
  - Reference definitions and inverses used only by the proofs: `LastIndexOf` (where split-then-pop cuts), `Join`, `ParseInt`, `IndexOf`.
- `Records` (`records.dfy`): the source's constants and the coin, notification and email records, as datatypes.
- `ServiceId` (`service_id.dfy`): `_splitPublicIdAndService`, plus reference definitions of the public id and the service id.
- `SafeNet` (`safe_net.dfy`): the network as a map from addresses to mutable data objects.
  - Entries mutations are all-or-nothing.
  - A `Network` class holds the one store that every call updates.
- `Storage` (`storage.dfy`): the storage helpers.
  - Each is a module-level method that takes the `Network` as an argument and updates its store.
  - Each is proved against a specification function of the old store.
- `App` (`app.dfy`): the component as a class.
  - The submission chain is a method proved against the function `Submit`.
  - `Submit` is checked in turn against a generic "chain of dependent steps" (`StepsStarted`).

Hashing is symbolic (`XorName.Sha3(input)`), so different inputs never collide.
Encryption is symbolic too (`Value.SealedEmailRef(pk, email)`).
The random values and the current time are parameters:

- `crypto.randomBytes(32)` entry keys: `txId`, `emailKey`;
- the random name of a new coin: `coinName`;
- `new Date().toUTCString()`: `date`, `time`.

Entry keys and coin names must be 64 lower-case hex characters, as 32 random bytes in hex are.

## Model

| member | source | states |
|---|---|---|
| Text.StripTrailingDots | src/storage.js:96 | the result is a prefix of the input that does not end in `.`, and only dots were removed |
| Text.StripTrailingDotsUnique | src/storage.js:96 | any prefix that does not end in a dot and is followed only by dots is the stripped string |
| Text.StripTrailingDotsIdempotent | src/storage.js:96 | stripping trailing dots twice is stripping once |
| Text.Split | src/storage.js:97 | `split('.')` never returns an empty array, and no part contains the separator |
| Text.JoinSplit | src/storage.js:97 | joining the parts of a split with the separator gives back the string |
| Text.SplitJoin | src/storage.js:97 | splitting a join of separator-free parts gives back the parts |
| Text.LastIndexOf | src/storage.js:97-98 | a reference definition, not a call of the source: the index of the last occurrence of the character, or -1 when it does not occur |
| Text.LastPartOfSplit | src/storage.js:97-98 | the part `pop()` takes from a split is what follows the last separator |
| Text.SliceToNegativeEnd | src/storage.js:99 | `slice(0, -n)` keeps all but the last n characters, clamped to the empty string |
| Text.NatToDecimal | src/storage.js:141 | the decimal rendering is non-empty, all digits, and has no leading zero |
| Text.DecimalValueOfNat | src/storage.js:141 | the digits of a natural number read back as that number |
| Text.IntToString | src/storage.js:141 | the rendering of an integer is non-empty and contains no space |
| Text.IntToStringRoundTrip | src/storage.js:141 | parsing the rendering of any integer, negative ones included, gives the integer back |
| ServiceId.SplitPublicIdAndService | src/storage.js:94-103 | the helper as written: strip trailing dots, split on dots, pop the public id, slice off the service id, rebuild the email id, append `@email`; its properties are the lemmas below |
| ServiceId.PublicIdIsLastSegment | src/storage.js:96-98 | `publicId` is the segment after the last dot of the stripped id; it has no dot; it is non-empty exactly when the input has a character other than a dot |
| ServiceId.ServiceNameFromServiceId | src/storage.js:99-101 | `serviceName` is always the service id (all before the last dot, or empty) followed by `@email`; the service id is empty exactly when there is no dot or the last dot is at position 0 |
| ServiceId.EmailIdNormalised | src/storage.js:100 | the returned `emailId` is the stripped input, except that the leading dot of an id like `.x` is dropped; with a service id it is service id, dot, public id |
| ServiceId.TrailingDotsIgnored | src/storage.js:96 | `a.b..` gives the same three parts as `a.b` |
| ServiceId.SplitIdempotent | src/storage.js:94-103 | the returned `emailId` is normal: splitting it again gives the same three parts |
| Records.MintedCoin | src/storage.js:36 | the coin record: owner `pk`, previous owner `GENESIS` |
| Records.TxNotif | src/storage.js:57-61 | the notification record: the given coin ids, the fixed message, the given date |
| Records.EmailBody | src/storage.js:141 | the body `"[" + rating + " star/s] " + comments`; `EmailBodyRoundTrip` proves it determines both parts |
| Records.EmailBodyRoundTrip | src/storage.js:141 | the body `"[" + rating + " star/s] " + comments` determines both the rating and the comments |
| Records.FeedbackEmail | src/storage.js:137-142 | the email has subject `SAFE Wallet feedback`, sender `SAFE Faucet` and the given time |
| SafeNet.ApplyActions | src/storage.js:64-71 | an entries mutation applied action by action: an insert needs an absent key, an update an existing one, and one failing action rejects the whole mutation |
| SafeNet.InsertsOnlyAppend | src/storage.js:64-65 | a mutation of inserts only, when it applies, keeps every earlier entry, and the new keys are exactly the inserted ones |
| SafeNet.InsertsOnlyGrowth | src/storage.js:64-65 | a mutation of inserts only grows the entries by exactly the number of inserts |
| SafeNet.SingleInsert | src/storage.js:128-129 | a one-insert mutation adds its entry when the key is free, and otherwise fails with `EntryExists` |
| SafeNet.InsertsOnlyTail | src/storage.js:64-65 | a mutation of inserts only still holds only inserts after its first action |
| SafeNet.Lookup | src/storage.js:119-122 | `get` succeeds exactly when the object and the key exist, and returns the stored value |
| SafeNet.ApplyMutation | src/storage.js:68 | an entries mutation changes only the target object, and only its entries; it fails as a whole |
| SafeNet.Network.Get | src/storage.js:119-122 | reads an entry without changing the store; fails with `NoSuchData` or `NoSuchEntry` |
| SafeNet.Network.QuickSetup | src/storage.js:41-42 | creates the object with the given entries, or fails with `DataExists` and changes nothing |
| SafeNet.Network.SetUserPermissions | src/storage.js:43-46 | sets who may update an existing object and changes nothing else; fails with `NoSuchData` when there is no such object |
| SafeNet.Network.ApplyEntriesMutation | src/storage.js:68 | the store afterwards is exactly what `ApplyMutation` gives; on failure it is unchanged |
| Storage.CoinData | src/storage.js:37 | the initial entries of a coin: the single key `coin-data` holding the coin record |
| Storage.IsRandomHex | src/storage.js:19 | what `_genRandomEntryKey` yields: 64 lower-case hex characters (32 random bytes) |
| Storage.CoinAddress | src/storage.js:41 | the address `newRandomPublic` gives a coin: its random name with the tag `TAG_TYPE_THANKS_COIN` |
| Storage.TxInboxAddress | src/storage.js:66-67 | a wallet's transaction inbox: the hash of the public key with the tag `TAG_TYPE_WALLET_TX_INBOX` |
| Storage.ServicesAddress | src/storage.js:107-118 | the services record of a public id: the hash of the public id with the tag `TAG_TYPE_DNS` |
| Storage.Mint | src/storage.js:35-53 | minting succeeds exactly when no object has the chosen name, and otherwise fails with `DataExists` |
| Storage.MintCreatesCoin | src/storage.js:35-53 | a mint adds one object and leaves the others alone; its only entry is `coin-data`, holding the coin `{owner: pk, prev_owner: GENESIS}`; anyone may update it; the coin id is its name |
| Storage.MintCoin | src/storage.js:39-52 | the steps quickSetup then setUserPermissions produce exactly `Mint` on the old store, and return the coin id |
| Storage.TxMutation | src/storage.js:56-65 | the notification mutation is one insert, under the random `txId`, carrying `coinIds` unchanged and the fixed message |
| Storage.SendTxNotif | src/storage.js:64-72 | applies that mutation to the inbox at the hash of `pk`, and nothing else |
| Storage.TxNotifAppendsOne | src/storage.js:64-71 | a notification adds exactly one entry, `txId`, to the inbox; every earlier entry and every other object is unchanged, and no object appears |
| Storage.StoreEmailEffect | src/storage.js:114-134 | the specification of `_storeEmail`: look up the service name under the public id's services record (`Email id not found` when absent), open the serialised inbox, read its key, insert one sealed reference; its properties are the lemmas below |
| Storage.StoreEmail | src/storage.js:114-134 | the lookups and the mutation, step by step, have exactly the effect `StoreEmailEffect` describes, and leave the store unchanged on failure |
| Storage.EmailIdNotFoundExactly | src/storage.js:119-120 | `Email id not found` happens exactly when the services record or its service-name entry is missing, and then nothing is written |
| Storage.StoreEmailAppendsOne | src/storage.js:122-129 | a stored email adds one entry to the inbox the service record points to: a reference sealed for that inbox's key, under a fresh key; the inbox is otherwise unchanged (its permissions included), every other object is unchanged, and no object appears |
| Storage.StoreEmailDelivers | src/storage.js:122-129 | after a stored email, some inbox holds a sealed reference to that very email under the chosen key |
| Storage.StoreEmailKeepsCoins | src/storage.js:124-129 | storing an email removes no object and changes no coin |
| Storage.SendEmail | src/storage.js:136-146 | builds the feedback email and stores it, with the effect `StoreEmailEffect` gives for that email |
| App.StepsStarted | src/App.js:43-54 | in a chain where each step starts only after the previous one succeeded, the steps before the last one started all succeeded, and the last one failed unless the chain ran to the end |
| App.StepsStartedAll | src/App.js:43-54 | the whole chain starts exactly when every step but the last succeeds |
| App.StepsStartedFirstFailure | src/App.js:43-54 | the chain stops right after its first failing step |
| App.ChainStopsAt | src/App.js:43-54 | a five-step chain whose first failure is step k starts k+1 steps and does not finish |
| App.ChainReachesLast | src/App.js:43-54 | a five-step chain whose first four steps succeed starts all five, and finishes exactly when the last succeeds |
| App.Render | src/App.js:76-94 | the conditions `render` evaluates: the disabled inputs, the smile, the loader and the success message |
| App.RenderPhases | src/App.js:76-94 | the loader and the success message never show together; the inputs and the button are disabled exactly when claimed; the smile shows exactly above four stars |
| App.SuccessMessageIffTransferred | src/App.js:94 | under the invariant `transferred ==> claimed`, the success message shows exactly when the coin was transferred |
| App.Run | src/App.js:43-54 | the promise chain given each step's outcome: each step only after the previous one succeeded, the inbox list extended by one entry before saving |
| App.Submit | src/App.js:43-54 | a submission on a network: `Run` with the mint and the email step as `Storage` models them, the email sent to `pk` with the current rating |
| App.RunFollowsChain | src/App.js:43-54 | a submission runs mint, read inbox, append, save inbox and send email in that order, up to and including the first failing step, and is done exactly when all succeed |
| App.RunAppendsOneEntry | src/App.js:48 | the inbox list handed to the save is the list read plus exactly one entry `{coinId, msg, date}` at the end; earlier entries are unchanged |
| App.RunDoneStoresEmail | src/App.js:43-54 | a finished submission has minted and stored the email, and the network is the one the email step left |
| App.SubmitDoneDelivers | src/App.js:43-54 | after a finished submission the network holds a coin owned by the wallet key, and an inbox holds the feedback email, whose body gives back the rating and the comments |
| App.ReadTxInboxDataAsImported | src/App.js:5 | `readTxInboxData` as imported: not exported by `src/storage.js`, so the call fails |
| App.SubmitAsWrittenNeverFinishes | src/App.js:5 | with that import no submission is ever done: it mints at most one coin, saves nothing and stops at the inbox read |
| App.SubmitFinishesWhenStepsSucceed | src/App.js:43-54 | with working inbox helpers a submission whose steps all succeed runs the whole pipeline and is done |
| App.SubmitChain | src/App.js:43-54 | the promise chain, step by step, gives exactly the steps, the inbox list handed to the save, the network and the outcome that `Submit` specifies |
| App.App.constructor | src/App.js:16-27 | a new component starts unclaimed, not transferred, with rating -1 |
| App.App.HandleRating | src/App.js:33-35 | sets the rating and leaves `claimed` and `transferred` unchanged |
| App.App.HandleSubmit | src/App.js:37-55 | runs on an unclaimed page only, since the button is disabled once claimed (src/App.js:87); sets `claimed` and keeps the rating; `transferred` is true exactly when every step succeeded, so a failed page stays claimed and untransferred for good; `transferred ==> claimed` is kept |

## Left out

- `authoriseApp` and the application handle are not modelled. The network is a `Network` object passed to every call.
- The free calls that release handles are not modelled.
- `newMutation` / `insert` are modelled as a list of actions, and `newPermissionSet` / `setAllow` as the flag set by `setUserPermissions`.
- `getNameAndTag` is not modelled. The coin id is the random name of the new object.
- SHA3 hashing (`_genXorName`) is modelled as a symbolic name, so two different inputs never collide.
- `_encrypt`, `encryptSealed` and the immutable data write in `_writeEmailContent` are modelled as one symbolic value: a reference to the email, sealed for the inbox owner's key.
- `_encrypt`'s array-to-string conversion is not modelled.
- `crypto.randomBytes` is not modelled. Its values are parameters, required to be 64 lower-case hex characters.
- `new Date().toUTCString()` is not modelled. The time and date are parameters.
- `JSON.stringify` is not modelled. The records are datatypes, not serialised text.
- `readTxInboxData` and `saveTxInboxData` are imported by `src/App.js:5`, but `src/storage.js` does not export them (see "## Findings"). The model takes them as a fallible read that returns a list and a fallible save. Their effect on the network is not modelled.
- The network calls cannot fail for connection or authorisation reasons. `Mint` fails only when its random name is taken; `Lookup` and `ApplyMutation` fail only on a missing object, a missing entry or an existing key. `RunFollowsChain` covers every outcome of every step, so a failure of any step is still accounted for.
- `sendTxNotif` is modelled on its own. `handleSubmit` does not call it.
- `ApplyMutation` does not check the target's permissions, so the model cannot refuse a write into another wallet's or another user's inbox.
- Encryption cannot fail in the model: `pubEncKeyKeyFromRaw` on a key that is not hex is not modelled.
- `console.log` output is not modelled.
- The rating is modelled as a mathematical integer, not a JavaScript number. The rating widget yields only -1 to 5, where `"[" + rating` gives the decimal digits the model writes; numbers of 1e21 and more, which JavaScript writes in exponent form, are not modelled.
- Storage.MintCoin: does not model the mint failing after `quickSetup` succeeded. The model's `setUserPermissions` cannot fail on an object that exists. A network error at that point is a foreign failure outside the model.
- App.App.HandleSubmit:
  - The promise chain is modelled as one synchronous method.
  - The chain reads `this.state.rating` when the email step runs; the model uses the rating at submit time. While claimed, the disabled rating input keeps the two equal. Asynchronous interleaving with other events is not modelled.
- The React rendering, semantic-ui components and styling are not modelled beyond the boolean conditions in `Render`.
- Not modelled, because the code has none of them: minting several coins, profile-document resolution, a `failed` state, retries, a feedback channel of its own. A failed step leaves the page claimed and not transferred, with no further state; the feedback email is stored in the inbox the wallet key names, since `handleSubmit` passes `pk` as the email id.

## Findings

| source | as written | input that shows it | evidently intended | confidence | as-written member | corrected member |
|---|---|---|---|---|---|---|
| src/App.js:5 | `readTxInboxData` and `saveTxInboxData` are taken from `src/storage.js`, which exports neither; the call at src/App.js:45 is a call of `undefined`, the promise rejects, and every submission stops after minting a coin, so `transferred` is never set | any submission, e.g. one whose mint succeeds | `src/storage.js` exports both helpers, so a submission whose steps succeed reaches the email step and is marked transferred | not executed; high | App.SubmitAsWrittenNeverFinishes | App.SubmitFinishesWhenStepsSucceed |
