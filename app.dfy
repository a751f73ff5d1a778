/**
 * The faucet's single page: a form with a rating, comments and a wallet key.
 * Submitting it mints one coin for the wallet, appends a notification to the
 * wallet's transaction inbox, saves the inbox and sends the feedback email,
 * strictly one step after the other; a failed step ends the chain silently.
 */
module App {
  import opened Wrappers
  import opened Records
  import opened SafeNet
  import opened Storage

  /** The steps of a submission, in the order they run. */
  datatype Step = Mint | ReadInbox | AppendEntry | SaveInbox | SendEmail

  const PIPELINE: seq<Step> := [Mint, ReadInbox, AppendEntry, SaveInbox, SendEmail]

  /** The message of the entry a submission appends to the wallet's inbox list. */
  const INBOX_ENTRY_MSG: string := "In exchange of your feedback about SAFE Wallet!"

  /** The initial rating, meaning "not rated yet". */
  const NO_RATING: int := -1

  /** One entry of a wallet's transaction inbox list. */
  datatype InboxEntry = InboxEntry(coinId: string, msg: string, date: string)

  /**
   * How many steps of a chain start, when step `i` succeeds exactly when
   * `ok[i]` and each step starts only once all earlier ones have succeeded.
   */
  function StepsStarted(ok: seq<bool>): (n: nat)
    ensures n <= |ok|
    ensures ok != [] ==> n >= 1
    ensures forall i :: 0 <= i < n - 1 ==> ok[i]
    ensures n < |ok| ==> !ok[n - 1]
  {
    if ok == [] then 0 else if ok[0] then 1 + StepsStarted(ok[1..]) else 1
  }

  predicate AllSucceed(ok: seq<bool>)
  {
    forall i :: 0 <= i < |ok| ==> ok[i]
  }

  /** The whole chain starts exactly when every step but possibly the last one succeeds. */
  lemma StepsStartedAll(ok: seq<bool>)
    requires ok != []
    ensures StepsStarted(ok) == |ok| <==> AllSucceed(ok[..|ok| - 1])
  {
    if StepsStarted(ok) < |ok| {
      var n := StepsStarted(ok);
      assert ok[..|ok| - 1][n - 1] == ok[n - 1];
    }
  }

  /** The chain stops right after its first failing step. */
  lemma StepsStartedFirstFailure(ok: seq<bool>, k: nat)
    requires k < |ok| && !ok[k]
    requires forall i :: 0 <= i < k ==> ok[i]
    ensures StepsStarted(ok) == k + 1
  {
  }

  /** The component's state. */
  datatype UiState = UiState(claimed: bool, transferred: bool, rating: int)

  /** What the page shows for a state. */
  datatype View = View(
    ratingDisabled: bool,
    commentsDisabled: bool,
    walletDisabled: bool,
    buttonDisabled: bool,
    smile: bool,
    loader: bool,
    successMessage: bool)

  /** The conditions `render` evaluates. */
  function Render(s: UiState): View
  {
    View(s.claimed, s.claimed, s.claimed, s.claimed, s.rating > 4,
         s.claimed && !s.transferred, s.claimed && s.transferred)
  }

  /**
   * The page is in exactly one phase: form enabled, loader, or success
   * message; the inputs are disabled exactly when claimed; the smile shows
   * exactly above four stars.
   */
  lemma RenderPhases(s: UiState)
    ensures var v := Render(s);
            && !(v.loader && v.successMessage)
            && (!v.buttonDisabled <==> !v.loader && !v.successMessage)
            && v.ratingDisabled == v.commentsDisabled == v.walletDisabled == v.buttonDisabled == s.claimed
            && (v.smile <==> s.rating > 4)
  {
  }

  /**
   * What the invariant `transferred ==> claimed` buys: the success message
   * shows exactly when the coin was transferred.
   */
  lemma SuccessMessageIffTransferred(s: UiState)
    requires s.transferred ==> s.claimed
    ensures Render(s).successMessage <==> s.transferred
  {
  }

  /**
   * What a submission did: the steps it started, the inbox list it handed to
   * the save (whether or not the save then succeeded), the network after it,
   * and whether it finished.
   */
  datatype SubmitRun = SubmitRun(ran: seq<Step>, toSave: Option<seq<InboxEntry>>, store: Store, done: bool)

  /** Whether each step of the pipeline succeeds; appending to a list cannot fail. */
  function StepOutcomes(mintOk: bool, readOk: bool, saveOk: bool, emailOk: bool): seq<bool>
  {
    [mintOk, readOk, true, saveOk, emailOk]
  }

  /**
   * How a submission ends, given the result of minting, the result the email
   * step would have on the network after the mint, and the outcomes of the
   * inbox steps: each step runs only once the previous one succeeded.
   */
  function Run(store: Store, minted: Result<(Store, string), Error>, emailed: Result<Store, Error>,
               inboxRead: Result<seq<InboxEntry>, Error>, saved: Outcome<Error>,
               coinId: string, date: string): SubmitRun
  {
    if minted.Failure? then SubmitRun(PIPELINE[..1], None, store, false)
    else if inboxRead.Failure? then SubmitRun(PIPELINE[..2], None, minted.value.0, false)
    else
      var inbox := inboxRead.value + [InboxEntry(coinId, INBOX_ENTRY_MSG, date)];
      if saved.Fail? then SubmitRun(PIPELINE[..4], Some(inbox), minted.value.0, false)
      else if emailed.Failure? then SubmitRun(PIPELINE, Some(inbox), minted.value.0, false)
      else SubmitRun(PIPELINE, Some(inbox), emailed.value, true)
  }

  /** The specification of a submission on the network `store`. */
  function Submit(store: Store, rating: int, pk: string, comments: string,
                  inboxRead: Result<seq<InboxEntry>, Error>, saved: Outcome<Error>,
                  coinName: string, date: string, time: string, emailKey: string): SubmitRun
  {
    var minted := Storage.Mint(store, pk, coinName);
    var afterMint := if minted.Success? then minted.value.0 else store;
    var emailed := StoreEmailEffect(afterMint, FeedbackEmail(rating, comments, time), pk, emailKey);
    Run(store, minted, emailed, inboxRead, saved, coinName, date)
  }

  /**
   * A submission is a chain in the sense of `StepsStarted`: it starts exactly
   * the steps up to and including the first failing one, in pipeline order,
   * and is done exactly when every step succeeded.
   */
  lemma RunFollowsChain(store: Store, minted: Result<(Store, string), Error>, emailed: Result<Store, Error>,
                        inboxRead: Result<seq<InboxEntry>, Error>, saved: Outcome<Error>,
                        coinId: string, date: string)
    ensures var run := Run(store, minted, emailed, inboxRead, saved, coinId, date);
            var ok := StepOutcomes(minted.Success?, inboxRead.Success?, saved.Pass?, emailed.Success?);
            && run.ran == PIPELINE[..StepsStarted(ok)]
            && (run.done <==> AllSucceed(ok))
  {
    var ok := StepOutcomes(minted.Success?, inboxRead.Success?, saved.Pass?, emailed.Success?);
    if minted.Failure? {
      ChainStopsAt(ok, 0);
    } else if inboxRead.Failure? {
      ChainStopsAt(ok, 1);
    } else if saved.Fail? {
      ChainStopsAt(ok, 3);
    } else {
      ChainReachesLast(ok);
    }
  }

  /** A five-step chain whose step `k` is its first failure starts `k + 1` steps and does not finish. */
  lemma ChainStopsAt(ok: seq<bool>, k: nat)
    requires |ok| == |PIPELINE| && k < |ok| && !ok[k]
    requires forall i :: 0 <= i < k ==> ok[i]
    ensures StepsStarted(ok) == k + 1 && !AllSucceed(ok)
  {
    StepsStartedFirstFailure(ok, k);
  }

  /** A five-step chain whose first four steps succeed starts every step, and finishes when the last succeeds. */
  lemma ChainReachesLast(ok: seq<bool>)
    requires |ok| == |PIPELINE| && ok[0] && ok[1] && ok[2] && ok[3]
    ensures StepsStarted(ok) == |PIPELINE| && PIPELINE[..StepsStarted(ok)] == PIPELINE
    ensures AllSucceed(ok) <==> ok[4]
  {
    assert ok[..4] == [true, true, true, true];
    StepsStartedAll(ok);
  }

  /**
   * The inbox list a submission saves is the list it read with exactly one
   * entry more at the end, naming the minted coin; earlier entries are unchanged.
   */
  lemma RunAppendsOneEntry(store: Store, minted: Result<(Store, string), Error>, emailed: Result<Store, Error>,
                           inboxRead: Result<seq<InboxEntry>, Error>, saved: Outcome<Error>,
                           coinId: string, date: string)
    ensures var run := Run(store, minted, emailed, inboxRead, saved, coinId, date);
            run.toSave.Some? ==>
              && minted.Success? && inboxRead.Success?
              && |run.toSave.value| == |inboxRead.value| + 1
              && run.toSave.value[..|inboxRead.value|] == inboxRead.value
              && run.toSave.value[|inboxRead.value|] == InboxEntry(coinId, INBOX_ENTRY_MSG, date)
  {
    if minted.Success? && inboxRead.Success? {
      var inbox := inboxRead.value + [InboxEntry(coinId, INBOX_ENTRY_MSG, date)];
      assert inbox[..|inboxRead.value|] == inboxRead.value;
    }
  }

  /** A finished submission has minted and stored the email, and the network is the one the email step left. */
  lemma RunDoneStoresEmail(store: Store, minted: Result<(Store, string), Error>, emailed: Result<Store, Error>,
                           inboxRead: Result<seq<InboxEntry>, Error>, saved: Outcome<Error>,
                           coinId: string, date: string)
    ensures var run := Run(store, minted, emailed, inboxRead, saved, coinId, date);
            run.done ==> minted.Success? && emailed.Success? && run.store == emailed.value
  {
  }

  /**
   * A finished submission leaves a coin owned by the wallet key and, in the
   * inbox the key names as an email id, a sealed email whose body gives back
   * the rating and the comments.
   */
  lemma SubmitDoneDelivers(store: Store, rating: int, pk: string, comments: string,
                           inboxRead: Result<seq<InboxEntry>, Error>, saved: Outcome<Error>,
                           coinName: string, date: string, time: string, emailKey: string)
    ensures var run := Submit(store, rating, pk, comments, inboxRead, saved, coinName, date, time, emailKey);
            run.done ==>
              && CoinAddress(coinName) in run.store
              && CoinIn(run.store[CoinAddress(coinName)]) == Some(Coin(pk, OWNER_OF_MINTED_COINS))
              && exists inbox, sealedFor, email ::
                   && inbox in run.store && emailKey in run.store[inbox].entries
                   && run.store[inbox].entries[emailKey] == SealedEmailRef(sealedFor, email)
                   && email.subject == EMAIL_SUBJECT
                   && ParseEmailBody(email.body) == Some((rating, comments))
  {
    var minted := Storage.Mint(store, pk, coinName);
    var email := FeedbackEmail(rating, comments, time);
    var afterMint := if minted.Success? then minted.value.0 else store;
    var emailed := StoreEmailEffect(afterMint, email, pk, emailKey);
    RunDoneStoresEmail(store, minted, emailed, inboxRead, saved, coinName, date);
    MintCreatesCoin(store, pk, coinName);
    EmailBodyRoundTrip(rating, comments);
    StoreEmailKeepsCoins(afterMint, email, pk, emailKey);
    StoreEmailDelivers(afterMint, email, pk, emailKey);
  }

  /**
   * `readTxInboxData` as `src/App.js` gets it: `src/storage.js` exports no
   * function of that name, so calling it throws and the chain rejects.
   */
  function ReadTxInboxDataAsImported(pk: string): (r: Result<seq<InboxEntry>, Error>)
    ensures r.Failure? && r.error == NotAFunction
  {
    Failure(NotAFunction)
  }

  /**
   * With the imports as written, no submission gets past reading the inbox:
   * it mints at most one coin, saves nothing, and is never done.
   */
  lemma SubmitAsWrittenNeverFinishes(store: Store, rating: int, pk: string, comments: string, saved: Outcome<Error>,
                                     coinName: string, date: string, time: string, emailKey: string)
    ensures var run := Submit(store, rating, pk, comments, ReadTxInboxDataAsImported(pk), saved,
                              coinName, date, time, emailKey);
            && !run.done && run.toSave == None
            && run.ran == if Storage.Mint(store, pk, coinName).Success? then [Mint, ReadInbox] else [Mint]
  {
    assert PIPELINE[..1] == [Mint];
    assert PIPELINE[..2] == [Mint, ReadInbox];
  }

  /**
   * With inbox helpers that exist, a submission whose steps all succeed is
   * done: the chain can reach `transferred`.
   */
  lemma SubmitFinishesWhenStepsSucceed(store: Store, rating: int, pk: string, comments: string,
                                       inboxRead: Result<seq<InboxEntry>, Error>, saved: Outcome<Error>,
                                       coinName: string, date: string, time: string, emailKey: string)
    requires Storage.Mint(store, pk, coinName).Success? && inboxRead.Success? && saved.Pass?
    requires StoreEmailEffect(Storage.Mint(store, pk, coinName).value.0, FeedbackEmail(rating, comments, time),
                              pk, emailKey).Success?
    ensures var run := Submit(store, rating, pk, comments, inboxRead, saved, coinName, date, time, emailKey);
            run.done && run.ran == PIPELINE
            && run.toSave == Some(inboxRead.value + [InboxEntry(coinName, INBOX_ENTRY_MSG, date)])
  {
  }

  /**
   * The promise chain `handleSubmit` starts once the form is claimed: mint,
   * read the inbox, append, save, send the email, each only after the
   * previous one succeeded; `done` tells whether all of them did.
   */
  method SubmitChain(net: Network, rating: int, pk: string, comments: string,
                     inboxRead: Result<seq<InboxEntry>, Error>, saveResult: Outcome<Error>,
                     coinName: string, date: string, time: string, emailKey: string)
    returns (ran: seq<Step>, toSave: Option<seq<InboxEntry>>, done: bool)
    requires IsRandomHex(coinName) && IsRandomHex(emailKey)
    modifies net
    ensures var run := Submit(old(net.store), rating, pk, comments, inboxRead, saveResult,
                              coinName, date, time, emailKey);
            && ran == run.ran && toSave == run.toSave && net.store == run.store && done == run.done
  {
    ghost var store0 := net.store;
    ghost var minted0 := Storage.Mint(store0, pk, coinName);
    ghost var afterMint0 := if minted0.Success? then minted0.value.0 else store0;
    ghost var emailed0 := StoreEmailEffect(afterMint0, FeedbackEmail(rating, comments, time), pk, emailKey);
    assert Submit(store0, rating, pk, comments, inboxRead, saveResult, coinName, date, time, emailKey)
        == Run(store0, minted0, emailed0, inboxRead, saveResult, coinName, date);
    ran, toSave := [], None;

    ran := ran + [Mint];
    assert ran == [Mint];
    var minted := MintCoin(net, pk, coinName);
    assert minted.Success? == minted0.Success? && net.store == afterMint0;
    if minted.Failure? {
      done := false;
      return;
    }
    var coinId := minted.value;
    assert coinId == coinName;

    ran := ran + [ReadInbox];
    assert ran == [Mint, ReadInbox];
    if inboxRead.Failure? {
      done := false;
      return;
    }
    var inbox := inboxRead.value;

    ran := ran + [AppendEntry];
    inbox := inbox + [InboxEntry(coinId, INBOX_ENTRY_MSG, date)];

    ran := ran + [SaveInbox];
    assert ran == [Mint, ReadInbox, AppendEntry, SaveInbox];
    toSave := Some(inbox);
    if saveResult.Fail? {
      done := false;
      return;
    }

    ran := ran + [SendEmail];
    assert ran == PIPELINE;
    var sent := Storage.SendEmail(net, rating, comments, pk, time, emailKey);
    assert sent.Pass? == emailed0.Success?;
    assert net.store == if emailed0.Success? then emailed0.value else afterMint0;
    if sent.Fail? {
      done := false;
      return;
    }
    done := true;
  }

  class App {
    var claimed: bool
    var transferred: bool
    var rating: int

    /** The invariant every reachable state keeps; see `SuccessMessageIffTransferred`. */
    predicate Valid()
      reads this
    {
      transferred ==> claimed
    }

    function State(): UiState
      reads this
    {
      UiState(claimed, transferred, rating)
    }

    constructor ()
      ensures Valid()
      ensures State() == UiState(false, false, NO_RATING)
    {
      claimed := false;
      transferred := false;
      rating := NO_RATING;
    }

    /** `handleRating`: record the chosen rating, nothing else. */
    method HandleRating(newRating: int)
      requires Valid()
      modifies this
      ensures Valid()
      ensures State() == old(State()).(rating := newRating)
    {
      rating := newRating;
    }

    /**
     * `handleSubmit`: claim, then mint, read the inbox, append, save, send the
     * email, each only after the previous one succeeded, and mark the coin
     * transferred only once all of them did.  `inboxRead` and `saveResult`
     * stand for the results of reading and saving the inbox; `coinName`,
     * `emailKey`, `date` and `time` for the random and clock values the
     * chain draws.  The form, button included, is disabled once claimed, so
     * a page submits at most once; a page whose chain failed therefore stays
     * claimed and untransferred for good.
     */
    method HandleSubmit(net: Network, pk: string, comments: string,
                        inboxRead: Result<seq<InboxEntry>, Error>, saveResult: Outcome<Error>,
                        coinName: string, date: string, time: string, emailKey: string)
      returns (ran: seq<Step>, toSave: Option<seq<InboxEntry>>)
      requires Valid() && !claimed
      requires IsRandomHex(coinName) && IsRandomHex(emailKey)
      modifies this, net
      ensures Valid() && claimed && rating == old(rating)
      ensures var run := Submit(old(net.store), old(rating), pk, comments, inboxRead, saveResult,
                                coinName, date, time, emailKey);
              && ran == run.ran && toSave == run.toSave && net.store == run.store
              && transferred == run.done
    {
      claimed := true;
      var done;
      ran, toSave, done := SubmitChain(net, rating, pk, comments, inboxRead, saveResult,
                                      coinName, date, time, emailKey);
      if done {
        transferred := true;
      }
    }
  }
}
