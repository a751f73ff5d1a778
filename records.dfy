/**
 * The constants of the faucet and the plain records it writes to the network:
 * a coin, a transaction notification and a feedback email.  Records are kept
 * as datatypes; their `JSON.stringify` text is not modelled.
 */
module Records {
  import opened Wrappers
  import opened Text

  /** The previous owner recorded in every freshly minted coin. */
  const OWNER_OF_MINTED_COINS: string := "GENESIS"
  /** Appended to a service id to name the service that holds an email inbox. */
  const SERVICE_NAME_POSTFIX: string := "@email"

  const TAG_TYPE_DNS: int := 15001
  const TAG_TYPE_THANKS_COIN: int := 21082018
  const TAG_TYPE_WALLET_TX_INBOX: int := 20082018

  /** The single entry key of a coin's mutable data. */
  const COIN_ENTRY_KEY_DATA: string := "coin-data"
  /** The entry of an email inbox that holds its owner's encryption key. */
  const MD_KEY_EMAIL_ENC_PUBLIC_KEY: string := "__email_enc_pk"

  const TX_NOTIF_MSG: string := "In exchange for your feedback about the SAFE Wallet!"
  const EMAIL_SUBJECT: string := "SAFE Wallet feedback"
  const EMAIL_FROM: string := "SAFE Faucet"
  /** What follows the rating inside the brackets of a feedback body. */
  const RATING_MARKER: string := " star/s] "

  /** The ownership record a coin's mutable data holds. */
  datatype Coin = Coin(owner: string, prevOwner: string)

  /** The notification written into a wallet's transaction inbox. */
  datatype TxNotification = TxNotification(coinIds: seq<string>, msg: string, date: string)

  /** The feedback email, before encryption. */
  datatype Email = Email(subject: string, from: string, time: string, body: string)

  /** The record `mintCoin` stores for a newly minted coin. */
  function MintedCoin(pk: string): Coin
  {
    Coin(pk, OWNER_OF_MINTED_COINS)
  }

  /** The notification `sendTxNotif` builds; `date` stands for the current UTC time. */
  function TxNotif(coinIds: seq<string>, date: string): TxNotification
  {
    TxNotification(coinIds, TX_NOTIF_MSG, date)
  }

  /** `"[" + rating + " star/s] " + comments` */
  function EmailBody(rating: int, comments: string): string
  {
    "[" + IntToString(rating) + RATING_MARKER + comments
  }

  /** Reads a rating and the comments back out of a feedback body: the inverse of `EmailBody`, which the source itself never needs. */
  function ParseEmailBody(body: string): Option<(int, string)>
  {
    if |body| >= 1 && body[0] == '[' then
      var j := IndexOf(body, ' ');
      if j < 1 || |body| < j + |RATING_MARKER| || body[j..j + |RATING_MARKER|] != RATING_MARKER then None
      else
        match ParseInt(body[1..j])
        case Some(n) => Some((n, body[j + |RATING_MARKER|..]))
        case None => None
    else None
  }

  /** The body of a feedback email determines the rating and the comments it was made from. */
  lemma EmailBodyRoundTrip(rating: int, comments: string)
    ensures ParseEmailBody(EmailBody(rating, comments)) == Some((rating, comments))
  {
    var d := IntToString(rating);
    var body := EmailBody(rating, comments);
    var j := 1 + |d|;
    assert body[j] == ' ';
    assert forall i :: 0 <= i < j ==> body[i] != ' ' by {
      forall i | 0 <= i < j ensures body[i] != ' ' {
        if i > 0 { assert body[i] == d[i - 1]; }
      }
    }
    assert IndexOf(body, ' ') == j;
    assert body[1..j] == d;
    assert body[j..j + |RATING_MARKER|] == RATING_MARKER;
    assert body[j + |RATING_MARKER|..] == comments;
    IntToStringRoundTrip(rating);
  }

  /**
   * The email `sendEmail` builds: fixed subject and sender, the given time, and
   * a body from which the rating and the comments can be read back.
   */
  function FeedbackEmail(rating: int, comments: string, time: string): (e: Email)
    ensures e.subject == EMAIL_SUBJECT && e.from == EMAIL_FROM && e.time == time
  {
    Email(EMAIL_SUBJECT, EMAIL_FROM, time, EmailBody(rating, comments))
  }
}
