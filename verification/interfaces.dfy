/** The collaborators the components talk to, reduced to values: the wallet
    (signer and active address), the notification queue (notices of four kinds),
    the ledger client's asset-creation request and the way its call resolves. */
module Interfaces {

  datatype Option<+T> = None | Some(value: T)

  /** JavaScript truthiness of an optional string: absent and "" are both falsy. */
  predicate Truthy(s: Option<string>) {
    s.Some? && s.value != ""
  }

  /** The signing capability the wallet hands out, identified by an opaque handle. */
  datatype Signer = Signer(handle: nat)

  /** What the wallet hook reports: an optional signer and an optional active address. */
  datatype Wallet = Wallet(transactionSigner: Option<Signer>, activeAddress: Option<string>)

  /** Both `transactionSigner` and `activeAddress` truthy. */
  predicate Connected(w: Wallet) {
    w.transactionSigner.Some? && Truthy(w.activeAddress)
  }

  /** The four snackbar variants the components use. */
  datatype Variant = Info | Warning | Success | Error

  datatype Notice = Notice(variant: Variant, message: string)

  /** A 32-byte digest; the SHA-512/256 function (FIPS 180-4, section 6.7) that
      produces it is passed in as an uninterpreted function. */
  type Digest = b: seq<bv8> | |b| == 32 witness seq(32, _ => 0 as bv8)

  /** The arguments of one asset-creation call on the ledger client. */
  datatype AssetCreateParams = AssetCreateParams(
    sender: string,
    signer: Signer,
    total: nat,
    decimals: nat,
    assetName: string,
    unitName: string,
    url: Option<string>,
    metadataHash: Option<Digest>,
    defaultFrozen: bool)

  /** How the awaited asset-creation call ends: it resolves with the (possibly
      missing) list of transaction ids, or it rejects. */
  datatype CallOutcome = Resolved(txIds: Option<seq<string>>) | Rejected

  /** `txIds?.[0]`: the first transaction id, when there is one. */
  function FirstTxId(txIds: Option<seq<string>>): (id: Option<string>)
    ensures id.Some? <==> txIds.Some? && |txIds.value| > 0
    ensures id.Some? ==> id.value == txIds.value[0]
  {
    match txIds
    case Some(ids) => if |ids| > 0 then Some(ids[0]) else None
    case None => None
  }

  /** The success notice text: `base` alone, or `base` followed by the
      transaction id when that id is truthy. */
  function SubmittedMessage(base: string, txId: Option<string>): (m: string)
    ensures base <= m
    ensures Truthy(txId) <==> |m| > |base|
    ensures Truthy(txId) ==> |txId.value| <= |m| && m[|m| - |txId.value|..] == txId.value
  {
    if Truthy(txId) then base + " TxID: " + txId.value else base
  }

  /** The notice that reports how the ledger call ended: a success notice
      carrying `submitted` (and the first transaction id when it is truthy),
      or an error notice carrying `failed`. */
  function OutcomeNotice(outcome: CallOutcome, submitted: string, failed: string): (n: Notice)
    ensures n.variant == (if outcome.Resolved? then Success else Error)
    ensures outcome.Resolved? ==>
              submitted <= n.message
              && (Truthy(FirstTxId(outcome.txIds)) <==> |n.message| > |submitted|)
    ensures outcome.Rejected? ==> n.message == failed
    ensures outcome.Resolved? && Truthy(FirstTxId(outcome.txIds)) ==>
              var id := FirstTxId(outcome.txIds).value;
              |id| <= |n.message| && n.message[|n.message| - |id|..] == id
  {
    match outcome
    case Resolved(txIds) => Notice(Success, SubmittedMessage(submitted, FirstTxId(txIds)))
    case Rejected => Notice(Error, failed)
  }

  /** What one submit handler does, seen from outside: the notices it
      enqueues in order, the request it hands to the ledger client (if any),
      and whether the call succeeded (which closes the modal). */
  datatype Submission = Submission(notices: seq<Notice>, request: Option<AssetCreateParams>, succeeded: bool)

  /** The request as the (empty or one-element) list of calls made. */
  function Calls(s: Submission): (calls: seq<AssetCreateParams>)
    ensures |calls| <= 1
    ensures s.request.None? <==> calls == []
    ensures s.request.Some? ==> calls == [s.request.value]
  {
    match s.request
    case Some(r) => [r]
    case None => []
  }

  const ConnectWalletFirst: string := "Please connect your wallet first."
}
