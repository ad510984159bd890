/** Ledger transfers as the core sees them. Building, signing and broadcasting a
    Stacks transaction is outside the model: its outcome is a parameter. */
module Transfers {
  import opened Wrappers

  /** A registry wallet: its Stacks address and its derivation index. */
  datatype Wallet = Wallet(address: string, index: nat)

  /** What `AgentPaymentClient.makePayment` does: resolves with a transaction id, or throws. */
  datatype PayOutcome = Paid(txId: string) | Threw(message: string)

  /** One call of `makePayment(recipient, amount)`. */
  datatype PaymentCall = PaymentCall(recipient: string, amount: int)

  /** A transfer handed to `makeSTXTokenTransfer`. */
  datatype Transfer = Transfer(recipient: string, amount: int, memo: string)

  /** What the network side does with a transfer: building it throws, the
      broadcast is rejected (with an error and an optional reason, "" when
      absent), or it is accepted under a transaction id. */
  datatype Broadcast = BuildThrew(message: string) | Rejected(error: string, reason: string) | Accepted(txid: string)

  /** The result object of `sendSTX`: `{success: true, txId}` or `{success: false, error}`. */
  datatype SendResult = Sent(txId: string) | NotSent(error: string)

  /** The registry name of the wallet that collects payments and pays rewards. */
  const TREASURY: string := "Treasury"

  /** The first `n` characters of `s` (`s.slice(0, n)`). */
  function Prefix(s: string, n: nat): (p: string)
    ensures |p| <= n && p <= s
    ensures |s| <= n ==> p == s
  {
    if |s| <= n then s else s[..n]
  }

  /** Longest memo a Stacks transfer carries. */
  const MEMO_LIMIT: nat := 34

  /** `memo.slice(0, 34)`. */
  function TruncateMemo(memo: string): (m: string)
    ensures |m| <= MEMO_LIMIT && m <= memo
    ensures |memo| <= MEMO_LIMIT ==> m == memo
    ensures |memo| > MEMO_LIMIT ==> |m| == MEMO_LIMIT
  {
    if |memo| <= MEMO_LIMIT then memo else memo[..MEMO_LIMIT]
  }

  /** `sendSTX(sender, recipient, amount, memo)`. In dry-run mode (the batch
      simulation's `--dry-run`; never in the debate server) it succeeds at once
      with a `dry_run_` id built from the clock reading `clock36` and hands
      nothing to the network. Otherwise it hands one transfer, memo truncated, to
      the network, and turns every failure into a `NotSent` value: it never throws.
      The result's second half is the transfer handed over, if any. */
  function SendStx(dryRun: bool, clock36: string, recipient: string, amount: int, memo: string, network: Broadcast)
    : (r: (SendResult, Option<Transfer>))
    ensures dryRun ==> r.0 == Sent("dry_run_" + clock36) && r.1 == None
    ensures !dryRun ==> r.1 == Some(Transfer(recipient, amount, TruncateMemo(memo)))
    ensures r.0.Sent? <==> dryRun || network.Accepted?
    ensures !dryRun && network.Accepted? ==> r.0.txId == network.txid
  {
    if dryRun then (Sent("dry_run_" + clock36), None)
    else
      var handed := Some(Transfer(recipient, amount, TruncateMemo(memo)));
      match network
      case BuildThrew(msg) => (NotSent(msg), handed)
      case Rejected(error, reason) => (NotSent(if reason != "" then reason else error), handed)
      case Accepted(txid) => (Sent(txid), handed)
  }
}
