/** Shared vocabulary of the claim-and-forward bot: keys, the transfer
    configuration, ledger operations, transaction envelopes, and the
    replies and requests exchanged with the ledger server.

    The ledger server itself (account loading, balance lookup, fee
    estimation, submission) is not modelled: each attempt's replies are an
    input value, and every request the bot makes is recorded as a
    `LedgerCall` so that its order and number can be stated. */
module Ledger {

  datatype Option<T> = None | Some(value: T)

  /** What a ledger call or the bot itself can throw.  `LedgerError`
      carries the transaction result code found in the server's error
      response, when there is one. */
  datatype Failure =
    | LedgerError(resultCode: Option<string>)
    | BalanceNotFound(balanceId: string)

  datatype Result<T> = Ok(value: T) | Err(failure: Failure)

  /** A keypair reduced to its public identifier; the private signing
      capability is foreign cryptography, so a signature is modelled by
      the public key of the signer. */
  datatype Keypair = Keypair(publicKey: string)

  /** The configuration `startTransferLoop` receives. */
  datatype TransferConfig = TransferConfig(
    source: Keypair,          // owns the claimable balance
    sponsor: Keypair,         // pays the fee and supplies the sequence number
    recipient: string,
    balanceId: string,
    operationCount: nat,      // number of (claim, payment) pairs
    loopInterval: nat)        // milliseconds between attempts

  /** A claimable-balance record as returned by the lookup; `amount` is an
      opaque decimal string, absent or empty when the record is unusable. */
  datatype BalanceRecord = BalanceRecord(amount: Option<string>)

  datatype Asset = Native

  datatype Operation =
    | ClaimClaimableBalance(balanceId: string, source: string)
    | Payment(destination: string, asset: Asset, amount: string, source: string)

  /** A built transaction: the paying account, the sequence number the
      builder assigns (one past the loaded one), the transaction's total
      fee (the builder's per-operation fee times the number of operations),
      the operations in order, the timeout in seconds and the public keys
      of the signers in signing order. */
  datatype Envelope = Envelope(
    sourceAccount: string,
    sequence: int,
    fee: int,
    operations: seq<Operation>,
    timeoutSeconds: nat,
    signatures: seq<string>)

  /** The ledger's answers for one attempt, one per call `claimAndSend`
      may make.  `submission` is `Ok(Some(hash))` for a response carrying a
      hash, `Ok(None)` for a response without one, `Err` for a rejection. */
  datatype LedgerReplies = LedgerReplies(
    sponsorSequence: Result<int>,
    balance: Result<Option<BalanceRecord>>,
    baseFee: Result<int>,
    submission: Result<Option<string>>)

  /** The requests the bot sends to the ledger server. */
  datatype LedgerCall =
    | LoadAccount(publicKey: string)
    | GetClaimableBalance(balanceId: string)
    | FetchBaseFee
    | SubmitTransaction(envelope: Envelope)

  /** Number of account loads among `calls`. */
  function Loads(calls: seq<LedgerCall>): (n: nat)
    ensures n <= |calls|
  {
    if calls == [] then 0
    else Loads(calls[..|calls| - 1]) + (if calls[|calls| - 1].LoadAccount? then 1 else 0)
  }

  lemma {:induction false} LoadsAppend(a: seq<LedgerCall>, b: seq<LedgerCall>)
    ensures Loads(a + b) == Loads(a) + Loads(b)
    decreases |b|
  {
    if b == [] {
      assert a + b == a;
    } else {
      var b' := b[..|b| - 1];
      assert (a + b)[..|a + b| - 1] == a + b';
      assert (a + b)[|a + b| - 1] == b[|b| - 1];
      LoadsAppend(a, b');
    }
  }

  lemma {:induction false} NoLoads(calls: seq<LedgerCall>)
    requires forall k | 0 <= k < |calls| :: !calls[k].LoadAccount?
    ensures Loads(calls) == 0
    decreases |calls|
  {
    if calls != [] {
      NoLoads(calls[..|calls| - 1]);
    }
  }
}
