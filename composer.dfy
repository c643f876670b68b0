/** The transaction composer of `claimAndSend`: it loads the sponsor
    account, looks the balance up, refuses to go on when the balance or its
    amount is missing, builds one transaction holding `operationCount`
    identical (claim, payment) pairs, signs it with the sponsor key and then
    the source key, and submits it. */
module Composer {
  import opened Ledger

  /** The timeout `setTimeout` gives every transaction, in seconds. */
  const TimeoutSeconds: nat := 30

  /** The fee value handed to the transaction builder, which the builder
      reads as a fee per operation. */
  function FeeFor(operationCount: int, baseFee: int): (fee: int)
    ensures operationCount >= 1 && baseFee >= 0 ==> fee >= 2 * baseFee
  {
    (2 * operationCount) * baseFee
  }

  function ClaimOp(config: TransferConfig): Operation
  {
    ClaimClaimableBalance(config.balanceId, config.source.publicKey)
  }

  function PaymentOp(config: TransferConfig, amount: string): Operation
  {
    Payment(config.recipient, Native, amount, config.source.publicKey)
  }

  /** The operations appended by the first `n` rounds of the builder loop:
      claims at even positions, payments at odd positions, and nothing
      depends on the round. */
  function ClaimPayPairs(config: TransferConfig, amount: string, n: nat): (ops: seq<Operation>)
    ensures |ops| == 2 * n
    ensures forall k | 0 <= k < |ops| ::
      ops[k] == if k % 2 == 0 then ClaimOp(config) else PaymentOp(config, amount)
  {
    if n == 0 then []
    else ClaimPayPairs(config, amount, n - 1) + [ClaimOp(config), PaymentOp(config, amount)]
  }

  /** The signed transaction `claimAndSend` submits, given the loaded
      sponsor sequence number, the balance amount and the base fee. */
  function BuiltEnvelope(config: TransferConfig, sequence: int, amount: string, baseFee: int): Envelope
  {
    Envelope(config.sponsor.publicKey, sequence + 1,
             FeeFor(config.operationCount, baseFee) * (2 * config.operationCount),
             ClaimPayPairs(config, amount, config.operationCount), TimeoutSeconds,
             [config.sponsor.publicKey, config.source.publicKey])
  }

  /** What the composer promises of a submitted transaction. */
  predicate ComposedFor(env: Envelope, config: TransferConfig, sequence: int, amount: string, baseFee: int)
  {
    && |env.operations| == 2 * config.operationCount
    && (forall k | 0 <= k < |env.operations| ::
          if k % 2 == 0 then env.operations[k] == ClaimClaimableBalance(config.balanceId, config.source.publicKey)
          else env.operations[k] == Payment(config.recipient, Native, amount, config.source.publicKey))
    && env.fee == |env.operations| * (|env.operations| * baseFee)
    && env.sourceAccount == config.sponsor.publicKey
    && env.sequence == sequence + 1
    && env.signatures == [config.sponsor.publicKey, config.source.publicKey]
    && env.timeoutSeconds == 30
  }

  /** The result of one `claimAndSend` call and the ledger requests it made. */
  datatype Exchange = Exchange(result: Result<Option<string>>, requests: seq<LedgerCall>)

  predicate HasAmount(record: Option<BalanceRecord>)
  {
    record.Some? && record.value.amount.Some? && record.value.amount.value != ""
  }

  /** One call of `claimAndSend` against the given ledger replies. */
  function ClaimAndSendSpec(config: TransferConfig, replies: LedgerReplies): (ex: Exchange)
    ensures 1 <= |ex.requests| <= 4 && ex.requests[0] == LoadAccount(config.sponsor.publicKey)
    ensures forall k | 1 <= k < |ex.requests| :: !ex.requests[k].LoadAccount?
    ensures ex.result.Ok? ==> ex.requests[|ex.requests| - 1].SubmitTransaction?
  {
    var load := [LoadAccount(config.sponsor.publicKey)];
    match replies.sponsorSequence
    case Err(f) => Exchange(Err(f), load)
    case Ok(sequence) =>
      var lookup := load + [GetClaimableBalance(config.balanceId)];
      match replies.balance
      case Err(f) => Exchange(Err(f), lookup)
      case Ok(record) =>
        if !HasAmount(record) then Exchange(Err(BalanceNotFound(config.balanceId)), lookup)
        else
          var feeCall := lookup + [FetchBaseFee];
          match replies.baseFee
          case Err(f) => Exchange(Err(f), feeCall)
          case Ok(baseFee) =>
            var env := BuiltEnvelope(config, sequence, record.value.amount.value, baseFee);
            Exchange(replies.submission, feeCall + [SubmitTransaction(env)])
  }

  /** The per-operation fee handed to the builder is the base fee once per
      operation of the transaction, so the transaction's total fee is the
      base fee times the square of the number of operations. */
  lemma FeeMatchesOperations(config: TransferConfig, sequence: int, amount: string, baseFee: int)
    ensures var n := config.operationCount;
      && FeeFor(n, baseFee) == |ClaimPayPairs(config, amount, n)| * baseFee
      && BuiltEnvelope(config, sequence, amount, baseFee).fee == 4 * (n * n) * baseFee
  {
  }

  /** Three pairs at a base fee of 100: six operations, a per-operation fee
      of 600, and a total fee of 3600. */
  lemma ThreePairsExample(config: TransferConfig, sequence: int, amount: string)
    requires config.operationCount == 3
    ensures FeeFor(config.operationCount, 100) == 600
    ensures |ClaimPayPairs(config, amount, config.operationCount)| == 6
    ensures BuiltEnvelope(config, sequence, amount, 100).fee == 3600
  {
  }

  lemma {:induction false} BuiltEnvelopeIsComposed(config: TransferConfig, sequence: int, amount: string, baseFee: int)
    ensures ComposedFor(BuiltEnvelope(config, sequence, amount, baseFee), config, sequence, amount, baseFee)
  {
    FeeMatchesOperations(config, sequence, amount, baseFee);
  }

  /** Every attempt starts by loading the sponsor account, exactly once. */
  lemma {:induction false} OneLoadPerCall(config: TransferConfig, replies: LedgerReplies)
    ensures var requests := ClaimAndSendSpec(config, replies).requests;
      |requests| > 0 && requests[0] == LoadAccount(config.sponsor.publicKey) && Loads(requests) == 1
  {
    var requests := ClaimAndSendSpec(config, replies).requests;
    assert requests == [requests[0]] + requests[1..];
    LoadsAppend([requests[0]], requests[1..]);
    NoLoads(requests[1..]);
  }

  /** A transaction is submitted exactly when the account loads, the
      balance resolves with an amount and the base fee is known; it is then
      the last request, and it is the composed transaction. */
  lemma SubmitsOnlyResolvedBalance(config: TransferConfig, replies: LedgerReplies)
    ensures var ex := ClaimAndSendSpec(config, replies);
      (exists env :: SubmitTransaction(env) in ex.requests)
      <==> replies.sponsorSequence.Ok? && replies.balance.Ok? && HasAmount(replies.balance.value)
           && replies.baseFee.Ok?
    ensures var ex := ClaimAndSendSpec(config, replies);
      forall env | SubmitTransaction(env) in ex.requests ::
        && ex.requests[|ex.requests| - 1] == SubmitTransaction(env)
        && ex.result == replies.submission
        && ComposedFor(env, config, replies.sponsorSequence.value,
                       replies.balance.value.value.amount.value, replies.baseFee.value)
  {
    var ex := ClaimAndSendSpec(config, replies);
    if replies.sponsorSequence.Ok? && replies.balance.Ok? && HasAmount(replies.balance.value)
       && replies.baseFee.Ok? {
      var env := BuiltEnvelope(config, replies.sponsorSequence.value,
                               replies.balance.value.value.amount.value, replies.baseFee.value);
      assert ex.requests[3] == SubmitTransaction(env);
      BuiltEnvelopeIsComposed(config, replies.sponsorSequence.value,
                              replies.balance.value.value.amount.value, replies.baseFee.value);
    }
  }

  /** A missing balance record, or one without an amount, raises
      `BalanceNotFound`; no fee is fetched and nothing is built or submitted. */
  lemma MissingBalanceBuildsNothing(config: TransferConfig, replies: LedgerReplies)
    requires replies.sponsorSequence.Ok? && replies.balance.Ok?
    requires !HasAmount(replies.balance.value)
    ensures ClaimAndSendSpec(config, replies)
         == Exchange(Err(BalanceNotFound(config.balanceId)),
                     [LoadAccount(config.sponsor.publicKey), GetClaimableBalance(config.balanceId)])
  {
  }

  /** A transaction under construction. */
  class TransactionBuilder {
    const sourceAccount: string
    const sequence: int
    const fee: int            // per operation
    var operations: seq<Operation>
    var timeout: Option<nat>

    constructor (accountId: string, sequence: int, fee: int)
      ensures this.sourceAccount == accountId && this.sequence == sequence && this.fee == fee
      ensures operations == [] && timeout == None
    {
      this.sourceAccount := accountId;
      this.sequence := sequence;
      this.fee := fee;
      operations := [];
      timeout := None;
    }

    method AddOperation(op: Operation)
      modifies this
      ensures operations == old(operations) + [op] && timeout == old(timeout)
    {
      operations := operations + [op];
    }

    method SetTimeout(seconds: nat)
      modifies this
      ensures timeout == Some(seconds) && operations == old(operations)
    {
      timeout := Some(seconds);
    }

    /** The built transaction takes the next sequence number of the
        loaded account, offers the per-operation fee once per operation,
        and starts without signatures. */
    method Build() returns (tx: Transaction)
      requires timeout.Some?
      ensures fresh(tx)
      ensures tx.Current()
           == Envelope(sourceAccount, sequence + 1, fee * |operations|, operations, timeout.value, [])
    {
      tx := new Transaction(Envelope(sourceAccount, sequence + 1, fee * |operations|, operations,
                                     timeout.value, []));
    }
  }

  /** A built transaction, which signing extends. */
  class Transaction {
    const unsigned: Envelope
    var signatures: seq<string>

    constructor (unsigned: Envelope)
      requires unsigned.signatures == []
      ensures Current() == unsigned
    {
      this.unsigned := unsigned;
      signatures := [];
    }

    function Current(): Envelope
      reads this
    {
      unsigned.(signatures := signatures)
    }

    method Sign(key: Keypair)
      modifies this
      ensures Current() == old(Current()).(signatures := old(Current()).signatures + [key.publicKey])
    {
      signatures := signatures + [key.publicKey];
    }
  }

  /** `claimAndSend`, step by step, against the ledger replies of one
      attempt: it returns the submission's result or the failure that
      stopped it, and the requests it sent. */
  method ClaimAndSend(config: TransferConfig, replies: LedgerReplies)
    returns (result: Result<Option<string>>, requests: seq<LedgerCall>)
    ensures Exchange(result, requests) == ClaimAndSendSpec(config, replies)
  {
    requests := [LoadAccount(config.sponsor.publicKey)];
    if replies.sponsorSequence.Err? {
      return Err(replies.sponsorSequence.failure), requests;
    }
    var sequence := replies.sponsorSequence.value;

    requests := requests + [GetClaimableBalance(config.balanceId)];
    if replies.balance.Err? {
      return Err(replies.balance.failure), requests;
    }
    var record := replies.balance.value;
    if !HasAmount(record) {
      return Err(BalanceNotFound(config.balanceId)), requests;
    }
    var amount := record.value.amount.value;

    requests := requests + [FetchBaseFee];
    if replies.baseFee.Err? {
      return Err(replies.baseFee.failure), requests;
    }
    var baseFee := replies.baseFee.value;

    var builder := new TransactionBuilder(config.sponsor.publicKey, sequence,
                                          FeeFor(config.operationCount, baseFee));
    var i := 0;
    while i < config.operationCount
      invariant 0 <= i <= config.operationCount
      invariant builder.operations == ClaimPayPairs(config, amount, i)
      invariant builder.timeout == None
    {
      builder.AddOperation(ClaimOp(config));
      builder.AddOperation(PaymentOp(config, amount));
      i := i + 1;
    }
    builder.SetTimeout(TimeoutSeconds);
    var tx := builder.Build();
    tx.Sign(config.sponsor);
    tx.Sign(config.source);
    assert tx.Current() == BuiltEnvelope(config, sequence, amount, baseFee);

    requests := requests + [SubmitTransaction(tx.Current())];
    result := replies.submission;
  }
}
