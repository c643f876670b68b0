/** The retry loop of `startTransferLoop`: every execution counts an
    attempt, calls `claimAndSend` afresh (which reloads the sponsor
    account), classifies what came back, and either stops or schedules one
    further execution after `loopInterval`.

    The real loop runs for as long as the process lives; here it consumes a
    finite trace holding the ledger's replies for each attempt, and ends
    either on a terminal outcome or when the trace runs out. */
module TransferLoop {
  import opened Ledger
  import opened Composer

  const BadSequenceCode := "tx_bad_seq"
  const InsufficientBalanceCode := "tx_insufficient_balance"

  /** What one execution decides. */
  datatype Outcome = Confirmed(hash: string) | Retry | Fatal

  predicate IsTerminal(o: Outcome)
  {
    !o.Retry?
  }

  /** The transaction result code the catch block reads from an error; an
      error the bot raised itself carries none. */
  function ErrorCode(f: Failure): (code: Option<string>)
    ensures f.LedgerError? ==> code == f.resultCode
    ensures code.Some? ==> f.LedgerError?
    ensures f.BalanceNotFound? ==> code.None?
  {
    match f
    case LedgerError(code) => code
    case BalanceNotFound(_) => None
  }

  /** Classification of one `claimAndSend` result: a response with a
      (non-empty) hash confirms, `tx_insufficient_balance` is fatal, and
      everything else (`tx_bad_seq`, any other code, an error without a
      code, a response without a hash) is retried. */
  function Classify(r: Result<Option<string>>): (o: Outcome)
    ensures o.Confirmed? <==> r.Ok? && r.value.Some? && r.value.value != ""
    ensures o.Confirmed? ==> o.hash == r.value.value
    ensures o.Fatal? <==> r.Err? && ErrorCode(r.failure) == Some(InsufficientBalanceCode)
  {
    match r
    case Ok(response) =>
      if response.Some? && response.value != "" then Confirmed(response.value) else Retry
    case Err(f) =>
      var code := ErrorCode(f);
      if code == Some(BadSequenceCode) then Retry
      else if code == Some(InsufficientBalanceCode) then Fatal
      else Retry
  }

  /** A sequence conflict is always retried, never fatal. */
  lemma BadSequenceRetries(f: Failure)
    requires ErrorCode(f) == Some(BadSequenceCode)
    ensures Classify(Err(f)) == Retry
  {
  }

  /** The outcome of each attempt of a trace. */
  function Outcomes(config: TransferConfig, trace: seq<LedgerReplies>): (os: seq<Outcome>)
    ensures |os| == |trace|
  {
    seq(|trace|, i requires 0 <= i < |trace| => Classify(ClaimAndSendSpec(config, trace[i]).result))
  }

  /** Index of the first terminal outcome, or `|os|` when there is none. */
  function FirstTerminal(os: seq<Outcome>): (r: nat)
    ensures r <= |os|
    ensures forall i | 0 <= i < r :: os[i] == Retry
    ensures r < |os| ==> IsTerminal(os[r])
  {
    if os == [] then 0
    else if IsTerminal(os[0]) then 0
    else 1 + FirstTerminal(os[1..])
  }

  /** Number of executions over a trace of outcomes: up to and including
      the first terminal one, or all of them. */
  function AttemptsMade(os: seq<Outcome>): nat
  {
    if FirstTerminal(os) < |os| then FirstTerminal(os) + 1 else |os|
  }

  /** All requests sent over the attempts of `trace`, in order. */
  function RequestsOf(config: TransferConfig, trace: seq<LedgerReplies>): seq<LedgerCall>
  {
    if trace == [] then []
    else RequestsOf(config, trace[..|trace| - 1]) + ClaimAndSendSpec(config, trace[|trace| - 1]).requests
  }

  /** `startTransferLoop` over a finite trace of ledger replies.  It
      returns the attempt counter, every ledger request sent, the delays of
      the further executions it scheduled and, when it stopped, the
      terminal outcome. */
  method StartTransferLoop(config: TransferConfig, trace: seq<LedgerReplies>)
    returns (attempt: nat, requests: seq<LedgerCall>, retryDelays: seq<nat>, stop: Option<Outcome>)
    ensures stop.Some? <==> FirstTerminal(Outcomes(config, trace)) < |trace|
    ensures attempt == if stop.Some? then FirstTerminal(Outcomes(config, trace)) + 1 else |trace|
    ensures stop.Some? ==> stop.value == Outcomes(config, trace)[attempt - 1] && IsTerminal(stop.value)
    ensures requests == RequestsOf(config, trace[..attempt])
    ensures |retryDelays| == (if stop.Some? then attempt - 1 else attempt)
    ensures forall d | d in retryDelays :: d == config.loopInterval
  {
    ghost var os := Outcomes(config, trace);
    attempt, requests, retryDelays, stop := 0, [], [], None;
    while attempt < |trace| && stop.None?
      invariant attempt <= |trace|
      invariant forall i | 0 <= i < (if stop.Some? then attempt - 1 else attempt) :: os[i] == Retry
      invariant stop.Some? ==> 0 < attempt && stop.value == os[attempt - 1] && IsTerminal(stop.value)
      invariant requests == RequestsOf(config, trace[..attempt])
      invariant |retryDelays| == (if stop.Some? then attempt - 1 else attempt)
      invariant forall d | d in retryDelays :: d == config.loopInterval
    {
      attempt := attempt + 1;
      var result, sent := ClaimAndSend(config, trace[attempt - 1]);
      assert trace[..attempt][..attempt - 1] == trace[..attempt - 1];
      requests := requests + sent;
      var outcome := Classify(result);
      if outcome.Retry? {
        retryDelays := retryDelays + [config.loopInterval];
      } else {
        stop := Some(outcome);
      }
    }
  }

  /** Once the outcomes before it were all retries, a terminal outcome
      ends the run: nothing after it is attempted. */
  lemma {:induction false} TerminalEndsRun(pre: seq<Outcome>, o: Outcome, post: seq<Outcome>)
    requires forall i | 0 <= i < |pre| :: pre[i] == Retry
    requires IsTerminal(o)
    ensures AttemptsMade(pre + [o] + post) == |pre| + 1
  {
    if pre != [] {
      assert (pre + [o] + post)[1..] == pre[1..] + [o] + post;
      TerminalEndsRun(pre[1..], o, post);
    }
  }

  /** An attempt whose transaction is rejected with
      `tx_insufficient_balance`, after attempts that were all retried, is
      the last one: no further attempt is made. */
  lemma InsufficientBalanceIsFinal(config: TransferConfig, trace: seq<LedgerReplies>, k: nat)
    requires k < |trace|
    requires forall i | 0 <= i < k :: Outcomes(config, trace)[i] == Retry
    requires trace[k].submission == Err(LedgerError(Some(InsufficientBalanceCode)))
    requires trace[k].sponsorSequence.Ok? && trace[k].balance.Ok? && HasAmount(trace[k].balance.value)
    requires trace[k].baseFee.Ok?
    ensures Outcomes(config, trace)[k] == Fatal
    ensures AttemptsMade(Outcomes(config, trace)) == k + 1
  {
    var os := Outcomes(config, trace);
    assert os == os[..k] + [os[k]] + os[k + 1..];
    TerminalEndsRun(os[..k], os[k], os[k + 1..]);
  }

  /** A retried attempt is followed by exactly one further attempt. */
  lemma RetryContinues(o: Outcome, rest: seq<Outcome>)
    requires o == Retry
    ensures AttemptsMade([o] + rest) == 1 + AttemptsMade(rest)
  {
    assert ([o] + rest)[1..] == rest;
  }

  /** Each attempt loads the sponsor account once, so a fresh sequence
      number is requested for every attempt. */
  lemma {:induction false} OneLoadPerAttempt(config: TransferConfig, trace: seq<LedgerReplies>)
    ensures Loads(RequestsOf(config, trace)) == |trace|
    decreases |trace|
  {
    if trace != [] {
      var last := trace[|trace| - 1];
      OneLoadPerAttempt(config, trace[..|trace| - 1]);
      OneLoadPerCall(config, last);
      LoadsAppend(RequestsOf(config, trace[..|trace| - 1]), ClaimAndSendSpec(config, last).requests);
    }
  }

  /** Two attempts rejected with an unclassified code are both retried, so
      a confirmation in the third reply is reached on attempt 3. */
  lemma TwoUnclassifiedErrorsThenSuccess(config: TransferConfig, trace: seq<LedgerReplies>, code: string, hash: string)
    requires |trace| == 3
    requires code != InsufficientBalanceCode && hash != ""
    requires forall i | 0 <= i < 2 :: trace[i].submission == Err(LedgerError(Some(code)))
    requires trace[2].submission == Ok(Some(hash))
    requires forall i | 0 <= i < 3 ::
      trace[i].sponsorSequence.Ok? && trace[i].balance.Ok? && HasAmount(trace[i].balance.value)
      && trace[i].baseFee.Ok?
    ensures Outcomes(config, trace) == [Retry, Retry, Confirmed(hash)]
    ensures AttemptsMade(Outcomes(config, trace)) == 3
  {
    var os := Outcomes(config, trace);
    assert os[0] == Retry && os[1] == Retry && os[2] == Confirmed(hash);
    assert os == [Retry, Retry] + [Confirmed(hash)] + [];
    TerminalEndsRun([Retry, Retry], Confirmed(hash), []);
  }
}
