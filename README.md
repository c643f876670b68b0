# Claim-and-forward bot, modelled in Dafny

This project models the core of `bot.js`. The bot claims a locked
(claimable) balance on a Stellar-family ledger and forwards it to a
recipient in one transaction. A second "sponsor" account pays the fee and
supplies the sequence number. Four pieces are modelled:

- **Transaction composer** (`Composer`, `composer.dfy`). This is
  `claimAndSend`. It loads the sponsor account and looks the balance up. It
  refuses to build when the balance or its amount is missing. Otherwise it
  hands the builder the fee value `2 × operationCount × baseFee` and appends
  `operationCount` identical (claim, native payment) pairs to a transaction
  builder, all with the source key as operation source. It sets a 30-second
  timeout, signs with the sponsor key and then the source key, and submits.
  The builder and the built transaction are classes updated in place. The
  method `ClaimAndSend` runs the builder loop and is proved equal to the
  specification function `ClaimAndSendSpec`. Lemmas then state what that
  function promises.
- **Retry loop** (`TransferLoop`, `transfer_loop.dfy`). This is
  `startTransferLoop` and its `execute` closure. `Classify` maps each
  result onto `Confirmed | Retry | Fatal`. `StartTransferLoop` keeps the
  attempt counter and runs over a finite trace of ledger replies. It stops
  at the first terminal outcome.
- **Input gates** (`InputGates`, `input_gates.dfy`). These are the
  operation-count check of the prompt and the schedule decision of
  `step2_transferConfig`.
- **Shared vocabulary** (`Ledger`, `ledger.dfy`). Keys, the transfer
  configuration, operations, envelopes, and the ledger's replies and
  requests.

The ledger server is never called. For each attempt, the answers to its four
calls (account load, balance lookup, base fee, submission) are one input
value, `LedgerReplies`. Each request the bot sends is recorded as a
`LedgerCall`, so the model can state the number and order of requests,
including "one account load per attempt".

Facts about the code that the model keeps:

- The builder reads the fee value it is handed as a fee per operation, and
  `build()` multiplies it by the number of operations. A transaction of
  `n` pairs therefore offers `2n × (2n × baseFee) = 4n² × baseFee` in total
  (bot.js:45-65).
- A missing balance raises an error inside `claimAndSend`. That error carries
  no ledger result code, so the loop's catch block retries it
  (bot.js:38-40, 98-110).
- Only the prompt checks the operation count (bot.js:186). `claimAndSend`
  builds for any count, including 0.
- `tx_insufficient_balance` is fatal whichever ledger call raised it, not
  only a rejected submission (bot.js:99-104).
- A response whose hash is the empty string counts as "no hash", as
  JavaScript truthiness makes it (bot.js:87).

## Model

| member | source | states |
|---|---|---|
| `Composer.ClaimPayPairs` | bot.js:51-63 | `n` builder rounds give exactly `2n` operations. Each even position holds a claim of `balanceId` with the source key as source. Each odd position holds a native payment of the amount to the recipient, with the source key as source. No operation depends on the round. |
| `Composer.BuiltEnvelopeIsComposed` | bot.js:45-67 | The submitted transaction has `2 × operationCount` operations, alternating claim and payment. Its total fee is the base fee times the square of the number of operations (the per-operation value times the operation count). Its paying account is the sponsor, and its sequence number is one past the loaded one. Its timeout is 30 seconds. Its signatures are exactly sponsor then source. |
| `Composer.FeeFor` | bot.js:46 | The per-operation fee value handed to the builder is at least twice the base fee whenever one or more pairs are built. |
| `Composer.FeeMatchesOperations` | bot.js:45-65 | The per-operation value `2 × operationCount × baseFee` equals the base fee once per operation built. The built transaction's total fee is `4 × operationCount² × baseFee`. |
| `Composer.ThreePairsExample` | bot.js:45-65 | `operationCount = 3` at base fee 100 gives 6 operations, a per-operation fee value of 600 and a total fee of 3600. |
| `Composer.ClaimAndSendSpec` | bot.js:34-71 | One call sends one to four requests. The first is the sponsor account load, and no later request loads an account. A successful result only comes after a submission, which is then the last request. |
| `Composer.OneLoadPerCall` | bot.js:34-36 | Every call begins with one load of the sponsor account and makes no other account load. |
| `Composer.SubmitsOnlyResolvedBalance` | bot.js:34-71 | A transaction is submitted if and only if the account load, the balance lookup (with an amount) and the fee lookup all succeed. It is then the last request, and the call's result is the submission's result. The transaction satisfies the composer's promises (`ComposedFor`). |
| `Composer.MissingBalanceBuildsNothing` | bot.js:38-40 | A missing balance record, or one without an amount, raises `BalanceNotFound`. Nothing is fetched after the lookup, and nothing is built or submitted. |
| `Composer.ClaimAndSend` | bot.js:34-71 | The step-by-step call (builder loop, timeout, build, two signatures) returns exactly the result and the requests `ClaimAndSendSpec` gives. |
| `Composer.TransactionBuilder.constructor` | bot.js:45-48 | A new builder has the sponsor account, its sequence and the fee value, no operations and no timeout. |
| `Composer.TransactionBuilder.AddOperation` | bot.js:52-62 | Appends one operation at the end and leaves the timeout alone. |
| `Composer.TransactionBuilder.SetTimeout` | bot.js:65 | Sets the timeout and leaves the operations alone. |
| `Composer.TransactionBuilder.Build` | bot.js:65 | A fresh transaction with the builder's operations and timeout, the next sequence number, a total fee of the per-operation value times the operation count, and no signatures. |
| `Composer.Transaction.constructor` | bot.js:65 | A built transaction starts unsigned. |
| `Composer.Transaction.Sign` | bot.js:66-67 | Appends the signer's key after the existing signatures and changes nothing else. |
| `TransferLoop.ErrorCode` | bot.js:99 | A ledger error yields exactly the result code of its response (present or absent). The error the bot raises for a missing balance yields none, so only a ledger error can yield a code. |
| `TransferLoop.Classify` | bot.js:87-110 | Confirmed if and only if the response carries a non-empty hash, and then with that hash. Fatal if and only if the error's result code is `tx_insufficient_balance`. Retry in every other case. |
| `TransferLoop.BadSequenceRetries` | bot.js:99-101 | `tx_bad_seq` is always retried, never fatal. |
| `TransferLoop.FirstTerminal` | bot.js:81-112 | Gives the index of the first terminal outcome (or the trace length). Every earlier outcome is a retry. |
| `TransferLoop.StartTransferLoop` | bot.js:77-115 | The counter starts at 0 and rises by one per execution. The loop stops exactly when a terminal outcome occurs, and then the counter is that outcome's index plus one. Otherwise the counter is the trace length. The requests sent are exactly those of the attempts made, in order. Each retry schedules exactly one further execution after `loopInterval`. |
| `TransferLoop.TerminalEndsRun` | bot.js:87-104 | After retries only, a terminal outcome ends the run: nothing after it is attempted. |
| `TransferLoop.InsufficientBalanceIsFinal` | bot.js:102-104 | A submission rejected with `tx_insufficient_balance`, after retries only, is fatal and is the last attempt. |
| `TransferLoop.RetryContinues` | bot.js:93-110 | A retried attempt is followed by exactly one further attempt. |
| `TransferLoop.OneLoadPerAttempt` | bot.js:79-85 | Over any number of attempts, the sponsor account is loaded once per attempt, so no sequence number is cached across attempts. |
| `TransferLoop.TwoUnclassifiedErrorsThenSuccess` | bot.js:98-110 | Two rejections with an unclassified code are both retried. A confirmation in the third reply ends the run at attempt 3. |
| `InputGates.LeadingDigit` | bot.js:186 | The result is the first digit of a positive number's decimal expansion: for some shift `k` of the decimal point, `x × 10^-k` lies in [1, 10) and the result is its integer part. It lies in 1..9 and is the integer part itself for a number in [1, 10). |
| `InputGates.ParseIntOf` | bot.js:186 | `parseInt` of a count reads the text JavaScript prints for it. A number printed in plain decimal (magnitude from 10^-6 up to, but not including, 10^21, or zero) gives its integer part, truncated toward zero. A number printed in exponent notation gives its mantissa's first digit (the first digit of its decimal expansion, as `LeadingDigit` states it), 1..9, with the number's sign. |
| `InputGates.AcceptsOperationCount` | bot.js:186 | The prompt's check as written (`parseInt` of the count lies in 1..50) accepts a count if and only if it lies from 1 up to, but not including, 51, or is at least 10^21, or is positive and below 10^-6. |
| `InputGates.WholeCountAccepted` | bot.js:186 | A whole-number count is accepted if and only if it lies in 1..50 or is at least 10^21. |
| `InputGates.LoopRounds` | bot.js:51 | `for (i = 0; i < count; i++)` runs the least whole number of rounds not below `count`. |
| `InputGates.HugeCountPassesCheck` | bot.js:183-187 | As written, the count 10^21 (printed `1e+21`) gives `parseInt` 1 and is accepted; the builder loop would then append 2 × 10^21 operations. |
| `InputGates.FractionalCountOverflowsTransaction` | bot.js:183-187 | As written, the count 50.5 is accepted, and the builder then appends 102 operations. |
| `InputGates.ValidCountFitsTransaction` | bot.js:186 | A whole count in 1..50 passes the check as written, and the builder runs exactly that many rounds, at most 100 operations. |
| `InputGates.ConfigFrom` | bot.js:203-210 | A configuration exists if and only if the count is a whole number in 1..50. Its pair count equals the entered count, the retry interval is 1000 ms, and the keys, recipient and balance are the ones given. |
| `InputGates.StartPlan` | bot.js:212-230 | No schedule, or a target at or before now, starts at once. A later target asks the timer to defer the start by the positive difference. |
| `InputGates.TimerDelay` | bot.js:223-226 | A Node.js timer honours a delay of 1 to 2147483647 ms. A longer delay fires after 1 ms. |
| `InputGates.FarScheduleStartsAtOnce` | bot.js:215-226 | As written, a schedule 2147483648 ms (about 24.8 days) ahead is announced as deferred, but its timer fires after 1 ms. |
| `InputGates.TimerPeriods` | bot.js:223-226 | The corrected wait splits the delay into timer periods of 1 to 2147483647 ms each, which add up to the delay. |
| `InputGates.TimerPeriodsFireOnTime` | bot.js:223-226 | The timer honours every period of the corrected wait as is, so the start is deferred by exactly the scheduled delay. |
| `InputGates.PastScheduleStartsNow` | bot.js:217-219 | A past schedule behaves exactly like no schedule. |

## Findings

| source | as written | input that shows it | evidently intended | confidence | as-written member | corrected member |
|---|---|---|---|---|---|---|
| bot.js:183-187, 51 | The count prompt checks `parseInt(val)` but stores `Number(val)`. The builder loop `i < operationCount` then runs the count rounded up. | `50.5`: `parseInt` gives 50, so the prompt accepts it. The loop runs 51 rounds, giving 102 operations, beyond a transaction's 100-operation limit. (`2.5` likewise builds 3 pairs.) | Only whole counts 1..50 are accepted, so at most 50 pairs (100 operations) are built. | not executed; medium (depends only on `parseInt` and `Number` semantics) | `InputGates.FractionalCountOverflowsTransaction` | `InputGates.ConfigFrom` |
| bot.js:183-187, 51 | `parseInt` reads the text JavaScript prints for the count, and a count of 10^21 or more is printed in exponent notation. | `1e21`: printed `1e+21`, so `parseInt` gives 1 and the prompt accepts it. The builder loop `i < 1e21` then keeps appending operations and never reaches the submission. | Only whole counts 1..50 are accepted. | not executed; high (JavaScript's number-to-text rule is fixed by ECMAScript) | `InputGates.HugeCountPassesCheck` | `InputGates.ConfigFrom` |
| bot.js:215-226 | The scheduled delay goes to a single `setTimeout`. | A schedule 2147483648 ms (about 24.8 days) or more ahead: Node.js replaces the delay by 1 ms, so the transfer starts almost at once. | The start is deferred by the full delay, for example by re-arming the timer in periods that fit it. | not executed; high (Node.js documents the 2147483647 ms limit) | `InputGates.FarScheduleStartsAtOnce` | `InputGates.TimerPeriods` |

The rest of the model takes the pair count as a whole number, the one
`ConfigFrom` produces. The schedule decision `StartPlan` gives the delay
that bot.js requests; `TimerPeriods` gives the corrected way to wait for it.

## Left out

- `balance.js` as a whole, plus `getKeypair`, `findClaimableBalances`,
  `step1_viewBalances` and `mainMenu`. These are mnemonic-to-key derivation
  by foreign libraries, network queries, prompts and console output.
- Ledger I/O (`loadAccount`, the balance lookup, `fetchBaseFee`,
  `submitTransaction`). Their answers are inputs (`LedgerReplies`), and the
  calls are recorded as `LedgerCall` values.
- Signing and key validation (`sign`, `StrKey.isValidEd25519PublicKey`) are
  foreign cryptography. A signature is modelled as the signer's public key.
  The recipient-address check of the prompt is not modelled.
- The network passphrase is not modelled. The sequence number of a built
  transaction is taken as one past the loaded one, as the SDK's builder
  assigns it.
- The builder's fee rule (total = per-operation value × number of
  operations) is the transaction SDK's own rule, taken as given.
- `InputGates.StartPlan`: gives the delay bot.js asks the timer for. Node.js
  runs a delay above 2147483647 ms after 1 ms; `TimerDelay` models this
  clamp, and the Findings table records its effect.
- Timers: `setTimeout`, real waiting, and the difference between an awaited
  and a deferred start. A retry is a loop step that records its delay. A
  deferred start is a `StartAfter(delay)` value.
- Date parsing. The schedule is given as a target time in milliseconds. A
  schedule text that does not parse is not modelled.
- `InputGates.ParseIntOf` works on exact reals, not on double-precision
  numbers: a count text that rounds when read as a double, and a count
  that is not a number at all (`NaN`), are not modelled.
- `InputGates.AcceptsOperationCount`: exact on reals, with the same limits
  as `ParseIntOf`. For an accepted count of 10^21 or more, the model gives
  the builder loop's round count; the memory exhaustion that ends such a
  run in practice is not modelled.
- `TransferLoop.StartTransferLoop` runs over a finite trace of replies. The
  source's loop runs without bound until a terminal outcome; here a trace
  that ends before a terminal outcome ends the run with no stop outcome.
- The balance amount is an opaque string, passed through unchanged.
