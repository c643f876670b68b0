/** The two gates `step2_transferConfig` applies before the loop starts:
    the operation-count check of the prompt, and the schedule decision.

    The prompt stores the count as `Number(val)` but checks it with
    `parseInt`, which drops the fraction.  The count is therefore modelled
    as a `real` here, and the builder loop `for (i = 0; i < count; i++)`
    by the number of rounds it runs for such a count. */
module InputGates {
  import opened Ledger

  /** A ledger transaction holds at most this many operations. */
  const MaxOperationsPerTransaction := 100

  /** The retry interval `step2_transferConfig` puts in the configuration. */
  const LoopIntervalMs: nat := 1000

  /** The smallest magnitude JavaScript prints in plain decimal (10^-6). */
  const PlainDecimalLow: real := 0.000001

  /** The magnitude from which JavaScript prints in exponent notation (10^21). */
  const PlainDecimalHigh: real := 1000000000000000000000.0

  /** Whether JavaScript prints `x` in plain decimal rather than in exponent
      notation (`5e-7`, `1e+21`). */
  predicate PlainDecimal(x: real)
  {
    x == 0.0 || (PlainDecimalLow <= x < PlainDecimalHigh) || (-PlainDecimalHigh < x <= -PlainDecimalLow)
  }

  function Pow10(k: nat): (p: real)
    ensures p >= 1.0
  {
    if k == 0 then 1.0 else 10.0 * Pow10(k - 1)
  }

  /** `x` times 10^-k: the number with its decimal point moved `k` places
      to the left (to the right when `k` is negative). */
  function Scale(x: real, k: int): real
  {
    if k >= 0 then x / Pow10(k) else x * Pow10(-k)
  }

  /** `d` is the first digit of the decimal expansion of `x`: moving the
      decimal point brings `x` into [1, 10), and `d` is then its integer
      part. */
  ghost predicate FirstDigitOf(x: real, d: int)
  {
    exists k: int :: 1.0 <= Scale(x, k) < 10.0 && d == Scale(x, k).Floor
  }

  /** Multiplying by ten moves the decimal point one place to the right. */
  lemma ScaleTimesTen(x: real, k: int)
    ensures Scale(x * 10.0, k) == Scale(x, k - 1)
  {
  }

  /** The first digit of the decimal expansion of a positive number, which
      is the mantissa's integer part in exponent notation. */
  function LeadingDigit(x: real): (d: int)
    requires x > 0.0
    ensures 1 <= d <= 9
    ensures 1.0 <= x < 10.0 ==> d == x.Floor
    ensures FirstDigitOf(x, d)
    decreases (if x < 1.0 then 1 else 0), (if x < 1.0 then (1.0 / x).Floor else x.Floor)
  {
    if x < 1.0 then
      assert 1.0 / (x * 10.0) == (1.0 / x) / 10.0;
      var d := LeadingDigit(x * 10.0);
      assert FirstDigitOf(x, d) by {
        var k :| 1.0 <= Scale(x * 10.0, k) < 10.0 && d == Scale(x * 10.0, k).Floor;
        ScaleTimesTen(x, k);
      }
      d
    else if x < 10.0 then
      assert Scale(x, 0) == x;
      x.Floor
    else
      var d := LeadingDigit(x / 10.0);
      assert FirstDigitOf(x, d) by {
        var k :| 1.0 <= Scale(x / 10.0, k) < 10.0 && d == Scale(x / 10.0, k).Floor;
        ScaleTimesTen(x / 10.0, k + 1);
        assert x / 10.0 * 10.0 == x;
      }
      d
  }

  /** Every power of ten has leading digit 1. */
  lemma {:induction false} LeadingDigitOfPower(k: nat)
    ensures LeadingDigit(Pow10(k)) == 1
  {
    if k > 0 {
      assert Pow10(k) / 10.0 == Pow10(k - 1);
      LeadingDigitOfPower(k - 1);
    }
  }

  /** `parseInt` of a number: it reads the digits of the text JavaScript
      prints for the number, up to the first character that is not a digit.
      In plain decimal that is the integer part, truncated toward zero; in
      exponent notation it is the mantissa's first digit, with its sign. */
  function ParseIntOf(x: real): (r: int)
    ensures PlainDecimal(x) && 0.0 <= x ==> r as real <= x < r as real + 1.0
    ensures PlainDecimal(x) && x < 0.0 ==> r as real - 1.0 < x <= r as real
    ensures !PlainDecimal(x) && 0.0 < x ==> 1 <= r <= 9 && FirstDigitOf(x, r)
    ensures !PlainDecimal(x) && x < 0.0 ==> -9 <= r <= -1 && FirstDigitOf(-x, -r)
  {
    if PlainDecimal(x) then
      if x >= 0.0 then x.Floor else -((-x).Floor)
    else if x > 0.0 then LeadingDigit(x)
    else -LeadingDigit(-x)
  }

  /** The prompt's check, as written: `parseInt(val) > 0 && parseInt(val) <= 50`.
      Among the numbers printed in plain decimal it lets through exactly
      those from 1 up to, but not including, 51; it also lets through every
      positive number printed in exponent notation, whose `parseInt` is a
      single digit. */
  predicate AcceptsOperationCount(x: real): (ok: bool)
    ensures ok <==> (1.0 <= x < 51.0) || x >= PlainDecimalHigh || 0.0 < x < PlainDecimalLow
  {
    0 < ParseIntOf(x) <= 50
  }

  /** A whole number passes the check exactly when it lies in 1..50 or is
      at least 10^21. */
  lemma WholeCountAccepted(n: int)
    ensures AcceptsOperationCount(n as real) <==> 1 <= n <= 50 || n >= 1000000000000000000000
  {
  }

  /** How many rounds `for (let i = 0; i < count; i++)` runs: the least
      whole number that is not below `count`. */
  function LoopRounds(count: real): (n: nat)
    ensures count <= n as real
    ensures n == 0 || (n - 1) as real < count
  {
    if count <= 0.0 then 0
    else if count.Floor as real == count then count.Floor
    else count.Floor + 1
  }

  /** As written, the count 50.5 passes the check and the builder loop
      then runs 51 rounds, appending 102 operations: more than a
      transaction may hold. */
  lemma FractionalCountOverflowsTransaction()
    ensures AcceptsOperationCount(50.5)
    ensures 2 * LoopRounds(50.5) == 102 > MaxOperationsPerTransaction
  {
    assert (50.5).Floor == 50;
  }

  /** As written, the count 10^21, which JavaScript prints as `1e+21`,
      passes the check (`parseInt` reads 1), and the builder loop would
      then append 2 × 10^21 operations: it never reaches the submission. */
  lemma HugeCountPassesCheck()
    ensures ParseIntOf(PlainDecimalHigh) == 1
    ensures AcceptsOperationCount(PlainDecimalHigh)
    ensures 2 * LoopRounds(PlainDecimalHigh) == 2000000000000000000000 > MaxOperationsPerTransaction
  {
    assert Pow10(7) == 10000000.0;
    assert Pow10(14) == 100000000000000.0;
    assert Pow10(21) == PlainDecimalHigh;
    LeadingDigitOfPower(21);
  }

  /** The corrected check: the count must be a whole number in 1..50. */
  predicate ValidOperationCount(x: real)
  {
    x.Floor as real == x && 1 <= x.Floor <= 50
  }

  /** Every count the corrected check accepts also passes the check as
      written, and the builder then runs exactly that many rounds, which
      fit in one transaction. */
  lemma ValidCountFitsTransaction(x: real)
    requires ValidOperationCount(x)
    ensures AcceptsOperationCount(x)
    ensures LoopRounds(x) as real == x
    ensures 2 * LoopRounds(x) <= MaxOperationsPerTransaction
  {
  }

  /** The configuration built from the prompt's answers, with the
      corrected count check; `None` when the count is refused. */
  function ConfigFrom(source: Keypair, sponsor: Keypair, recipient: string, balanceId: string, count: real)
    : (r: Option<TransferConfig>)
    ensures r.Some? <==> ValidOperationCount(count)
    ensures r.Some? ==> && r.value.operationCount as real == count
                        && 1 <= r.value.operationCount <= 50
                        && 2 * r.value.operationCount <= MaxOperationsPerTransaction
                        && r.value.loopInterval == 1000
                        && r.value.source == source && r.value.sponsor == sponsor
                        && r.value.recipient == recipient && r.value.balanceId == balanceId
  {
    if ValidOperationCount(count) then
      Some(TransferConfig(source, sponsor, recipient, balanceId, count.Floor, LoopIntervalMs))
    else None
  }

  /** The schedule answer: empty, or a target time in milliseconds. */
  datatype Schedule = Unscheduled | ScheduledAt(targetMs: int)

  /** When the transfer loop starts. */
  datatype Start = StartNow | StartAfter(delayMs: nat)

  /** The schedule decision: no schedule, or a target at or before now,
      starts at once; a later target defers the start by the difference. */
  function StartPlan(schedule: Schedule, nowMs: int): (p: Start)
    ensures p.StartNow? <==> schedule.Unscheduled? || schedule.targetMs <= nowMs
    ensures p.StartAfter? ==> p.delayMs > 0 && p.delayMs == schedule.targetMs - nowMs
  {
    match schedule
    case Unscheduled => StartNow
    case ScheduledAt(target) =>
      var delay := target - nowMs;
      if delay <= 0 then StartNow else StartAfter(delay)
  }

  /** A schedule already past behaves exactly like no schedule. */
  lemma PastScheduleStartsNow(targetMs: int, nowMs: int)
    requires targetMs <= nowMs
    ensures StartPlan(ScheduledAt(targetMs), nowMs) == StartPlan(Unscheduled, nowMs)
  {
  }

  /** The longest delay a Node.js timer honours, in milliseconds (2^31 - 1). */
  const MaxTimerDelayMs: nat := 2147483647

  /** The delay after which a Node.js timer armed with `delayMs` fires: a
      delay above the 32-bit limit is replaced by 1 ms. */
  function TimerDelay(delayMs: nat): (fired: nat)
    ensures 1 <= delayMs <= MaxTimerDelayMs ==> fired == delayMs
    ensures delayMs > MaxTimerDelayMs ==> fired == 1
  {
    if 1 <= delayMs <= MaxTimerDelayMs then delayMs else 1
  }

  /** As written, a schedule just over 2^31 - 1 ms (about 24.8 days) ahead
      is announced as deferred, yet its timer fires after 1 ms. */
  lemma FarScheduleStartsAtOnce(nowMs: int)
    ensures StartPlan(ScheduledAt(nowMs + MaxTimerDelayMs + 1), nowMs) == StartAfter(MaxTimerDelayMs + 1)
    ensures TimerDelay(MaxTimerDelayMs + 1) == 1
  {
  }

  /** The corrected wait: the delay split into timer periods that each fit
      the timer, armed one after the other. */
  function TimerPeriods(delayMs: nat): (periods: seq<nat>)
    ensures forall k | 0 <= k < |periods| :: 1 <= periods[k] <= MaxTimerDelayMs
    ensures Sum(periods) == delayMs
    decreases delayMs
  {
    if delayMs == 0 then []
    else if delayMs <= MaxTimerDelayMs then [delayMs]
    else [MaxTimerDelayMs] + TimerPeriods(delayMs - MaxTimerDelayMs)
  }

  function Sum(s: seq<nat>): nat
  {
    if s == [] then 0 else s[0] + Sum(s[1..])
  }

  /** Every period of the corrected wait is honoured by the timer as is,
      so the start is deferred by exactly the scheduled delay. */
  lemma {:induction false} TimerPeriodsFireOnTime(delayMs: nat)
    ensures var periods := TimerPeriods(delayMs);
      forall k | 0 <= k < |periods| :: TimerDelay(periods[k]) == periods[k]
    ensures Sum(TimerPeriods(delayMs)) == delayMs
  {
  }
}
