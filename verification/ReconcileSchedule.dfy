/** The reconciliation schedule: ask at once, then after waits that double from ten seconds up
    to thirty minutes, for as long as the next wait still ends within the 24-hour window. */
module ReconcileSchedule {
  import opened Contracts

  /** Durations are in nanoseconds. */
  const SECOND: nat := 1_000_000_000
  const FIRST_WAIT: nat := 10 * SECOND
  const MAX_WAIT: nat := 30 * 60 * SECOND
  const WINDOW: nat := 24 * 60 * 60 * SECOND

  const MAX_ROUNDS: nat := 55

  /** The wait after round `k`. */
  function Wait(k: nat): (wait: nat)
    ensures FIRST_WAIT <= wait <= MAX_WAIT
  {
    if k == 0 then FIRST_WAIT
    else if 2 * Wait(k - 1) <= MAX_WAIT then 2 * Wait(k - 1) else MAX_WAIT
  }

  /** The first `k` waits together. */
  function Waits(k: nat): nat {
    if k == 0 then 0 else Waits(k - 1) + Wait(k - 1)
  }

  lemma WaitNeverDecreases(j: nat, k: nat)
    requires j <= k
    ensures Wait(j) <= Wait(k)
    decreases k - j
  {
    if j < k {
      WaitNeverDecreases(j, k - 1);
    }
  }

  lemma FirstWaits()
    ensures Waits(8) == 2550 * SECOND && Wait(8) == MAX_WAIT
  {
    assert Wait(1) == 20 * SECOND && Wait(2) == 40 * SECOND && Wait(3) == 80 * SECOND;
    assert Wait(4) == 160 * SECOND && Wait(5) == 320 * SECOND && Wait(6) == 640 * SECOND;
    assert Wait(7) == 1280 * SECOND && Wait(8) == MAX_WAIT;
    assert Waits(2) == 30 * SECOND && Waits(4) == 150 * SECOND && Waits(6) == 630 * SECOND;
  }

  /** From the ninth wait on, every wait is the longest one. */
  lemma {:induction false} LaterWaits(k: nat)
    requires k >= 8
    ensures Wait(k) == MAX_WAIT && Waits(k) == 2550 * SECOND + (k - 8) * MAX_WAIT
  {
    FirstWaits();
    if k > 8 {
      LaterWaits(k - 1);
    }
  }

  lemma {:induction false} WaitsGrow(j: nat, k: nat)
    requires j <= k
    ensures Waits(j) <= Waits(k)
    decreases k - j
  {
    if j < k {
      WaitsGrow(j, k - 1);
    }
  }

  /** The window holds 54 waits and not one more. */
  lemma WindowHolds54Waits(k: nat)
    ensures Waits(k) + Wait(k) <= WINDOW <==> k < MAX_ROUNDS - 1
  {
    LaterWaits(53);
    LaterWaits(54);
    if k < 54 {
      WaitsGrow(k, 53);
      WaitNeverDecreases(k, 53);
    } else {
      WaitsGrow(54, k);
      WaitNeverDecreases(54, k);
    }
  }

  /** Round `k` brought no confirmed outcome: an answer of UNKNOWN or an unrecognised status, or
      no answer at all. */
  predicate Inconclusive(answer: Option<DispatchOutcome>) {
    answer.None? || !answer.value.Confirmed()
  }

  function Before(ends: seq<nat>, k: nat): nat
    requires k <= |ends|
  {
    if k == 0 then 0 else ends[k - 1]
  }

  /** The wait after round `k` ends at `ends[k]`: it starts when the round is over, lasts
      `Wait(k)`, and ends within the window. */
  predicate WaitOnTime(delay: nat -> nat, ends: seq<nat>, k: nat)
    requires k < |ends|
  {
    ends[k] == Before(ends, k) + delay(k) + Wait(k) && Waits(k + 1) <= ends[k] <= WINDOW
  }

  predicate OnSchedule(delay: nat -> nat, ends: seq<nat>) {
    forall k: nat :: k < |ends| ==> WaitOnTime(delay, ends, k)
  }

  lemma NextWait(delay: nat -> nat, ends: seq<nat>, end: nat)
    requires OnSchedule(delay, ends) && Waits(|ends|) <= Before(ends, |ends|)
    requires end == Before(ends, |ends|) + delay(|ends|) + Wait(|ends|) && end <= WINDOW
    ensures OnSchedule(delay, ends + [end])
  {
    var ends' := ends + [end];
    forall j: nat | j < |ends'| ensures WaitOnTime(delay, ends', j) {
      assert Before(ends', j) == Before(ends, j);
      if j < |ends| {
        assert WaitOnTime(delay, ends, j);
      }
    }
  }

  /** Every answer arrives at once. */
  ghost predicate Instant(delay: nat -> nat) {
    forall k: nat :: delay(k) == 0
  }

  predicate OpenUntil(answers: nat -> Option<DispatchOutcome>, cancelled: nat -> bool, n: nat) {
    forall k: nat :: k < n ==> Inconclusive(answers(k)) && !cancelled(k)
  }

  lemma StillOpen(answers: nat -> Option<DispatchOutcome>, cancelled: nat -> bool, n: nat)
    requires OpenUntil(answers, cancelled, n) && Inconclusive(answers(n)) && !cancelled(n)
    ensures OpenUntil(answers, cancelled, n + 1)
  {
  }

  /** The checked answer of one round; no answer counts as UNKNOWN. */
  method Judge(answer: Option<DispatchOutcome>) returns (o: DispatchOutcome)
    ensures o.Confirmed() <==> !Inconclusive(answer)
    ensures o.Confirmed() ==> o == answer.value.Checked()
    ensures o.Confirmed() <==> !o.status.Unknown?
  {
    o := if answer.None? then UnknownOutcome("reconciliation activity returned no outcome") else answer.value;
    o := o.Checked();
  }

  /** Asks until an outcome is confirmed, the window passes or a wait is cancelled.  Round `k`
      takes `delay(k)` and brings `answers(k)`; the wait after it is cut short if
      `cancelled(k)`.  `elapsed` is the time since the first round began. */
  method ReconcileDispatch(answers: nat -> Option<DispatchOutcome>, delay: nat -> nat, cancelled: nat -> bool)
    returns (o: DispatchOutcome, rounds: nat, elapsed: nat, ends: seq<nat>)
    // It ends, after at most 55 rounds, with the last round's answer; earlier ones were open.
    ensures 1 <= rounds <= MAX_ROUNDS
    ensures OpenUntil(answers, cancelled, rounds - 1)
    ensures o.Confirmed() <==> !Inconclusive(answers(rounds - 1))
    ensures o.Confirmed() ==> o == answers(rounds - 1).value.Checked()
    ensures o.Confirmed() || o.status.Unknown?
    // Every wait is on schedule and ends within the window.
    ensures |ends| == rounds - 1 && OnSchedule(delay, ends)
    ensures elapsed == Before(ends, rounds - 1) + delay(rounds - 1)
    // An UNKNOWN that was not cancelled means that the window was used up.
    ensures !o.Confirmed() && !cancelled(rounds - 1) ==> elapsed > WINDOW - MAX_WAIT
    // With instant answers, an outcome that stays open takes exactly 55 rounds.
    ensures !o.Confirmed() && !cancelled(rounds - 1) && Instant(delay) ==> rounds == MAX_ROUNDS
  {
    elapsed, rounds, ends := 0, 0, [];
    var wait := FIRST_WAIT;
    while true
      invariant |ends| == rounds < MAX_ROUNDS
      invariant wait == Wait(rounds)
      invariant OnSchedule(delay, ends) && elapsed == Before(ends, rounds)
      invariant Waits(rounds) <= elapsed
      invariant OpenUntil(answers, cancelled, rounds)
      invariant Instant(delay) ==> elapsed == Waits(rounds)
      decreases MAX_ROUNDS - rounds
    {
      var k := rounds;
      elapsed := elapsed + delay(k);
      rounds := k + 1;
      o := Judge(answers(k));
      WindowHolds54Waits(k);
      if !o.status.Unknown? || elapsed + wait > WINDOW {
        return;
      }
      if cancelled(k) {
        return;
      }
      elapsed := elapsed + wait;
      NextWait(delay, ends, elapsed);
      StillOpen(answers, cancelled, k);
      ends := ends + [elapsed];
      wait := if 2 * wait <= MAX_WAIT then 2 * wait else MAX_WAIT;
    }
  }
}
