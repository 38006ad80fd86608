/** The receipt polling loop: capped exponential backoff truncated at a deadline.
    Times are in nanoseconds. */
module Receipts {
  import opened Types

  const MILLISECOND: nat := 1_000_000
  const FIRST_BACKOFF: nat := 200 * MILLISECOND
  const MAX_BACKOFF: nat := 2_000 * MILLISECOND
  const RECEIPT_TIMEOUT: nat := 30_000 * MILLISECOND

  datatype ReceiptInfo = ReceiptInfo(txHash: TxHash, blockNumber: U64, success: bool)

  /** What the world does around the `k`-th poll: how the node answers, how long the query
      takes, and by how much the following sleep overshoots its request. */
  datatype Environment = Environment(
    start: nat,
    answer: nat -> Answer<Option<ReceiptInfo>>,
    queryTime: nat -> nat,
    overshoot: nat -> nat)

  /** The untruncated delay after poll `k`, in closed form: it doubles three times and then
      stays at the cap. */
  function Backoff(k: nat): (d: nat)
    ensures FIRST_BACKOFF <= d <= MAX_BACKOFF
  {
    if k == 0 then FIRST_BACKOFF
    else if k == 1 then 2 * FIRST_BACKOFF
    else if k == 2 then 4 * FIRST_BACKOFF
    else if k == 3 then 8 * FIRST_BACKOFF
    else MAX_BACKOFF
  }

  lemma BackoffNext(k: nat)
    ensures Backoff(k + 1) == Min(2 * Backoff(k), MAX_BACKOFF)
  {
  }

  function BackoffSum(n: nat): nat {
    if n == 0 then 0 else BackoffSum(n - 1) + Backoff(n - 1)
  }

  /** A sleep of `length` requested at time `at`. */
  datatype Nap = Nap(at: nat, length: nat)

  function Slept(naps: seq<Nap>): nat {
    if naps == [] then 0 else Slept(naps[..|naps| - 1]) + naps[|naps| - 1].length
  }

  /** The nap after poll `k` is positive, stays within the deadline, and is the full backoff
      unless it was cut to end exactly at the deadline. */
  ghost predicate WellTimed(start: nat, timeout: nat, k: nat, nap: Nap) {
    && start <= nap.at < start + timeout
    && 0 < nap.length <= Backoff(k)
    && nap.at + nap.length <= start + timeout
    && (nap.length == Backoff(k) || nap.at + nap.length == start + timeout)
  }

  /** All naps are well timed, follow one another, and only the last one may be cut. */
  ghost predicate Paced(start: nat, timeout: nat, naps: seq<Nap>) {
    naps != [] ==>
      var n := |naps| - 1;
      && Paced(start, timeout, naps[..n])
      && WellTimed(start, timeout, n, naps[n])
      && (n > 0 ==>
            naps[n - 1].length == Backoff(n - 1) && naps[n - 1].at + naps[n - 1].length <= naps[n].at)
  }

  lemma StartPaced(start: nat, timeout: nat)
    ensures Paced(start, timeout, []) && Slept([]) == 0 && Backoff(0) == FIRST_BACKOFF
  {
  }

  /** One more nap keeps the pace: reaching its start before the deadline means that the
      previous nap was not cut. */
  lemma PacedExtend(start: nat, timeout: nat, naps: seq<Nap>, now: nat)
    requires Paced(start, timeout, naps) && start <= now < start + timeout
    requires naps != [] ==> naps[|naps| - 1].at + naps[|naps| - 1].length <= now
    ensures var nap := Nap(now, Min(Backoff(|naps|), start + timeout - now));
            && Paced(start, timeout, naps + [nap])
            && Slept(naps + [nap]) == Slept(naps) + nap.length
  {
    var nap := Nap(now, Min(Backoff(|naps|), start + timeout - now));
    assert (naps + [nap])[..|naps|] == naps;
  }

  /** What pacing says about each nap of a run. */
  lemma {:induction false} PacedAt(start: nat, timeout: nat, naps: seq<Nap>, k: nat)
    requires Paced(start, timeout, naps) && k < |naps|
    ensures WellTimed(start, timeout, k, naps[k])
    ensures k < |naps| - 1 ==>
              naps[k].length == Backoff(k) && naps[k].at + naps[k].length <= naps[k + 1].at
  {
    var n := |naps| - 1;
    if k < n {
      PacedAt(start, timeout, naps[..n], k);
      assert naps[..n][k] == naps[k];
      if k < n - 1 {
        assert naps[..n][k + 1] == naps[k + 1];
      }
    }
  }

  // --- When the wait ends, from the environment alone -------------------------

  /** The time at which poll `k` is issued, if all earlier ones found nothing. */
  function PollStart(env: Environment, timeout: nat, k: nat): nat
    decreases k, 0
  {
    if k == 0 then env.start
    else
      var now := PollEnd(env, timeout, k - 1);
      now + SleepAt(env, timeout, k - 1, now) + env.overshoot(k - 1)
  }

  function PollEnd(env: Environment, timeout: nat, k: nat): nat
    decreases k, 1
  {
    PollStart(env, timeout, k) + env.queryTime(k)
  }

  /** The backoff, cut at the deadline. */
  function SleepAt(env: Environment, timeout: nat, k: nat, now: nat): nat {
    if now < env.start + timeout then Min(Backoff(k), env.start + timeout - now) else 0
  }

  /** Poll `k` ends the wait: it finds something, or returns past the deadline. */
  predicate Stops(env: Environment, timeout: nat, k: nat) {
    env.answer(k) != Ok(None) || PollEnd(env, timeout, k) >= env.start + timeout
  }

  ghost predicate FirstStop(env: Environment, timeout: nat, n: nat) {
    Stops(env, timeout, n) && forall k: nat :: k < n ==> !Stops(env, timeout, k)
  }

  /** The wait is not over before poll `n`. */
  ghost predicate Unsettled(env: Environment, timeout: nat, n: nat) {
    n == 0 || (Unsettled(env, timeout, n - 1) && !Stops(env, timeout, n - 1))
  }

  lemma {:induction false} UnsettledMeans(env: Environment, timeout: nat, n: nat)
    requires Unsettled(env, timeout, n)
    ensures forall k: nat :: k < n ==> !Stops(env, timeout, k)
  {
    if n > 0 {
      UnsettledMeans(env, timeout, n - 1);
    }
  }

  lemma StopsHere(env: Environment, timeout: nat, n: nat)
    requires Unsettled(env, timeout, n) && Stops(env, timeout, n)
    ensures FirstStop(env, timeout, n) && ReceiptAnswer(env, timeout, 0) == env.answer(n)
    ensures forall k: nat :: k < n ==> env.answer(k) == Ok(None)
  {
    hide Stops;
    UnsettledMeans(env, timeout, n);
    AnswerOfFirstStop(env, timeout, 0, n);
  }

  lemma PollsAdvance(env: Environment, timeout: nat, k: nat)
    requires !Stops(env, timeout, k)
    ensures PollEnd(env, timeout, k) < PollEnd(env, timeout, k + 1)
  {
  }

  /** Where one poll leads, in the terms of the loop. */
  lemma PollTimes(env: Environment, timeout: nat, k: nat)
    ensures PollStart(env, timeout, 0) == env.start
    ensures PollEnd(env, timeout, k) == PollStart(env, timeout, k) + env.queryTime(k)
    ensures var now := PollEnd(env, timeout, k);
            && (Stops(env, timeout, k) <==> env.answer(k) != Ok(None) || now >= env.start + timeout)
            && (!Stops(env, timeout, k) ==>
                  PollStart(env, timeout, k + 1) ==
                  now + Min(Backoff(k), env.start + timeout - now) + env.overshoot(k))
  {
  }

  /** What a wait that has come to poll `k` brings back. */
  function ReceiptAnswer(env: Environment, timeout: nat, k: nat): Answer<Option<ReceiptInfo>>
    decreases env.start + timeout - PollEnd(env, timeout, k)
  {
    if Stops(env, timeout, k) then env.answer(k)
    else
      PollsAdvance(env, timeout, k);
      ReceiptAnswer(env, timeout, k + 1)
  }

  /** It is the answer of the first poll that ends the wait. */
  lemma {:induction false} AnswerOfFirstStop(env: Environment, timeout: nat, k: nat, n: nat)
    requires k <= n && FirstStop(env, timeout, n)
    ensures ReceiptAnswer(env, timeout, k) == env.answer(n)
    ensures forall j: nat :: k <= j < n ==> env.answer(j) == Ok(None)
    decreases n - k
  {
    hide PollEnd;
    if k < n {
      AnswerOfFirstStop(env, timeout, k + 1, n);
    }
  }

  method WaitForReceipt(timeout: nat, env: Environment)
    returns (r: Answer<Option<ReceiptInfo>>, naps: seq<Nap>, end: nat)
    ensures FirstStop(env, timeout, |naps|)
    ensures r == env.answer(|naps|) == ReceiptAnswer(env, timeout, 0)
    ensures end == PollEnd(env, timeout, |naps|)
    ensures forall k: nat :: k < |naps| ==> env.answer(k) == Ok(None)
    ensures r == Ok(None) ==> end >= env.start + timeout
    ensures Paced(env.start, timeout, naps)
    ensures Slept(naps) <= timeout
  {
    hide Backoff, Paced, Slept, ReceiptAnswer, PollStart, PollEnd, Stops, FirstStop;
    StartPaced(env.start, timeout);
    var deadline := env.start + timeout;
    var backoff := FIRST_BACKOFF;
    var clock := env.start;
    PollTimes(env, timeout, 0);
    assert Unsettled(env, timeout, 0);
    naps := [];
    while true
      invariant env.start <= clock == PollStart(env, timeout, |naps|) && backoff == Backoff(|naps|)
      invariant Unsettled(env, timeout, |naps|)
      invariant Paced(env.start, timeout, naps)
      invariant naps != [] ==> naps[|naps| - 1].at + naps[|naps| - 1].length <= clock
      invariant Slept(naps) <= timeout && Slept(naps) <= clock - env.start
      decreases if clock < deadline then deadline - clock else 0
    {
      r := env.answer(|naps|);
      var now := clock + env.queryTime(|naps|);
      end := now;
      PollTimes(env, timeout, |naps|);
      if r.Err? || r.value.Some? {
        StopsHere(env, timeout, |naps|);
        return;
      }
      if now >= deadline {
        StopsHere(env, timeout, |naps|);
        return;
      }
      var sleep := Min(backoff, deadline - now);
      PacedExtend(env.start, timeout, naps, now);
      BackoffNext(|naps|);
      clock := now + sleep + env.overshoot(|naps|);
      naps := naps + [Nap(now, sleep)];
      backoff := Min(2 * backoff, MAX_BACKOFF);
    }
  }

  // --- Bounds on any paced run ---------------------------------------------

  lemma {:induction false} SumOfBackoffs(naps: seq<Nap>)
    requires forall k :: 0 <= k < |naps| ==> naps[k].length == Backoff(k)
    ensures Slept(naps) == BackoffSum(|naps|)
  {
    if naps != [] {
      SumOfBackoffs(naps[..|naps| - 1]);
    }
  }

  lemma {:induction false} BackoffSumLower(n: nat)
    ensures BackoffSum(n) >= n * FIRST_BACKOFF
  {
    if n > 0 {
      BackoffSumLower(n - 1);
    }
  }

  lemma {:induction false} BackoffSumMonotone(m: nat, n: nat)
    requires m <= n
    ensures BackoffSum(m) <= BackoffSum(n)
  {
    if m < n {
      BackoffSumMonotone(m, n - 1);
    }
  }

  /** All naps but the last are full backoffs that fit strictly inside the timeout. */
  lemma FullSleepsFit(start: nat, timeout: nat, naps: seq<Nap>)
    requires Paced(start, timeout, naps) && Slept(naps) <= timeout && naps != []
    ensures BackoffSum(|naps| - 1) < timeout
  {
    var front := naps[..|naps| - 1];
    forall k | 0 <= k < |front| ensures front[k].length == Backoff(k) {
      PacedAt(start, timeout, naps, k);
    }
    SumOfBackoffs(front);
    PacedAt(start, timeout, naps, |naps| - 1);
  }

  /** At most `ceil(T / 200 ms) + 1` polls. */
  lemma PollBound(start: nat, timeout: nat, naps: seq<Nap>)
    requires Paced(start, timeout, naps) && Slept(naps) <= timeout
    ensures |naps| + 1 <= (timeout + FIRST_BACKOFF - 1) / FIRST_BACKOFF + 1
  {
    if naps != [] {
      FullSleepsFit(start, timeout, naps);
      BackoffSumLower(|naps| - 1);
    }
  }

  lemma BackoffSum18()
    ensures BackoffSum(17) == 29_000 * MILLISECOND
    ensures BackoffSum(18) == 31_000 * MILLISECOND
  {
    assert Backoff(2) == 800 * MILLISECOND && BackoffSum(2) == 600 * MILLISECOND;
    assert Backoff(4) == MAX_BACKOFF && BackoffSum(4) == 3_000 * MILLISECOND;
    BackoffPlateau(4, 13);
    BackoffPlateau(4, 14);
  }

  lemma {:induction false} BackoffPlateau(from: nat, n: nat)
    requires Backoff(from) == MAX_BACKOFF
    ensures Backoff(from + n) == MAX_BACKOFF
    ensures BackoffSum(from + n) == BackoffSum(from) + n * MAX_BACKOFF
  {
    if n > 0 {
      BackoffPlateau(from, n - 1);
    }
  }

  /** The configured 30 s timeout allows at most 19 polls. */
  lemma PollBoundDefault(start: nat, naps: seq<Nap>)
    requires Paced(start, RECEIPT_TIMEOUT, naps) && Slept(naps) <= RECEIPT_TIMEOUT
    ensures |naps| + 1 <= 19
  {
    if |naps| > 18 {
      FullSleepsFit(start, RECEIPT_TIMEOUT, naps);
      BackoffSumMonotone(18, |naps| - 1);
      BackoffSum18();
    }
  }
}
