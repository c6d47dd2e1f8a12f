/** The agent's report loop (internal/agent/runner.go, internal/agent/report_retry.go): one pending
    sample, exponential backoff, Retry-After (section 10.2.3 of RFC 9110) and a 15 minute lifetime. */
module ReportLoop {
  import opened Basics

  type Instant = int   // nanoseconds on a clock that does not go backwards
  type Duration = int

  const SECOND := 1_000_000_000
  const MAXIMUM_AGENT_SAMPLE_AGE := 900 * SECOND
  const MINIMUM_REPORT_BACKOFF := SECOND
  const MAXIMUM_REPORT_BACKOFF := 60 * SECOND
  const MAXIMUM_BACKOFF_EXPONENT := 6
  const MAXIMUM_SENDS := 35

  function Pow2(n: nat): nat {
    if n == 0 then 1 else 2 * Pow2(n - 1)
  }

  function Backoff(attempt: int): Duration {
    Min(MINIMUM_REPORT_BACKOFF * Pow2(Min(Max(attempt, 0), MAXIMUM_BACKOFF_EXPONENT)), MAXIMUM_REPORT_BACKOFF)
  }

  function Clamp(jitter: real): real {
    if jitter < 0.0 then 0.0 else if jitter > 1.0 then 1.0 else jitter
  }

  function ReportRetryDelay(attempt: int, jitter: real, retryAfter: Duration): (delay: Duration)
    ensures delay >= Backoff(attempt) / 2
    ensures delay >= Min(retryAfter, MAXIMUM_AGENT_SAMPLE_AGE)
    ensures delay <= Max(Backoff(attempt), Min(Max(retryAfter, 0), MAXIMUM_AGENT_SAMPLE_AGE))
  {
    var half := Backoff(attempt) / 2;
    var random := ((half as real) * Clamp(jitter)).Floor;
    JitterRange(half, jitter);
    Max(half + random, Min(Max(retryAfter, 0), MAXIMUM_AGENT_SAMPLE_AGE))
  }

  lemma ShortestRetry(attempt: int)
    ensures ReportRetryDelay(attempt, 0.0, 0) == Backoff(attempt) / 2
  {
    hide Backoff;
    assert Clamp(0.0) == 0.0;
    assert Backoff(attempt) >= 0 by {
      BackoffPositive(attempt);
    }
  }

  lemma BackoffPositive(attempt: int)
    ensures Backoff(attempt) >= 0
  {
  }

  lemma JitterRange(half: nat, jitter: real)
    ensures 0 <= ((half as real) * Clamp(jitter)).Floor <= half
  {
    var h, c := half as real, Clamp(jitter);
    assert 0.0 <= h * c <= h;
  }

  /** A Retry-After header: a number of seconds, or an HTTP date, or neither. */
  function ParseReportRetryAfter(seconds: Option<int>, date: Option<Instant>, now: Instant): (delay: Duration)
    ensures 0 <= delay <= MAXIMUM_AGENT_SAMPLE_AGE
  {
    if seconds.Some? then Min(Max(seconds.value, 0), MAXIMUM_AGENT_SAMPLE_AGE / SECOND) * SECOND
    else if date.Some? then Min(Max(date.value - now, 0), MAXIMUM_AGENT_SAMPLE_AGE)
    else 0
  }

  /** The least time that `retries` failed sends take. */
  function MinElapsed(retries: nat): Duration {
    if retries == 0 then 0 else MinElapsed(retries - 1) + Backoff(retries - 1) / 2
  }

  lemma BackoffValues()
    ensures Backoff(0) == SECOND && Backoff(1) == 2 * SECOND && Backoff(2) == 4 * SECOND
    ensures Backoff(3) == 8 * SECOND && Backoff(4) == 16 * SECOND && Backoff(5) == 32 * SECOND
    ensures forall n :: n >= 6 ==> Backoff(n) == 60 * SECOND
  {
    assert Pow2(2) == 4;
    assert Pow2(4) == 16;
    assert Pow2(6) == 64;
  }

  lemma {:induction false} ElapsedFrom6(retries: nat)
    requires retries >= 6
    ensures MinElapsed(retries) == 31_500_000_000 + (retries - 6) * 30 * SECOND
  {
    BackoffValues();
    if retries == 6 {
      assert MinElapsed(2) == 1_500_000_000;
      assert MinElapsed(4) == 7_500_000_000;
    } else {
      ElapsedFrom6(retries - 1);
    }
  }

  /** Exactly 34 retries fit into the lifetime of a sample. */
  lemma RetriesFit(retries: nat)
    ensures MinElapsed(retries) < MAXIMUM_AGENT_SAMPLE_AGE <==> retries < MAXIMUM_SENDS
  {
    if retries >= 6 {
      ElapsedFrom6(retries);
    } else {
      BackoffValues();
      assert MinElapsed(2) == 1_500_000_000;
      assert MinElapsed(4) == 7_500_000_000;
    }
  }

  // ---- what the server and the clock have seen

  datatype Event =
    | Sent(sample: nat, createdAt: Instant, at: Instant)  // `at` is the reading that let the send go
    | Deferred(until: Instant)                            // a retryable failure with Retry-After

  function Sends(log: seq<Event>, sample: nat): nat {
    if log == [] then 0
    else Sends(log[..|log| - 1], sample) +
         if log[|log| - 1].Sent? && log[|log| - 1].sample == sample then 1 else 0
  }

  lemma SendsAppend(log: seq<Event>, event: Event, sample: nat)
    ensures Sends(log + [event], sample) == Sends(log, sample) + if event.Sent? && event.sample == sample then 1 else 0
  {
    assert (log + [event])[..|log|] == log;
  }

  lemma {:induction false} SendsNone(log: seq<Event>, sample: nat)
    requires forall i :: 0 <= i < |log| && log[i].Sent? ==> log[i].sample != sample
    ensures Sends(log, sample) == 0
  {
    if log != [] {
      SendsNone(log[..|log| - 1], sample);
    }
  }

  /** Sends happen within the lifetime of their sample. */
  ghost predicate InLifetime(log: seq<Event>) {
    forall i :: 0 <= i < |log| && log[i].Sent? ==>
      log[i].createdAt <= log[i].at < log[i].createdAt + MAXIMUM_AGENT_SAMPLE_AGE
  }

  /** Samples are sent one after the other, in the order they were collected. */
  ghost predicate InOrder(log: seq<Event>) {
    forall i, j :: 0 <= i < j < |log| && log[i].Sent? && log[j].Sent? ==> log[i].sample <= log[j].sample
  }

  /** No send comes before an instant the server asked to wait for. */
  ghost predicate Patient(log: seq<Event>) {
    forall i, j :: 0 <= i < j < |log| && log[i].Deferred? && log[j].Sent? ==> log[i].until <= log[j].at
  }

  ghost predicate Bounded(log: seq<Event>) {
    forall sample :: Sends(log, sample) <= MAXIMUM_SENDS
  }

  ghost predicate Promises(log: seq<Event>) {
    InLifetime(log) && InOrder(log) && Patient(log) && Bounded(log)
  }

  /** Reports of one sample never interleave with those of another. */
  lemma NeverInterleaved(log: seq<Event>, i: nat, j: nat, k: nat)
    requires InOrder(log) && i < j < k < |log| && log[i].Sent? && log[j].Sent? && log[k].Sent?
    requires log[i].sample == log[k].sample
    ensures log[j].sample == log[i].sample
  {
  }

  datatype Pending = Pending(sample: nat, createdAt: Instant, retries: nat)

  datatype Reply = Accepted | Failed(retryable: bool, retryAfter: Duration) | OtherError

  /** Time that passes between two steps, and whether the loop is canceled meanwhile. */
  datatype Gap = Gap(passed: Duration, stop: bool)

  /** What comes from outside during one firing of the timer: the gaps between the steps, whether
      collecting fails, the reply of the server and the random part of the delay. */
  datatype Turn = Turn(start: Gap, collect: Gap, collectFails: bool, check: Gap, request: Gap, reply: Reply,
                       handle: Gap, retry: Gap, jitter: real)

  const NOTHING := Gap(0, false)

  /** Nothing takes time, the send fails without an answer and the delay is the shortest. */
  const PROMPT_FAILURE := Turn(NOTHING, NOTHING, false, NOTHING, NOTHING, OtherError, NOTHING, NOTHING, 0.0)

  /** What one turn does with the pending sample: an expired one is dropped unsent, any other is
      sent exactly once, and is then either finished or pending again. */
  ghost predicate Handled(before: seq<Event>, after: seq<Event>, current: Pending, at: Instant,
                          pending: Option<Pending>) {
    if at >= current.createdAt + MAXIMUM_AGENT_SAMPLE_AGE then after == before && pending == None
    else
      var sent := before + [Sent(current.sample, current.createdAt, at)];
      && (after == sent || (|after| == |sent| + 1 && sent <= after && after[|sent|].Deferred?))
      && (pending == None || pending == Some(current) || pending == Some(current.(retries := current.retries + 1)))
  }

  /** The shortest delay before the next try, cut at the end of the sample's lifetime. */
  predicate ShortestDelay(current: Pending, now: Instant, delay: Duration) {
    delay == Min(Backoff(current.retries) / 2, Max(current.createdAt + MAXIMUM_AGENT_SAMPLE_AGE - now, 0))
  }

  /** The sample was sent at once, stays pending with one more retry, and the delay is the shortest. */
  ghost predicate Retried(before: seq<Event>, after: seq<Event>, at: Instant, now: Instant, current: Pending,
                          pending: Option<Pending>, delay: Duration) {
    && after == before + [Sent(current.sample, current.createdAt, at)] && now == at
    && pending == Some(current.(retries := current.retries + 1)) && ShortestDelay(current, now, delay)
  }

  class Runner {
    const interval: Duration
    var now: Instant
    var canceled: bool
    var reportNotBefore: Instant
    var pending: Option<Pending>
    var nextSample: nat
    ghost var due: Instant  // the timer does not fire before this instant
    ghost var log: seq<Event>

    constructor (interval: Duration)
      requires interval > 0
      ensures Valid() && log == [] && now >= due
      ensures now == reportNotBefore == 0 && !canceled && pending.None? && nextSample == 0
    {
      this.interval := interval;
      now, canceled, reportNotBefore, pending, nextSample := 0, false, 0, None, 0;
      due, log := 0, [];
    }

    /** When the timer fires the sample may be sent, or it has expired. */
    ghost predicate Timely(sample: Pending)
      reads this
    {
      || due >= sample.createdAt + MAXIMUM_AGENT_SAMPLE_AGE
      || (due >= reportNotBefore && due >= sample.createdAt + MinElapsed(sample.retries))
    }

    ghost predicate PendingOk(sample: Pending, sends: nat)
      reads this
    {
      && sample.sample < nextSample && sample.createdAt <= now
      && Sends(log, sample.sample) == sends
      && (forall i :: 0 <= i < |log| && log[i].Sent? ==> log[i].sample <= sample.sample)
    }

    ghost predicate LogOk()
      reads this
    {
      && Promises(log)
      && (forall i :: 0 <= i < |log| && log[i].Deferred? ==> log[i].until <= reportNotBefore)
      && (forall i :: 0 <= i < |log| && log[i].Sent? ==> log[i].sample < nextSample)
    }

    ghost predicate Valid()
      reads this
    {
      && LogOk()
      && (pending.Some? && !canceled ==> PendingOk(pending.value, pending.value.retries) && Timely(pending.value))
    }

    /** Time passes; a cancellation is final. */
    method Wait(gap: Gap)
      modifies this`now, this`canceled
      ensures now == old(now) + Max(gap.passed, 0) && canceled == (old(canceled) || gap.stop)
    {
      now, canceled := now + Max(gap.passed, 0), canceled || gap.stop;
    }

    /** The timer fires at or after its delay. */
    method Sleep(delay: Duration, late: Duration)
      requires Valid()
      modifies this`now
      ensures Valid() && now == old(now) + Max(delay, 0) + Max(late, 0)
    {
      hide Sends, Promises;
      now := now + Max(delay, 0) + Max(late, 0);
    }

    /** One firing of the timer, which does not fire early. */
    method AdvanceReport(turn: Turn) returns (delay: Duration)
      requires Valid() && now >= due
      modifies this
      ensures Valid() && due == now + delay
      ensures turn == PROMPT_FAILURE && !old(canceled) && old(pending).Some? &&
              old(now) < old(pending).value.createdAt + MAXIMUM_AGENT_SAMPLE_AGE ==>
                Retried(old(log), log, old(now), now, old(pending).value, pending, delay) && !canceled
      ensures turn == PROMPT_FAILURE && !old(canceled) && old(pending).None? && old(reportNotBefore) <= old(now) ==>
                !canceled &&
                Retried(old(log), log, old(now), now, Pending(old(nextSample), old(now), 0), pending, delay)
    {
      hide Sends, Promises, Retried, Handled;
      Wait(turn.start);
      if canceled {
        delay := interval;
        due := now + delay;
        return;
      }
      if pending.None? {
        var collected;
        collected, delay := Collect(turn);
        if !collected {
          return;
        }
      }
      delay := SendPending(turn);
    }

    /** Collects a new sample, unless the server asked to wait. */
    method Collect(turn: Turn) returns (collected: bool, delay: Duration)
      requires Valid() && pending.None?
      modifies this
      ensures Valid()
      ensures collected ==>
                pending.Some? && now >= due && PendingOk(pending.value, pending.value.retries) && Timely(pending.value)
      ensures collected ==>
                old(reportNotBefore <= now) && pending == Some(Pending(old(nextSample), now, 0)) &&
                nextSample == old(nextSample) + 1
      ensures log == old(log) && reportNotBefore == old(reportNotBefore) &&
              (!collected ==> nextSample == old(nextSample))
      ensures !collected ==> due == now + delay && pending.None?
      ensures turn == PROMPT_FAILURE && old(reportNotBefore) <= old(now) ==>
                collected && now == old(now) && canceled == old(canceled)
    {
      if reportNotBefore - now > 0 {
        delay := reportNotBefore - now;
        due := now + delay;
        return false, delay;
      }
      Wait(turn.collect);
      if turn.collectFails {
        due := now + interval;
        return false, interval;
      }
      SendsNone(log, nextSample);
      pending := Some(Pending(nextSample, now, 0));
      nextSample := nextSample + 1;
      due := now;
      return true, 0;
    }

    /** Sends the pending sample, unless it has expired. The not-before instant is not looked at. */
    method SendPending(turn: Turn) returns (delay: Duration)
      requires LogOk() && pending.Some? && PendingOk(pending.value, pending.value.retries) && Timely(pending.value) &&
               now >= due
      modifies this
      ensures Valid() && due == now + delay && now >= old(now)
      ensures exists at :: old(now) <= at <= now && Handled(old(log), log, old(pending).value, at, pending)
      ensures turn == PROMPT_FAILURE && !old(canceled) &&
              old(now) < old(pending).value.createdAt + MAXIMUM_AGENT_SAMPLE_AGE ==>
                Retried(old(log), log, old(now), now, old(pending).value, pending, delay) && !canceled
    {
      hide Promises, Sends;
      var current := pending.value;
      Wait(turn.check);
      if current.createdAt + MAXIMUM_AGENT_SAMPLE_AGE - now <= 0 {
        pending := None;
        delay := Max(reportNotBefore - now, 0);
        due := now + delay;
        assert Handled(old(log), log, current, now, pending);
        return;
      }
      ghost var sent := Sent(current.sample, current.createdAt, now);
      AppendSent(log, current, now, reportNotBefore);
      log := log + [sent];
      Wait(turn.request);
      if turn.reply != Accepted {
        delay := FailedReport(current, turn);
        assert Handled(old(log), log, current, sent.at, pending);
        return;
      }
      pending := None;
      delay := Max(current.createdAt + interval - now, 0);
      due := now + delay;
      assert Handled(old(log), log, current, sent.at, pending);
    }

    /** Remembers how long the server asked to wait. */
    method Defer(current: Pending, retryAfter: Duration)
      requires LogOk() && PendingOk(current, current.retries + 1) && retryAfter > 0 && now >= reportNotBefore
      modifies this`reportNotBefore, this`log
      ensures LogOk() && PendingOk(current, current.retries + 1)
      ensures reportNotBefore == now + Min(retryAfter, MAXIMUM_AGENT_SAMPLE_AGE)
      ensures log == old(log) + [Deferred(reportNotBefore)]
    {
      hide Promises, Sends;
      reportNotBefore := now + Min(retryAfter, MAXIMUM_AGENT_SAMPLE_AGE);
      AppendDeferred(log, reportNotBefore, current.sample);
      log := log + [Deferred(reportNotBefore)];
    }

    method FailedReport(current: Pending, turn: Turn) returns (delay: Duration)
      requires LogOk() && pending == Some(current) && PendingOk(current, current.retries + 1)
      requires turn.reply != Accepted
      requires now >= reportNotBefore && now >= current.createdAt + MinElapsed(current.retries)
      modifies this
      ensures Valid() && due == now + delay && now >= old(now)
      ensures log == old(log) || log == old(log) + [Deferred(reportNotBefore)]
      ensures canceled ==>
                pending == old(pending) || pending == Some(current.(retries := current.retries + 1)) || pending == None
      ensures !canceled && turn.reply.Failed? && !turn.reply.retryable ==> pending == None && log == old(log)
      ensures !canceled && (turn.reply.Failed? ==> turn.reply.retryable) ==>
                pending == Some(current.(retries := current.retries + 1))
      ensures !canceled && turn.reply.Failed? && turn.reply.retryable && turn.reply.retryAfter > 0 ==>
                log == old(log) + [Deferred(reportNotBefore)] &&
                reportNotBefore >= old(now) + Min(turn.reply.retryAfter, MAXIMUM_AGENT_SAMPLE_AGE)
      ensures turn == PROMPT_FAILURE && !old(canceled) ==>
                now == old(now) && !canceled && log == old(log) && ShortestDelay(current, now, delay)
    {
      hide Promises, Sends;
      Wait(turn.handle);
      if canceled {
        delay := interval;
        due := now + delay;
        return;
      }
      var retryAfter := 0;
      if turn.reply.Failed? {
        if !turn.reply.retryable {
          pending := None;
          delay := Max(current.createdAt + interval - now, 0);
          due := now + delay;
          return;
        }
        retryAfter := turn.reply.retryAfter;
      }
      delay := Retry(current, retryAfter, turn);
    }

    /** Keeps the sample for another try. */
    method Retry(current: Pending, retryAfter: Duration, turn: Turn) returns (delay: Duration)
      requires LogOk() && PendingOk(current, current.retries + 1)
      requires now >= reportNotBefore && now >= current.createdAt + MinElapsed(current.retries)
      modifies this
      ensures Valid() && due == now + delay && now >= old(now) &&
              pending == Some(current.(retries := current.retries + 1))
      ensures if retryAfter > 0
              then reportNotBefore == old(now) + Min(retryAfter, MAXIMUM_AGENT_SAMPLE_AGE) &&
                   log == old(log) + [Deferred(reportNotBefore)]
              else log == old(log)
      ensures turn == PROMPT_FAILURE && retryAfter == 0 ==>
                now == old(now) && canceled == old(canceled) && ShortestDelay(current, now, delay)
    {
      hide Promises, Sends, ReportRetryDelay, Backoff;
      ShortestRetry(current.retries);
      if retryAfter > 0 {
        Defer(current, retryAfter);
      }
      Wait(turn.retry);
      delay := ReportRetryDelay(current.retries, turn.jitter, retryAfter);
      pending := Some(current.(retries := current.retries + 1));
      delay := Min(delay, Max(current.createdAt + MAXIMUM_AGENT_SAMPLE_AGE - now, 0));
      due := now + delay;
    }

    /** Every run of the loop: whatever the server answers and however long things take. */
    method Run(firings: nat)
      requires Valid() && now >= due
      modifies this
      ensures Valid() && Promises(log)
    {
      for firing := 0 to firings
        invariant Valid() && now >= due
      {
        var turn: Turn := *;
        var late: Duration := *;
        var delay := AdvanceReport(turn);
        Sleep(delay, late);
      }
    }
  }

  lemma AppendSent(log: seq<Event>, current: Pending, now: Instant, notBefore: Instant)
    requires Promises(log) && current.createdAt <= now < current.createdAt + MAXIMUM_AGENT_SAMPLE_AGE
    requires now >= current.createdAt + MinElapsed(current.retries) && now >= notBefore
    requires Sends(log, current.sample) == current.retries
    requires forall i :: 0 <= i < |log| && log[i].Sent? ==> log[i].sample <= current.sample
    requires forall i :: 0 <= i < |log| && log[i].Deferred? ==> log[i].until <= notBefore
    ensures Promises(log + [Sent(current.sample, current.createdAt, now)])
    ensures Sends(log + [Sent(current.sample, current.createdAt, now)], current.sample) == current.retries + 1
  {
    var sent := Sent(current.sample, current.createdAt, now);
    RetriesFit(current.retries);
    SendsAppend(log, sent, current.sample);
    forall sample
      ensures Sends(log + [sent], sample) <= MAXIMUM_SENDS
    {
      SendsAppend(log, sent, sample);
    }
  }

  lemma AppendDeferred(log: seq<Event>, until: Instant, sample: nat)
    requires Promises(log)
    ensures Promises(log + [Deferred(until)])
    ensures Sends(log + [Deferred(until)], sample) == Sends(log, sample)
  {
    forall x
      ensures Sends(log + [Deferred(until)], x) == Sends(log, x)
    {
      SendsAppend(log, Deferred(until), x);
    }
  }

  /** The whole-run theorem from a new runner on. */
  method RunFromStart(interval: Duration, firings: nat) returns (runner: Runner)
    requires interval > 0
    ensures Promises(runner.log)
  {
    hide Promises;
    runner := new Runner(interval);
    runner.Run(firings);
  }

  lemma ElapsedStep(retries: nat)
    ensures MinElapsed(0) == 0 && MinElapsed(retries + 1) == MinElapsed(retries) + Backoff(retries) / 2
  {
  }

  /** The first sample after `sent` prompt failures. */
  ghost predicate AfterFailures(runner: Runner, sent: nat)
    reads runner
  {
    && runner.Valid() && runner.now >= runner.due && !runner.canceled && Sends(runner.log, 0) == sent
    && (sent < MAXIMUM_SENDS ==> runner.now == MinElapsed(sent))
    && if sent == 0 then runner.pending.None? && runner.nextSample == 0 && runner.reportNotBefore == 0
       else runner.pending == Some(Pending(0, 0, sent))
  }

  method FailOnce(runner: Runner, ghost sent: nat)
    requires AfterFailures(runner, sent) && sent < MAXIMUM_SENDS
    modifies runner
    ensures AfterFailures(runner, sent + 1)
  {
    hide Sends, MinElapsed, Backoff, Runner.Valid;
    RetriesFit(sent);
    ElapsedStep(sent);
    RetriesFit(sent + 1);
    BackoffPositive(sent);
    ghost var before, at := runner.log, runner.now;
    var delay := runner.AdvanceReport(PROMPT_FAILURE);
    SendsAppend(before, Sent(0, 0, at), 0);
    runner.Sleep(delay, 0);
  }

  /** Every send of the first sample fails without an answer and nothing takes time: it is sent 35 times. */
  method Sends35() returns (runner: Runner)
    ensures Promises(runner.log) && Sends(runner.log, 0) == MAXIMUM_SENDS
  {
    hide Promises, MinElapsed, Backoff;
    runner := new Runner(SECOND);
    ElapsedStep(0);
    for sent := 0 to MAXIMUM_SENDS
      invariant fresh(runner) && AfterFailures(runner, sent)
    {
      FailOnce(runner, sent);
    }
  }
}
