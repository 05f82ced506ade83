/** app/worker/retry.py and the poll stage of app/worker/tasks.py: the deadline-bounded loop, in milliseconds. */
module PollLoop {
  import opened Options

  const POLL_SLEEP_MS: nat := 5_000
  const MAX_POLL_ITERATIONS: nat := 100_000
  const RETRY_DELAYS_MS: seq<nat> := [2_000, 8_000, 30_000]

  datatype PollState = Pending | InProgress | Done | Broken

  /** One provider.poll call: its answer, or None if it raises, and how long it took. */
  datatype Reply = Reply(answer: Option<PollState>, took: nat)

  /**
   * The job's provider and the clock it is polled by. The script fixes every reply in advance, and by
   * how much each sleep overshoots, so a proof over all scripts is a proof over all behaviours.
   */
  class Provider {
    const replies: nat -> Reply
    const overshoot: nat -> nat
    var now: nat
    var polls: nat
    var sleeps: nat

    constructor (replies: nat -> Reply, overshoot: nat -> nat, now: nat)
      ensures this.replies == replies && this.overshoot == overshoot
      ensures this.now == now && polls == 0 && sleeps == 0
    {
      this.replies := replies;
      this.overshoot := overshoot;
      this.now := now;
      polls, sleeps := 0, 0;
    }

    method Poll() returns (answer: Option<PollState>)
      modifies this
      ensures answer == replies(old(polls)).answer
      ensures polls == old(polls) + 1 && sleeps == old(sleeps)
      ensures now == old(now) + replies(old(polls)).took
    {
      answer := replies(polls).answer;
      now := now + replies(polls).took;
      polls := polls + 1;
    }

    method Sleep(ms: nat)
      modifies this
      ensures polls == old(polls) && sleeps == old(sleeps) + 1
      ensures now == old(now) + ms + overshoot(old(sleeps))
    {
      now := now + ms + overshoot(sleeps);
      sleeps := sleeps + 1;
    }
  }

  /**
   * retry_free over a poll: the first answer ends it, and only len(delays) + 1 failures in a row
   * make it raise.
   */
  method RetryFree(p: Provider) returns (answer: Option<PollState>)
    modifies p
    ensures p.now >= old(p.now)
    ensures old(p.polls) < p.polls <= old(p.polls) + 4
    ensures forall k :: old(p.polls) <= k < p.polls - 1 ==> p.replies(k).answer == None
    ensures answer == p.replies(p.polls - 1).answer
    ensures answer == None ==>
              p.polls == old(p.polls) + 4 && p.now >= old(p.now) + 2_000 + 8_000 + 30_000
  {
    var attempts := |RETRY_DELAYS_MS| + 1;
    answer := None;
    for attempt := 0 to attempts
      invariant p.polls == old(p.polls) + attempt
      invariant forall k :: old(p.polls) <= k < p.polls ==> p.replies(k).answer == None
      invariant answer == None
      invariant p.now >= old(p.now) + Waited(attempt)
    {
      answer := p.Poll();
      if answer.Some? {
        return;
      }
      if attempt < |RETRY_DELAYS_MS| {
        p.Sleep(RETRY_DELAYS_MS[attempt]);
      }
    }
    assert Waited(1) == RETRY_DELAYS_MS[0] && Waited(2) == Waited(1) + RETRY_DELAYS_MS[1];
    assert Waited(3) == Waited(2) + RETRY_DELAYS_MS[2] && Waited(4) == Waited(3);
  }

  function Waited(sleeps: nat): nat {
    if sleeps == 0 then 0
    else Waited(sleeps - 1) + (if sleeps <= |RETRY_DELAYS_MS| then RETRY_DELAYS_MS[sleeps - 1] else 0)
  }

  datatype Verdict = Succeeded | Failed | LeftGenerating

  /** The rounds that fit before the deadline: its distance in poll sleeps, rounded up. */
  function MaxRounds(start: nat, deadline: nat): nat {
    if deadline <= start then 0 else (deadline - start + POLL_SLEEP_MS - 1) / POLL_SLEEP_MS
  }

  /**
   * The loop of `_poll`. `rounds` lists when each round began. No round begins at or after the
   * deadline; the loop ends by the provider's verdict or, unless it starts some 500000 s early, by the
   * deadline alone, so neither the iteration cap nor a round of failed retries ends it before that.
   */
  method Poll(p: Provider, deadline: nat) returns (verdict: Verdict, ghost rounds: seq<nat>)
    modifies p
    ensures forall i :: 0 <= i < |rounds| ==> rounds[i] < deadline
    ensures forall i :: 0 <= i < |rounds| ==> rounds[i] >= old(p.now) + i * 5_000
    ensures |rounds| <= MaxRounds(old(p.now), deadline)
    ensures old(p.polls) <= p.polls <= old(p.polls) + 4 * MaxRounds(old(p.now), deadline)
    ensures verdict == LeftGenerating ==> p.now >= deadline || |rounds| == 100_000
    ensures verdict == LeftGenerating && deadline < old(p.now) + 100_000 * 5_000 ==> p.now >= deadline
    // the first answer that is a verdict ends it
    ensures forall k :: old(p.polls) <= k < (if verdict == LeftGenerating then p.polls else p.polls - 1) ==>
              p.replies(k).answer != Some(Done) && p.replies(k).answer != Some(Broken)
    ensures verdict == Succeeded ==> p.polls > old(p.polls) && p.replies(p.polls - 1).answer == Some(Done)
    ensures verdict == Failed ==> p.polls > old(p.polls) && p.replies(p.polls - 1).answer == Some(Broken)
    ensures p.now >= old(p.now)
  {
    rounds := [];
    verdict := LeftGenerating;
    for iteration := 0 to MAX_POLL_ITERATIONS
      invariant |rounds| == iteration
      invariant forall i :: 0 <= i < |rounds| ==> old(p.now) + i * POLL_SLEEP_MS <= rounds[i] < deadline
      invariant p.now >= old(p.now) + iteration * POLL_SLEEP_MS
      invariant old(p.polls) <= p.polls <= old(p.polls) + (|RETRY_DELAYS_MS| + 1) * iteration
      invariant iteration <= MaxRounds(old(p.now), deadline)
      invariant verdict == LeftGenerating
      invariant forall k :: old(p.polls) <= k < p.polls ==>
                  p.replies(k).answer != Some(Done) && p.replies(k).answer != Some(Broken)
    {
      if p.now >= deadline {
        return;
      }
      RoundsFit(old(p.now), deadline, iteration, p.now);
      rounds := rounds + [p.now];

      var answer := RetryFree(p);
      if answer == Some(Done) {
        verdict := Succeeded;
        return;
      }
      if answer == Some(Broken) {
        verdict := Failed;
        return;
      }

      if p.now >= deadline {
        return;
      }
      p.Sleep(POLL_SLEEP_MS);
    }
  }

  lemma RoundsFit(start: nat, deadline: nat, iteration: nat, now: nat)
    requires start + iteration * POLL_SLEEP_MS <= now < deadline
    ensures iteration + 1 <= MaxRounds(start, deadline)
  {
  }
}
