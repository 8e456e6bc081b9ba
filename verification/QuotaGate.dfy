/**
 * The gate one provider's requests wait behind while its output-token quota
 * window is closed, and the retry loop of a single request.
 *
 * `Gate` and the two turn functions say what one uninterrupted stretch of
 * `wait_turn` does: from its entry, or from a wake-up, to the next await or
 * the return. The class runs the same code over mutable fields. Whatever
 * other requests do while this one is suspended is `Suspend`: it only ever
 * raises the two moments of the gate, which QuotaProtocol proves of every
 * step the other requests can take.
 */
module QuotaGate {
  import opened Common

  const RELEASE_STAGGER_S := 2.0
  const WINDOW_MARGIN_S := 5.0
  const CANCEL_POLL_S := 1.0

  datatype Gate = Gate(closedUntil: real, nextRelease: real) {
    function QueueClearAt(): real {
      MaxR(closedUntil, nextRelease - RELEASE_STAGGER_S)
    }

    function NextSlot(): real {
      MaxR(closedUntil, nextRelease)
    }

    function Close(now: real, retryAfter: real): Gate {
      var until := now + retryAfter + WINDOW_MARGIN_S;
      if until > closedUntil then this.(closedUntil := until) else this
    }

    function Claim(): Gate {
      this.(nextRelease := NextSlot() + RELEASE_STAGGER_S)
    }

    /** What another request may have done to the gate in the meantime. */
    predicate NotAfter(later: Gate) {
      closedUntil <= later.closedUntil && nextRelease <= later.nextRelease
    }
  }

  /** How an uninterrupted stretch of `wait_turn` ends. */
  datatype Phase = Passed | Refused | Waiting(departure: real)

  /** The gate afterwards, the phase, and the departure slot claimed on the way. */
  datatype Turn = Turn(gate: Gate, phase: Phase, claim: Option<real>)

  function Settle(departure: real, now: real): Phase {
    if departure > now then Waiting(departure) else Passed
  }

  function Arrive(gate: Gate, now: real, deadline: real): Turn {
    if gate.QueueClearAt() <= now then Turn(gate, Passed, None)
    else if gate.NextSlot() > deadline then Turn(gate, Refused, None)
    else Turn(gate.Claim(), Settle(gate.NextSlot(), now), Some(gate.NextSlot()))
  }

  function Wake(gate: Gate, now: real, departure: real, deadline: real): Turn {
    if gate.closedUntil <= departure then Turn(gate, Settle(departure, now), None)
    else if gate.NextSlot() > deadline then Turn(gate, Refused, None)
    else Turn(gate.Claim(), Settle(gate.NextSlot(), now), Some(gate.NextSlot()))
  }

  /** One stretch as it was run: `departure` is the slot held on wake-up, None on entry. */
  datatype Stretch = Stretch(now: real, before: Gate, departure: Option<real>, turn: Turn) {
    predicate Follows(deadline: real) {
      turn == if departure.Some? then Wake(before, now, departure.value, deadline)
              else Arrive(before, now, deadline)
    }
  }

  /** `next` resumes the slot `prior` was left waiting for, later, with the gate no lower. */
  predicate Resumes(prior: Stretch, next: Stretch) {
    && next.departure.Some?
    && prior.turn.phase == Waiting(next.departure.value)
    && prior.turn.gate.NotAfter(next.before)
    && prior.now < next.now
  }

  /** The stretches of one `wait_turn` call, in order. */
  predicate Chained(stretches: seq<Stretch>, deadline: real) {
    && (forall k :: 0 <= k < |stretches| ==> stretches[k].Follows(deadline))
    && (forall k :: 0 < k < |stretches| ==> Resumes(stretches[k - 1], stretches[k]))
    && (stretches != [] ==> stretches[0].departure.None?)
  }

  lemma ChainedExtend(stretches: seq<Stretch>, next: Stretch, deadline: real)
    requires (stretches == [] || Chained(stretches, deadline)) && next.Follows(deadline)
    requires if stretches == [] then next.departure.None? else Resumes(stretches[|stretches| - 1], next)
    ensures Chained(stretches + [next], deadline)
  {
  }

  /** A sleep of a poll, or of what is left, brings the end nearer. */
  lemma PollLater(left: real, later: real)
    requires left > 0.0 && later <= left - MinR(left, CANCEL_POLL_S)
    ensures 0 <= Ceil(left) && Ceil(later) < Ceil(left)
  {
  }

  /** How many more slots fit before a deadline that is this far away. */
  function Staggers(left: real): int {
    (left / RELEASE_STAGGER_S).Floor
  }

  lemma StaggerLater(departure: real, later: real, deadline: real)
    requires departure + RELEASE_STAGGER_S <= later <= deadline
    ensures 0 <= Staggers(deadline - later) < Staggers(deadline - departure)
  {
  }

  class Clock {
    var now: real

    constructor (start: real)
      ensures now == start
    {
      now := start;
    }
  }

  class QuotaGate {
    var closedUntil: real
    var nextRelease: real

    constructor ()
      ensures View() == Gate(0.0, 0.0)
    {
      closedUntil := 0.0;
      nextRelease := 0.0;
    }

    function View(): Gate
      reads this
    {
      Gate(closedUntil, nextRelease)
    }

    method Close(clock: Clock, retryAfter: real)
      modifies this
      ensures View() == old(View()).Close(clock.now, retryAfter)
      ensures closedUntil == old(closedUntil) || closedUntil == clock.now + retryAfter + 5.0
      ensures closedUntil >= old(closedUntil) && closedUntil >= clock.now + retryAfter + 5.0
      ensures nextRelease == old(nextRelease)
    {
      var until := clock.now + retryAfter + WINDOW_MARGIN_S;
      if until > closedUntil {
        closedUntil := until;
      }
    }

    method Departure() returns (slot: real)
      modifies this
      ensures slot == old(View()).NextSlot()
      ensures View() == old(View()).Claim()
      ensures slot >= closedUntil && slot >= old(nextRelease) && (slot == closedUntil || slot == old(nextRelease))
      ensures closedUntil == old(closedUntil) && nextRelease == slot + 2.0
    {
      slot := MaxR(closedUntil, nextRelease);
      nextRelease := slot + RELEASE_STAGGER_S;
    }

    /** An await: at least `duration` passes, and other requests may use the gate. */
    method Suspend(clock: Clock, duration: real)
      requires duration >= 0.0
      modifies this, clock
      ensures clock.now >= old(clock.now) + duration
      ensures old(View()).NotAfter(View())
    {
      var extra: real, closed: real, release: real := *, *, *;
      clock.now := clock.now + duration + MaxR(extra, 0.0);
      closedUntil := MaxR(closedUntil, closed);
      nextRelease := MaxR(nextRelease, release);
    }

    /**
     * Wait for this request's slot. The loop ends under any interference:
     * every re-claim moves the slot at least a stagger towards the fixed
     * deadline, and every sleep moves the clock towards the slot.
     */
    method WaitTurn(clock: Clock, maxWait: real) returns (go: bool, cancelled: bool, ghost stretches: seq<Stretch>)
      modifies this, clock
      ensures stretches != [] && Chained(stretches, old(clock.now) + maxWait)
      ensures stretches[0].now == old(clock.now) && stretches[0].before == old(View())
      ensures var last := stretches[|stretches| - 1];
              && View() == last.turn.gate && clock.now == last.now
              && (go <==> last.turn.phase == Passed)
              && (cancelled <==> last.turn.phase.Waiting?)
      ensures old(closedUntil) <= old(clock.now) && old(nextRelease) - 2.0 <= old(clock.now) ==>
                go && View() == old(View()) && clock.now == old(clock.now)
      ensures (old(closedUntil) > old(clock.now) || old(nextRelease) - 2.0 > old(clock.now))
              && (old(closedUntil) > old(clock.now) + maxWait || old(nextRelease) > old(clock.now) + maxWait) ==>
                !go && !cancelled && View() == old(View()) && clock.now == old(clock.now)
      ensures go ==> closedUntil <= clock.now
      ensures !go && !cancelled ==> closedUntil > old(clock.now) + maxWait || nextRelease > old(clock.now) + maxWait
      ensures go && old(View()).QueueClearAt() > old(clock.now) ==>
                old(closedUntil) <= clock.now && old(closedUntil) <= old(clock.now) + maxWait
      ensures clock.now >= old(clock.now)
    {
      hide Chained, Staggers, Ceil;
      cancelled := false;
      var now := clock.now;
      ghost var before := View();
      if MaxR(closedUntil, nextRelease - RELEASE_STAGGER_S) <= now {
        ghost var direct := Stretch(now, before, None, Turn(before, Passed, None));
        ChainedExtend([], direct, now + maxWait);
        stretches := [] + [direct];
        return true, false, stretches;
      }
      var deadline := now + maxWait;
      if MaxR(closedUntil, nextRelease) > deadline {
        ghost var refused := Stretch(now, before, None, Turn(before, Refused, None));
        ChainedExtend([], refused, deadline);
        stretches := [] + [refused];
        return false, false, stretches;
      }
      var departure := Departure();
      stretches := [];
      // The stretch being run: where it began, and the slot it resumed.
      ghost var held: Option<real> := None;
      ghost var claim := Some(departure);
      while departure - clock.now > 0.0 || closedUntil > departure
        invariant old(closedUntil) <= departure <= deadline
        invariant departure + RELEASE_STAGGER_S <= nextRelease
        invariant old(clock.now) <= clock.now
        invariant stretches == [] || Chained(stretches, deadline)
        invariant if stretches == [] then held.None? && before == old(View()) && clock.now == old(clock.now)
                  else
                    && stretches[0].now == old(clock.now) && stretches[0].before == old(View())
                    && Resumes(stretches[|stretches| - 1], Stretch(clock.now, before, held, Turn(before, Passed, None)))
        invariant if claim.None? then held == Some(departure) && before == View()
                  else
                    && claim == Some(departure) && closedUntil <= departure
                    && Stretch(clock.now, before, held, Turn(View(), Settle(departure, clock.now), claim)).Follows(deadline)
        decreases Staggers(deadline - departure), Ceil(departure - clock.now)
      {
        if closedUntil > departure {
          if MaxR(closedUntil, nextRelease) > deadline {
            ghost var refused := Stretch(clock.now, before, held, Turn(View(), Refused, None));
            ChainedExtend(stretches, refused, deadline);
            stretches := stretches + [refused];
            return false, false, stretches;
          }
          StaggerLater(departure, MaxR(closedUntil, nextRelease), deadline);
          departure := Departure();
          claim := Some(departure);
          continue;
        }
        ghost var waiting := Stretch(clock.now, before, held, Turn(View(), Waiting(departure), claim));
        ChainedExtend(stretches, waiting, deadline);
        stretches := stretches + [waiting];
        var isCancelled: bool := *;
        if isCancelled {
          return false, true, stretches;
        }
        ghost var left := departure - clock.now;
        Suspend(clock, MinR(departure - clock.now, CANCEL_POLL_S));
        PollLater(left, departure - clock.now);
        before, held, claim := View(), Some(departure), None;
      }
      ghost var passed := Stretch(clock.now, before, held, Turn(View(), Passed, claim));
      ChainedExtend(stretches, passed, deadline);
      stretches := stretches + [passed];
      return true, false, stretches;
    }
  }

  /** How one upstream attempt ends: a result, a quota refusal with its hint, or another error. */
  datatype Attempt = Answered | QuotaRefused(retryAfter: real) | Failed

  /** What `_within_quota` hands back: the attempt's result, its error, 429, or 499. */
  datatype Reply = Result | OtherError | Exhausted(remaining: real) | ClientGone

  /** The upstream's answer to one call: any outcome, with a hint that is never negative. */
  method CallUpstream() returns (attempt: Attempt)
    ensures attempt.QuotaRefused? ==> attempt.retryAfter >= 0.0
  {
    var answered: bool, failed: bool, hint: real := *, *, *;
    attempt := if answered then Answered else if failed then Failed else QuotaRefused(MaxR(hint, 0.0));
  }

  /** The last call ended that way; the ones before were refusals, each waited out for its hint and five seconds. */
  predicate Answers(attempts: seq<Attempt>, at: seq<real>) {
    && |attempts| == |at|
    && forall j :: 0 <= j < |at| - 1 ==> attempts[j].QuotaRefused? && at[j + 1] >= at[j] + attempts[j].retryAfter + 5.0
  }

  /**
   * The retry loop of one request: it ends, and within a budget of W seconds
   * it makes at most 1 + floor(W / 5) upstream calls. `attempts` are their outcomes
   * and `at` the moments these came; it gives up only when the next slot is past the budget.
   */
  method WithinQuota(gate: QuotaGate, clock: Clock, budget: real)
    returns (reply: Reply, calls: nat, ghost attempts: seq<Attempt>, ghost at: seq<real>)
    requires budget >= 0.0
    modifies gate, clock
    ensures calls <= 1 + (budget / 5.0).Floor
    ensures |attempts| == calls && Answers(attempts, at)
    ensures reply.Result? <==> calls > 0 && attempts[calls - 1].Answered?
    ensures reply.OtherError? <==> calls > 0 && attempts[calls - 1].Failed?
    ensures old(gate.closedUntil) <= old(clock.now) && old(gate.nextRelease) - 2.0 <= old(clock.now) ==> calls > 0
    ensures reply.Exhausted? ==> gate.closedUntil > old(clock.now) + budget || gate.nextRelease > old(clock.now) + budget
    ensures reply.Exhausted? ==>
              if gate.closedUntil > clock.now then clock.now + reply.remaining == gate.closedUntil else reply.remaining == 0.0
  {
    var deadline := clock.now + budget;
    ghost var entered := clock.now;
    calls, attempts, at := 0, [], [];
    while true
      invariant calls == 0 ==> clock.now == entered && gate.View() == old(gate.View())
      invariant |attempts| == calls && Answers(attempts, at)
      invariant calls > 0 ==>
                  attempts[calls - 1].QuotaRefused? && gate.closedUntil >= at[calls - 1] + attempts[calls - 1].retryAfter + 5.0
      invariant calls > 0 ==> gate.closedUntil > clock.now
      invariant gate.closedUntil >= entered + WINDOW_MARGIN_S * calls as real || calls == 0
      invariant calls <= 1 + (budget / WINDOW_MARGIN_S).Floor
      decreases 1 + (budget / WINDOW_MARGIN_S).Floor - calls
    {
      var go, cancelled, _ := gate.WaitTurn(clock, deadline - clock.now);
      if !go {
        // The cancellation flag is read again: it may be set although the turn was refused.
        var isCancelled: bool := *;
        if cancelled || isCancelled {
          return ClientGone, calls, attempts, at;
        }
        return Exhausted(MaxR(0.0, gate.closedUntil - clock.now)), calls, attempts, at;
      }
      assert clock.now >= entered + WINDOW_MARGIN_S * calls as real;
      assert calls > 0 ==> WINDOW_MARGIN_S * calls as real <= budget;
      calls := calls + 1;
      gate.Suspend(clock, 0.0);
      var attempt := CallUpstream();
      attempts, at := attempts + [attempt], at + [clock.now];
      match attempt
      case Answered => return Result, calls, attempts, at;
      case Failed => return OtherError, calls, attempts, at;
      case QuotaRefused(retryAfter) => gate.Close(clock, retryAfter);
    }
  }
}
