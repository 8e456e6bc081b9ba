/**
 * Any number of requests sharing one quota gate, interleaved at their awaits.
 *
 * A step is what happens between two awaits: the clock moves, a request
 * enters, wakes up, is cancelled, is refused by the upstream (which closes the
 * gate and runs straight into the next `wait_turn`), or ends. Safety is
 * proved over every sequence of steps.
 */
module QuotaProtocol {
  import opened Common
  import opened QuotaGate

  datatype Request =
    | Queued(entered: real, deadline: real, departure: real, calls: nat)
    | Calling(entered: real, deadline: real, calls: nat)
    | Gone(entered: real, deadline: real, calls: nat)

  datatype Claim = Claim(id: nat, slot: real, deadline: real)

  /** A request let through at `at`, with the slot it held and how many claims had been made. */
  datatype Exit = Exit(id: nat, at: real, slot: Option<real>, closedUntil: real, claimsBefore: nat)

  datatype World = World(
    now: real,
    gate: Gate,
    requests: map<nat, Request>,
    claims: seq<Claim>,
    exits: seq<Exit>)

  datatype Step =
    | Tick(elapsed: real)
    | Enter(id: nat, budget: real)
    | WakeUp(id: nat)
    | Cancel(id: nat)
    | RefusedUpstream(id: nat, retryAfter: real)
    | Finish(id: nat)

  predicate Enabled(w: World, step: Step) {
    match step
    case Tick(elapsed) => elapsed >= 0.0
    case Enter(id, budget) => id !in w.requests && budget >= 0.0
    case WakeUp(id) => id in w.requests && w.requests[id].Queued?
    case Cancel(id) => id in w.requests && w.requests[id].Queued?
    case RefusedUpstream(id, hint) => id in w.requests && w.requests[id].Calling? && hint >= 0.0
    case Finish(id) => id in w.requests && w.requests[id].Calling?
  }

  /** Book the outcome of one stretch of `wait_turn`: `held` is the slot held before it. */
  function Book(w: World, id: nat, entered: real, deadline: real, calls: nat, held: Option<real>, turn: Turn): World {
    var claims := if turn.claim.Some? then w.claims + [Claim(id, turn.claim.value, deadline)] else w.claims;
    var slot := if turn.claim.Some? then turn.claim else held;
    match turn.phase
    case Waiting(departure) =>
      w.(gate := turn.gate, claims := claims,
         requests := w.requests[id := Queued(entered, deadline, departure, calls)])
    case Refused =>
      w.(gate := turn.gate, claims := claims, requests := w.requests[id := Gone(entered, deadline, calls)])
    case Passed =>
      w.(gate := turn.gate, claims := claims,
         requests := w.requests[id := Calling(entered, deadline, calls + 1)],
         exits := w.exits + [Exit(id, w.now, slot, turn.gate.closedUntil, |w.claims|)])
  }

  function Next(w: World, step: Step): World
    requires Enabled(w, step)
  {
    match step
    case Tick(elapsed) => w.(now := w.now + elapsed)
    case Enter(id, budget) =>
      Book(w, id, w.now, w.now + budget, 0, None, Arrive(w.gate, w.now, w.now + budget))
    case WakeUp(id) =>
      var r := w.requests[id];
      Book(w, id, r.entered, r.deadline, r.calls, Some(r.departure), Wake(w.gate, w.now, r.departure, r.deadline))
    case RefusedUpstream(id, hint) =>
      var r := w.requests[id];
      var closed := w.gate.Close(w.now, hint);
      Book(w, id, r.entered, r.deadline, r.calls, None, Arrive(closed, w.now, r.deadline))
    case Cancel(id) =>
      var r := w.requests[id];
      w.(requests := w.requests[id := Gone(r.entered, r.deadline, r.calls)])
    case Finish(id) =>
      var r := w.requests[id];
      w.(requests := w.requests[id := Gone(r.entered, r.deadline, r.calls)])
  }

  predicate IsRun(worlds: seq<World>, steps: seq<Step>) {
    && |worlds| == |steps| + 1
    && forall k :: 0 <= k < |steps| ==> Enabled(worlds[k], steps[k]) && worlds[k + 1] == Next(worlds[k], steps[k])
  }

  predicate Initial(w: World) {
    w.gate == Gate(0.0, 0.0) && w.requests == map[] && w.claims == [] && w.exits == []
  }

  /** Claimed slots: a stagger apart, in claim order, each within its claimant's deadline. */
  predicate SlotsStaggered(w: World) {
    && (forall i, j :: 0 <= i < j < |w.claims| ==> w.claims[i].slot + 2.0 <= w.claims[j].slot)
    && (forall i :: 0 <= i < |w.claims| ==> w.claims[i].slot + 2.0 <= w.gate.nextRelease)
    && (forall i :: 0 <= i < |w.claims| ==> w.claims[i].slot <= w.claims[i].deadline)
  }

  /**
   * Everyone let through left while the gate was open: a slot holder not before its
   * slot, a request without a slot not before any slot claimed until then.
   */
  predicate ExitSafe(w: World, e: Exit) {
    && e.closedUntil <= e.at
    && e.claimsBefore <= |w.claims|
    && match e.slot
       case Some(slot) => slot <= e.at && exists i :: 0 <= i < |w.claims| && w.claims[i].id == e.id && w.claims[i].slot == slot
       case None => forall i :: 0 <= i < e.claimsBefore ==> w.claims[i].slot <= e.at
  }

  predicate ExitsSafe(w: World) {
    forall k :: 0 <= k < |w.exits| ==> ExitSafe(w, w.exits[k])
  }

  /** Each further upstream call costs a request at least the margin of its budget. */
  predicate Bounded(w: World, r: Request) {
    && r.entered <= w.now && r.entered <= r.deadline
    && (r.calls >= 1 ==> 5.0 * (r.calls - 1) as real <= r.deadline - r.entered)
    && match r
       case Queued(entered, deadline, departure, calls) =>
         departure <= deadline && entered + 5.0 * calls as real <= departure
       case Calling(entered, _, calls) =>
         calls >= 1 && entered + 5.0 * (calls - 1) as real <= w.now
       case Gone(_, _, _) => true
  }

  predicate HoldsSlot(w: World, id: nat) {
    id in w.requests && w.requests[id].Queued? ==>
      exists i :: 0 <= i < |w.claims| && w.claims[i].id == id && w.claims[i].slot == w.requests[id].departure
  }

  predicate Inv(w: World) {
    && SlotsStaggered(w)
    && ExitsSafe(w)
    && (forall id :: id in w.requests ==> Bounded(w, w.requests[id]))
    && (forall id :: id in w.requests ==> HoldsSlot(w, id))
  }

  /** Claims and exits are only ever appended, so what an exit says of them stays true. */
  lemma ExitsStaySafe(w: World, w': World)
    requires ExitsSafe(w)
    requires w.claims <= w'.claims && w'.exits == w.exits
    ensures ExitsSafe(w')
  {
    forall k | 0 <= k < |w'.exits| ensures ExitSafe(w', w'.exits[k]) {
      assert ExitSafe(w, w.exits[k]);
      var e := w.exits[k];
      if e.slot.Some? {
        var i :| 0 <= i < |w.claims| && w.claims[i].id == e.id && w.claims[i].slot == e.slot.value;
        assert w'.claims[i] == w.claims[i];
      }
    }
  }

  lemma HoldersStay(w: World, w': World, id: nat)
    requires HoldsSlot(w, id) && w.claims <= w'.claims
    requires id in w.requests && id in w'.requests && w'.requests[id] == w.requests[id]
    ensures HoldsSlot(w', id)
  {
    if w.requests[id].Queued? {
      var i :| 0 <= i < |w.claims| && w.claims[i].id == id && w.claims[i].slot == w.requests[id].departure;
      assert w'.claims[i] == w.claims[i];
    }
  }

  /** A stretch of `wait_turn` by a request that has made `calls` calls, on the gate `before`. */
  predicate Bookable(w: World, id: nat, entered: real, deadline: real, calls: nat, held: Option<real>, before: Gate, turn: Turn) {
    && w.gate.NotAfter(before)
    && entered <= w.now && entered <= deadline
    && (calls > 0 ==> WINDOW_MARGIN_S * (calls - 1) as real <= deadline - entered)
    && match held
       case Some(slot) =>
         && turn == Wake(before, w.now, slot, deadline)
         && slot <= deadline && entered + WINDOW_MARGIN_S * calls as real <= slot
         && exists i :: 0 <= i < |w.claims| && w.claims[i].id == id && w.claims[i].slot == slot
       case None =>
         && turn == Arrive(before, w.now, deadline)
         && (if calls == 0 then deadline >= w.now
             else before.closedUntil > w.now && entered + WINDOW_MARGIN_S * calls as real <= before.closedUntil)
  }

  /** A slot just claimed is not before the next release, nor past the deadline. */
  lemma ClaimFits(w: World, id: nat, entered: real, deadline: real, calls: nat, held: Option<real>, before: Gate, turn: Turn)
    requires Bookable(w, id, entered, deadline, calls, held, before, turn)
    ensures w.gate.nextRelease <= turn.gate.nextRelease
    ensures turn.claim.Some? ==>
              && w.gate.nextRelease <= turn.claim.value <= deadline
              && turn.gate.nextRelease == turn.claim.value + RELEASE_STAGGER_S
  {
  }

  lemma BookKeepsStagger(w: World, id: nat, entered: real, deadline: real, calls: nat, held: Option<real>, before: Gate, turn: Turn)
    requires SlotsStaggered(w) && Bookable(w, id, entered, deadline, calls, held, before, turn)
    ensures SlotsStaggered(Book(w, id, entered, deadline, calls, held, turn))
  {
    hide Bookable;
    ClaimFits(w, id, entered, deadline, calls, held, before, turn);
  }

  lemma BookKeepsExits(w: World, id: nat, entered: real, deadline: real, calls: nat, held: Option<real>, before: Gate, turn: Turn)
    requires Inv(w) && Bookable(w, id, entered, deadline, calls, held, before, turn)
    ensures ExitsSafe(Book(w, id, entered, deadline, calls, held, turn))
  {
    var w' := Book(w, id, entered, deadline, calls, held, turn);
    ExitsStaySafe(w, w'.(exits := w.exits));
    if turn.phase.Passed? {
      var e := w'.exits[|w.exits|];
      if turn.claim.Some? {
        assert w'.claims[|w.claims|] == Claim(id, turn.claim.value, deadline);
      } else if held.Some? {
        assert w'.claims == w.claims;
      }
      assert ExitSafe(w', e);
    }
    forall k | 0 <= k < |w'.exits| ensures ExitSafe(w', w'.exits[k]) {
      if k < |w.exits| {
        assert ExitSafe(w'.(exits := w.exits), w.exits[k]);
      }
    }
  }

  lemma BookKeepsBounds(w: World, id: nat, entered: real, deadline: real, calls: nat, held: Option<real>, before: Gate, turn: Turn)
    requires Bookable(w, id, entered, deadline, calls, held, before, turn)
    ensures var w' := Book(w, id, entered, deadline, calls, held, turn);
            Bounded(w', w'.requests[id])
  {
  }

  lemma BookKeepsHolders(w: World, id: nat, entered: real, deadline: real, calls: nat, held: Option<real>, before: Gate, turn: Turn)
    requires Bookable(w, id, entered, deadline, calls, held, before, turn)
    ensures HoldsSlot(Book(w, id, entered, deadline, calls, held, turn), id)
  {
    var w' := Book(w, id, entered, deadline, calls, held, turn);
    if turn.claim.Some? {
      assert w'.claims[|w.claims|] == Claim(id, turn.claim.value, deadline);
    } else if held.Some? {
      assert w'.claims == w.claims;
    }
  }

  /** The one step that matters: booking a stretch of `wait_turn` keeps the invariant. */
  lemma BookKeepsInv(w: World, id: nat, entered: real, deadline: real, calls: nat, held: Option<real>, before: Gate, turn: Turn)
    requires Inv(w) && Bookable(w, id, entered, deadline, calls, held, before, turn)
    ensures Inv(Book(w, id, entered, deadline, calls, held, turn))
  {
    var w' := Book(w, id, entered, deadline, calls, held, turn);
    BookKeepsStagger(w, id, entered, deadline, calls, held, before, turn);
    BookKeepsExits(w, id, entered, deadline, calls, held, before, turn);
    forall other | other in w'.requests ensures HoldsSlot(w', other) && Bounded(w', w'.requests[other]) {
      if other == id {
        BookKeepsBounds(w, id, entered, deadline, calls, held, before, turn);
        BookKeepsHolders(w, id, entered, deadline, calls, held, before, turn);
      } else {
        assert Bounded(w, w.requests[other]);
        HoldersStay(w, w', other);
      }
    }
  }

  lemma NextKeepsInv(w: World, step: Step)
    requires Inv(w) && Enabled(w, step)
    ensures Inv(Next(w, step))
  {
    hide Book;
    var w' := Next(w, step);
    match step
    case Tick(_) =>
      ExitsStaySafe(w, w');
      forall id | id in w'.requests ensures HoldsSlot(w', id) { HoldersStay(w, w', id); }
    case Enter(id, budget) =>
      BookKeepsInv(w, id, w.now, w.now + budget, 0, None, w.gate, Arrive(w.gate, w.now, w.now + budget));
    case WakeUp(id) =>
      var r := w.requests[id];
      assert Bounded(w, r) && HoldsSlot(w, id);
      BookKeepsInv(w, id, r.entered, r.deadline, r.calls, Some(r.departure), w.gate,
                   Wake(w.gate, w.now, r.departure, r.deadline));
    case RefusedUpstream(id, hint) =>
      var r := w.requests[id];
      assert Bounded(w, r);
      var closed := w.gate.Close(w.now, hint);
      BookKeepsInv(w, id, r.entered, r.deadline, r.calls, None, closed, Arrive(closed, w.now, r.deadline));
    case Cancel(id) =>
      GoneKeepsInv(w, w', id);
    case Finish(id) =>
      GoneKeepsInv(w, w', id);
  }

  lemma GoneKeepsInv(w: World, w': World, id: nat)
    requires Inv(w) && id in w.requests
    requires w' == w.(requests := w.requests[id := Gone(w.requests[id].entered, w.requests[id].deadline, w.requests[id].calls)])
    ensures Inv(w')
  {
    ExitsStaySafe(w, w');
    assert Bounded(w, w.requests[id]);
    forall other | other in w'.requests ensures HoldsSlot(w', other) {
      if other != id { HoldersStay(w, w', other); }
    }
  }

  /** The rely of one waiting request: no step of any other lowers the gate or turns back the clock. */
  lemma StepsOnlyRaiseTheGate(w: World, step: Step)
    requires Enabled(w, step)
    ensures w.gate.NotAfter(Next(w, step).gate) && w.now <= Next(w, step).now
  {
  }

  // ----- what one stretch decides

  /** The next slot behind a gate that opens at `closed` with slots handed out until `release`. */
  function LaterOf(closed: real, release: real): real {
    if closed > release then closed else release
  }

  /**
   * On entry a request goes at once when the gate is open and the last slot handed out has
   * passed, and claims nothing; it is refused when its slot lies beyond its deadline, and
   * otherwise holds the next slot, with the one after it two seconds later.
   */
  lemma EnterMeans(w: World, id: nat, budget: real)
    requires Enabled(w, Enter(id, budget))
    ensures var after, closed, release := Next(w, Enter(id, budget)), w.gate.closedUntil, w.gate.nextRelease;
            var deadline, slot := w.now + budget, LaterOf(closed, release);
            if closed <= w.now && release - 2.0 <= w.now then
              after.requests[id] == Calling(w.now, deadline, 1) && after.gate == w.gate && after.claims == w.claims
            else if slot > deadline then
              after.requests[id] == Gone(w.now, deadline, 0) && after.gate == w.gate && after.claims == w.claims
            else
              && after.requests[id] == (if slot > w.now then Queued(w.now, deadline, slot, 0) else Calling(w.now, deadline, 1))
              && after.gate == Gate(closed, slot + 2.0) && after.claims == w.claims + [Claim(id, slot, deadline)]
  {
  }

  /**
   * On waking up a request keeps its slot unless the gate was closed beyond it: then it is
   * refused or moved to the next slot. It goes as soon as its slot has come.
   */
  lemma WakeMeans(w: World, id: nat)
    requires Enabled(w, WakeUp(id))
    ensures var after, closed, release, r := Next(w, WakeUp(id)), w.gate.closedUntil, w.gate.nextRelease, w.requests[id];
            var moved := closed > r.departure;
            var slot := if moved then LaterOf(closed, release) else r.departure;
            if moved && slot > r.deadline then
              after.requests[id] == Gone(r.entered, r.deadline, r.calls) && after.gate == w.gate && after.claims == w.claims
            else
              && after.requests[id] == (if slot > w.now then Queued(r.entered, r.deadline, slot, r.calls)
                                        else Calling(r.entered, r.deadline, r.calls + 1))
              && (moved ==> after.gate == Gate(closed, slot + 2.0) && after.claims == w.claims + [Claim(id, slot, r.deadline)])
              && (!moved ==> after.gate == w.gate && after.claims == w.claims)
  {
  }

  /** A refusal closes the gate for the upstream's hint and five seconds, unless it was closed for longer. */
  lemma RefusalMeans(w: World, id: nat, hint: real)
    requires Enabled(w, RefusedUpstream(id, hint))
    ensures Next(w, RefusedUpstream(id, hint)).gate.closedUntil == LaterOf(w.gate.closedUntil, w.now + hint + 5.0)
    ensures Next(w, RefusedUpstream(id, hint)).exits == w.exits
  {
  }

  /** What every step keeps once the gate was closed until a moment: nobody leaves before it. */
  lemma StepHoldsBack(w: World, step: Step, until: real)
    requires Enabled(w, step) && Inv(w) && until <= w.gate.closedUntil
    ensures until <= Next(w, step).gate.closedUntil
    ensures w.exits <= Next(w, step).exits
    ensures forall m :: |w.exits| <= m < |Next(w, step).exits| ==> Next(w, step).exits[m].at >= until
  {
    NextKeepsInv(w, step);
    var after := Next(w, step);
    forall m | |w.exits| <= m < |after.exits| ensures after.exits[m].at >= until {
      assert ExitSafe(after, after.exits[m]);
    }
  }

  /**
   * The upstream's hint is kept: after a refusal at `t` with hint `h`, in every continuation of
   * the run, no request at all is let through before `t + h + 5`.
   */
  lemma {:induction false} HintsAreKept(worlds: seq<World>, steps: seq<Step>, i: nat, k: nat)
    requires IsRun(worlds, steps) && Initial(worlds[0]) && i < |steps| && steps[i].RefusedUpstream? && i < k < |worlds|
    ensures var until := worlds[i].now + steps[i].retryAfter + 5.0;
            && until <= worlds[k].gate.closedUntil
            && |worlds[i].exits| <= |worlds[k].exits|
            && forall m :: |worlds[i].exits| <= m < |worlds[k].exits| ==> worlds[k].exits[m].at >= until
    decreases k
  {
    hide Next, Inv, Enabled, Initial;
    var until := worlds[i].now + steps[i].retryAfter + 5.0;
    assert Enabled(worlds[k - 1], steps[k - 1]) && worlds[k] == Next(worlds[k - 1], steps[k - 1]);
    if k == i + 1 {
      RefusalMeans(worlds[i], steps[i].id, steps[i].retryAfter);
    } else {
      HintsAreKept(worlds, steps, i, k - 1);
      RunsAreSafe(worlds, steps, k - 1);
      StepHoldsBack(worlds[k - 1], steps[k - 1], until);
    }
  }

  /**
   * Safety of the gate: at every moment of every run, claimed slots are two
   * seconds apart and within their deadlines, every exit happened while the
   * gate was open and overtook no slot claimed before it.
   */
  lemma {:induction false} RunsAreSafe(worlds: seq<World>, steps: seq<Step>, k: nat)
    requires IsRun(worlds, steps) && Initial(worlds[0]) && k < |worlds|
    ensures Inv(worlds[k])
    ensures SlotsStaggered(worlds[k]) && ExitsSafe(worlds[k])
  {
    if k > 0 {
      RunsAreSafe(worlds, steps, k - 1);
      assert worlds[k] == Next(worlds[k - 1], steps[k - 1]);
      NextKeepsInv(worlds[k - 1], steps[k - 1]);
    }
  }

  /** Whatever the others do, a request makes at most 1 + floor(budget / 5) upstream calls. */
  lemma {:induction false} CallsAreBounded(worlds: seq<World>, steps: seq<Step>, k: nat, id: nat)
    requires IsRun(worlds, steps) && Initial(worlds[0]) && k < |worlds|
    requires id in worlds[k].requests
    ensures var r := worlds[k].requests[id];
            r.calls <= 1 + ((r.deadline - r.entered) / 5.0).Floor
  {
    RunsAreSafe(worlds, steps, k);
    assert Bounded(worlds[k], worlds[k].requests[id]);
  }
}
