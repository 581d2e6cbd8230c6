/**
 The two-phase start barrier of a concurrent pair.

 Both arms wait at one two-party barrier, stamp their start, wait at it again, and only then run.
 The barrier is Python's `threading.Barrier`: it fills, drains its waiters before it can be used
 again, and once broken stays broken. The arms interleave at every operation on the barrier's lock.
*/
module StartBarrier {
  import opened Options

  datatype BarrierState = Filling | Draining | Broken

  /**
   Where an arm is. `Entering` and `Waiting` are inside the first or the second wait, before and after
   the arm is counted. `Failing` has raised before synchronising and not yet aborted the barrier;
   `Aborted` has. `Running` is past both waits; `Ended` has stamped its finish, with or without an error.
  */
  datatype Place =
    | Preparing
    | Entering(second: bool)
    | Waiting(second: bool)
    | Stamping
    | Running
    | Ended(failed: bool)
    | Failing
    | Aborted

  datatype Arm = Arm(place: Place, start: Option<nat>, finish: Option<nat>)

  /** The barrier's fields and the monotonic clock: what the arms share. */
  datatype Shared = Shared(barrier: BarrierState, count: nat, clock: nat)

  /** The arms are `true` for control and `false` for treatment. */
  datatype World = World(shared: Shared, control: Arm, treatment: Arm) {
    function Arm(arm: bool): Arm { if arm then control else treatment }
  }

  const START := World(Shared(Filling, 0, 0), Arm(Preparing, None, None), Arm(Preparing, None, None))

  datatype Action =
    | Tick(delta: nat)
    | Proceed(arm: bool)
    | Timeout(arm: bool)
    | Fail(arm: bool)

  /** Past a wait: to the start stamp, or to the run. */
  function Passed(second: bool): Place { if second then Running else Stamping }

  function Less(count: nat): nat { if count == 0 then 0 else count - 1 }

  /** The next step of an arm; a blocked arm changes nothing. */
  function Advance(s: Shared, a: Arm): (Shared, Arm)
  {
    match a.place
    case Preparing => (s, a.(place := Entering(false)))
    case Entering(second) =>
      (match s.barrier
       case Draining => (s, a)
       case Broken => (s, a.(place := Failing))
       case Filling =>
         if s.count + 1 == 2 then (s.(barrier := Draining), a.(place := Passed(second)))
         else (s.(count := s.count + 1), a.(place := Waiting(second))))
    case Waiting(second) =>
      (match s.barrier
       case Filling => (s, a)
       case Broken => (s.(count := Less(s.count)), a.(place := Failing))
       case Draining =>
         (s.(count := Less(s.count), barrier := if Less(s.count) == 0 then Filling else Draining),
          a.(place := Passed(second))))
    case Stamping => (s, Arm(Entering(true), Some(s.clock), None))
    case Running => (s, Arm(Ended(false), a.start, Some(s.clock)))
    case Failing => (s.(barrier := Broken), a.(place := Aborted))
    case _ => (s, a)
  }

  /** A wait that times out breaks the barrier. */
  function TimeOut(s: Shared, a: Arm): (Shared, Arm)
  {
    if a.place.Waiting? && s.barrier == Filling
    then (s.(barrier := Broken, count := Less(s.count)), a.(place := Failing))
    else (s, a)
  }

  /** The arm's own work raises; after synchronising that only ends the arm. */
  function Raise(s: Shared, a: Arm): (Shared, Arm)
  {
    match a.place
    case Preparing => (s, a.(place := Failing))
    case Stamping => (s, a.(place := Failing))
    case Running => (s, Arm(Ended(true), a.start, Some(s.clock)))
    case Ended(_) => (s, a.(place := Ended(true)))
    case _ => (s, a)
  }

  /** Every interleaving is a sequence of actions; one that is not enabled changes nothing. */
  function Step(w: World, action: Action): World
  {
    match action
    case Tick(delta) => w.(shared := w.shared.(clock := w.shared.clock + delta))
    case Proceed(arm) => Moved(w, arm, Advance(w.shared, w.Arm(arm)))
    case Timeout(arm) => Moved(w, arm, TimeOut(w.shared, w.Arm(arm)))
    case Fail(arm) => Moved(w, arm, Raise(w.shared, w.Arm(arm)))
  }

  function Moved(w: World, arm: bool, next: (Shared, Arm)): World {
    if arm then World(next.0, next.1, w.treatment) else World(next.0, w.control, next.1)
  }

  function Run(w: World, actions: seq<Action>): World
    decreases |actions|
  {
    if actions == [] then w else Run(Step(w, actions[0]), actions[1..])
  }

  // ---------- The invariant ----------

  predicate Synced(p: Place) { p.Running? || p.Ended? }

  /** Past the first wait and not past the second. */
  predicate Middle(p: Place) { p == Stamping || p == Entering(true) || p == Waiting(true) }

  predicate Early(p: Place) { p == Preparing || p == Entering(false) }

  predicate Lost(p: Place) { p == Failing || p == Aborted }

  /** Stamps are there when they must be, and never in the future. */
  predicate Stamped(a: Arm, clock: nat)
  {
    && (a.place == Entering(true) || a.place == Waiting(true) || Synced(a.place) ==> a.start.Some?)
    && (a.place.Ended? <==> a.finish.Some?)
    && (a.start.Some? ==> a.start.value <= clock)
    && (a.finish.Some? ==> a.start.Some? && a.start.value <= a.finish.value <= clock)
  }

  /** What the place of one arm and the barrier say about the other arm. */
  predicate Fits(barrier: BarrierState, p: Place, q: Place)
  {
    && (Early(p) ==> Early(q) || q == Waiting(false) || Lost(q))
    && (p == Waiting(false) && barrier == Filling ==> Early(q) || q == Failing)
    && (p == Waiting(false) && barrier == Draining ==> q == Stamping || q == Entering(true) || q == Failing)
    && (p == Waiting(false) ==> !Synced(q) && q != Waiting(true))
    && (p == Waiting(true) && barrier == Filling ==> q == Stamping || q == Entering(true) || q == Failing)
    && (p == Waiting(true) && barrier == Draining ==> Synced(q))
    && (Middle(p) ==> q == Waiting(false) || Middle(q) || Lost(q) || (p == Waiting(true) && Synced(q)))
    && (Synced(p) ==> Synced(q) || (q == Waiting(true) && barrier == Draining))
    && (p == Aborted ==> barrier == Broken)
    && (barrier == Broken ==> !Synced(p))
    && (barrier == Draining ==> p.Waiting? || q.Waiting?)
  }

  predicate Places(s: Shared, p: Place, q: Place)
  {
    && Fits(s.barrier, p, q) && Fits(s.barrier, q, p)
    && s.count == (if p.Waiting? then 1 else 0) + (if q.Waiting? then 1 else 0)
    && (p.Waiting? && q.Waiting? ==> s.barrier == Broken)
  }

  /** Once an arm is past both waits the other has started, and no finish precedes a start. */
  predicate Times(a: Arm, b: Arm, clock: nat)
  {
    && Stamped(a, clock) && Stamped(b, clock)
    && (Synced(a.place) ==> b.start.Some?)
    && (a.finish.Some? ==> b.start.value <= a.finish.value)
    && (Synced(b.place) ==> a.start.Some?)
    && (b.finish.Some? ==> a.start.value <= b.finish.value)
  }

  predicate Holds(s: Shared, a: Arm, b: Arm)
  {
    Places(s, a.place, b.place) && Times(a, b, s.clock)
  }

  predicate Inv(w: World) { Holds(w.shared, w.control, w.treatment) }

  lemma EitherWay(s: Shared, a: Arm, b: Arm)
    ensures Holds(s, a, b) == Holds(s, b, a)
  {
    hide Fits, Stamped;
  }

  lemma EnteringAdvances(s: Shared, a: Arm, b: Arm)
    requires Holds(s, a, b) && a.place.Entering?
    ensures Holds(Advance(s, a).0, Advance(s, a).1, b)
  {
    if a.place.second { SecondEntered(s, a, b); } else { FirstEntered(s, a, b); }
  }

  lemma FirstEntered(s: Shared, a: Arm, b: Arm)
    requires Holds(s, a, b) && a.place == Entering(false)
    ensures Holds(Advance(s, a).0, Advance(s, a).1, b)
  {
  }

  lemma SecondEntered(s: Shared, a: Arm, b: Arm)
    requires Holds(s, a, b) && a.place == Entering(true)
    ensures Holds(Advance(s, a).0, Advance(s, a).1, b)
  {
  }

  lemma WaitingAdvances(s: Shared, a: Arm, b: Arm)
    requires Holds(s, a, b) && a.place.Waiting?
    ensures Holds(Advance(s, a).0, Advance(s, a).1, b)
  {
  }

  lemma FreeAdvances(s: Shared, a: Arm, b: Arm)
    requires Holds(s, a, b) && !a.place.Entering? && !a.place.Waiting?
    ensures Holds(Advance(s, a).0, Advance(s, a).1, b)
  {
  }

  lemma AdvanceKeeps(s: Shared, a: Arm, b: Arm)
    requires Holds(s, a, b)
    ensures Holds(Advance(s, a).0, Advance(s, a).1, b)
  {
    hide Holds, Advance;
    if a.place.Entering? {
      EnteringAdvances(s, a, b);
    } else if a.place.Waiting? {
      WaitingAdvances(s, a, b);
    } else {
      FreeAdvances(s, a, b);
    }
  }

  lemma InterruptKeeps(s: Shared, a: Arm, b: Arm)
    requires Holds(s, a, b)
    ensures Holds(TimeOut(s, a).0, TimeOut(s, a).1, b)
    ensures Holds(Raise(s, a).0, Raise(s, a).1, b)
  {
  }

  lemma TimePasses(s: Shared, a: Arm, b: Arm, delta: nat)
    requires Holds(s, a, b)
    ensures Holds(s.(clock := s.clock + delta), a, b)
  {
    hide Fits;
  }

  lemma StepKeepsInv(w: World, action: Action)
    requires Inv(w)
    ensures Inv(Step(w, action))
  {
    hide Holds, Advance, TimeOut, Raise;
    if action.Tick? {
      TimePasses(w.shared, w.control, w.treatment, action.delta);
    } else {
      var s, a, b := w.shared, w.Arm(action.arm), w.Arm(!action.arm);
      EitherWay(s, a, b);
      AdvanceKeeps(s, a, b);
      InterruptKeeps(s, a, b);
      var r := Step(w, action);
      EitherWay(r.shared, r.control, r.treatment);
    }
  }

  lemma {:induction false} RunKeepsInv(w: World, actions: seq<Action>)
    requires Inv(w)
    ensures Inv(Run(w, actions))
    decreases |actions|
  {
    if actions != [] {
      StepKeepsInv(w, actions[0]);
      RunKeepsInv(Step(w, actions[0]), actions[1..]);
    }
  }

  // ---------- What the barrier is for ----------

  /** The overlap test of `_run_pair`: the latest start against the earliest finish. */
  predicate Overlap(a: Arm, b: Arm)
  {
    && a.start.Some? && a.finish.Some? && b.start.Some? && b.finish.Some?
    && a.start.value <= a.finish.value && a.start.value <= b.finish.value
    && b.start.value <= a.finish.value && b.start.value <= b.finish.value
  }

  /** Whenever both arms have ended past both waits, their windows overlap. */
  lemma WindowsOverlap(actions: seq<Action>)
    requires var w := Run(START, actions); w.control.place.Ended? && w.treatment.place.Ended?
    ensures var w := Run(START, actions); Overlap(w.control, w.treatment)
  {
    RunKeepsInv(START, actions);
  }

  /**
   If one arm gets past the second wait, the barrier is not broken, and the other arm is past that
   wait too or is let out of it by its own next step.
  */
  lemma SynchronisedTogether(actions: seq<Action>, arm: bool)
    requires Synced(Run(START, actions).Arm(arm).place)
    ensures var w := Run(START, actions);
            && w.shared.barrier != Broken
            && (Synced(w.Arm(!arm).place) || Synced(Step(w, Proceed(!arm)).Arm(!arm).place))
  {
    RunKeepsInv(START, actions);
  }

  /** From then on nothing an arm does, failing included, takes the other's wait away. */
  lemma {:induction false} FailureAfterSyncIsHarmless(w: World, actions: seq<Action>, arm: bool)
    requires Inv(w) && Synced(w.Arm(arm).place)
    ensures var r := Run(w, actions); Synced(r.Arm(arm).place) && !Lost(r.Arm(!arm).place)
    decreases |actions|
  {
    if actions != [] {
      StepKeepsInv(w, actions[0]);
      FailureAfterSyncIsHarmless(Step(w, actions[0]), actions[1..], arm);
    }
  }

  predicate Finished(p: Place) { p.Ended? || p == Aborted }

  /** An arm is blocked when it is not finished and its next step changes nothing. */
  predicate Blocked(w: World, arm: bool)
  {
    !Finished(w.Arm(arm).place) && Advance(w.shared, w.Arm(arm)) == (w.shared, w.Arm(arm))
  }

  /**
   No arm is stranded: while one is blocked the other is neither finished nor blocked. No timeout is
   needed for this.
  */
  lemma NoArmIsStranded(actions: seq<Action>, arm: bool)
    requires Blocked(Run(START, actions), arm)
    ensures var w := Run(START, actions); !Finished(w.Arm(!arm).place) && !Blocked(w, !arm)
  {
    RunKeepsInv(START, actions);
    var w := Run(START, actions);
    assert w.Arm(arm).place.Waiting? || w.Arm(arm).place.Entering?;
  }

  /** An arm that failed early leaves the barrier broken for good: the other never synchronises. */
  lemma {:induction false} EarlyFailureReachesTheOther(w: World, actions: seq<Action>, arm: bool)
    requires Inv(w) && w.Arm(arm).place == Aborted
    ensures var r := Run(w, actions); r.shared.barrier == Broken && !Synced(r.Arm(!arm).place)
    decreases |actions|
  {
    if actions != [] {
      StepKeepsInv(w, actions[0]);
      EarlyFailureReachesTheOther(Step(w, actions[0]), actions[1..], arm);
    }
  }

  // ---------- What failures and timeouts do, and that nothing else does it ----------

  /** No timeout comes and no arm's own work raises. */
  predicate Smooth(actions: seq<Action>) { forall a :: a in actions ==> a.Tick? || a.Proceed? }

  predicate Unharmed(w: World)
  {
    w.shared.barrier != Broken && forall arm :: !Lost(w.Arm(arm).place) && w.Arm(arm).place != Ended(true)
  }

  /** With no timeout and no error of its own, neither arm is ever lost or ends with an error. */
  lemma {:induction false} SmoothRunsSucceed(w: World, actions: seq<Action>)
    requires Unharmed(w) && Smooth(actions)
    ensures Unharmed(Run(w, actions))
    decreases |actions|
  {
    if actions != [] {
      assert actions[0] in actions;
      SmoothStep(w, actions[0]);
      SmoothRunsSucceed(Step(w, actions[0]), actions[1..]);
    }
  }

  lemma SmoothStep(w: World, a: Action)
    requires Unharmed(w) && (a.Tick? || a.Proceed?)
    ensures Unharmed(Step(w, a))
  {
    assert !Lost(w.Arm(true).place) && !Lost(w.Arm(false).place);
  }

  /** An error after synchronising ends that arm with an error, for good. */
  lemma {:induction false} FailureIsRecorded(w: World, actions: seq<Action>, arm: bool)
    requires Synced(w.Arm(arm).place)
    ensures Run(Step(w, Fail(arm)), actions).Arm(arm).place == Ended(true)
    decreases |actions|
  {
    if actions != [] {
      var init, last := actions[..|actions| - 1], actions[|actions| - 1];
      FailureIsRecorded(w, init, arm);
      RunAppends(Step(w, Fail(arm)), init, last);
      assert actions == init + [last];
    }
  }

  lemma {:induction false} RunAppends(w: World, actions: seq<Action>, a: Action)
    ensures Run(w, actions + [a]) == Step(Run(w, actions), a)
    decreases |actions|
  {
    if actions == [] {
      assert [a][1..] == [];
    } else {
      assert (actions + [a])[1..] == actions[1..] + [a];
      RunAppends(Step(w, actions[0]), actions[1..], a);
    }
  }

  /** Only the arm's own error does that. */
  lemma {:induction false} ErrorsAreOwn(w: World, actions: seq<Action>, arm: bool)
    requires w.Arm(arm).place != Ended(true) && Fail(arm) !in actions
    ensures Run(w, actions).Arm(arm).place != Ended(true)
    decreases |actions|
  {
    if actions != [] {
      assert actions[0] in actions;
      ErrorsAreOwn(Step(w, actions[0]), actions[1..], arm);
    }
  }

  /** An error before the second wait loses the arm, and its next step breaks the barrier. */
  lemma EarlyErrorBreaksTheBarrier(w: World, arm: bool)
    requires w.Arm(arm).place == Preparing || w.Arm(arm).place == Stamping
    ensures var failed := Step(w, Fail(arm));
            var aborted := Step(failed, Proceed(arm));
            && failed == Moved(w, arm, (w.shared, w.Arm(arm).(place := Failing)))
            && aborted.Arm(arm).place == Aborted && aborted.shared.barrier == Broken
  {
  }

  /** A wait that times out breaks the barrier: neither arm ever gets past the second wait. */
  lemma {:induction false} TimeoutReachesTheOther(w: World, actions: seq<Action>, arm: bool)
    requires Inv(w) && w.Arm(arm).place.Waiting? && w.shared.barrier == Filling
    ensures var r := Run(Step(w, Timeout(arm)), actions);
            Inv(r) && r.shared.barrier == Broken && !Synced(r.control.place) && !Synced(r.treatment.place)
    decreases |actions|
  {
    var out := Step(w, Timeout(arm));
    if actions == [] {
      StepKeepsInv(w, Timeout(arm));
    } else {
      var init, last := actions[..|actions| - 1], actions[|actions| - 1];
      TimeoutReachesTheOther(w, init, arm);
      StepKeepsInv(Run(out, init), last);
      RunAppends(out, init, last);
      assert actions == init + [last];
    }
  }

  // ---------- Both arms can always finish ----------

  /** The steps an arm has left at most. */
  function StepsLeft(p: Place): nat
  {
    match p
    case Preparing => 7
    case Entering(second) => if second then 3 else 6
    case Waiting(second) => if second then 2 else 5
    case Stamping => 4
    case Running => 1
    case Failing => 1
    case Ended(_) => 0
    case Aborted => 0
  }

  lemma AdvanceIsProgress(s: Shared, a: Arm)
    ensures Advance(s, a) != (s, a) ==> StepsLeft(Advance(s, a).1.place) < StepsLeft(a.place)
  {
  }

  /**
   From every reachable state both arms finish if they just go on, with no timeout: some order of their
   own steps ends both, and every step that changes anything brings that nearer.
  */
  lemma {:induction false} BothCanFinish(w: World) returns (actions: seq<Action>)
    requires Inv(w)
    ensures Smooth(actions)
    ensures Finished(Run(w, actions).control.place) && Finished(Run(w, actions).treatment.place)
    decreases StepsLeft(w.control.place) + StepsLeft(w.treatment.place)
  {
    hide Inv, Advance, Run;
    if Finished(w.control.place) && Finished(w.treatment.place) {
      actions := [];
      assert Run(w, []) == w by { NoAction(w); }
    } else {
      var arm := SomeoneMoves(w);
      var next := Step(w, Proceed(arm));
      AdvanceIsProgress(w.shared, w.Arm(arm));
      StepKeepsInv(w, Proceed(arm));
      var rest := BothCanFinish(next);
      actions := [Proceed(arm)] + rest;
      FirstThen(w, Proceed(arm), rest);
    }
  }

  lemma NoAction(w: World)
    ensures Run(w, []) == w
  {
  }

  lemma FirstThen(w: World, a: Action, rest: seq<Action>)
    ensures Run(w, [a] + rest) == Run(Step(w, a), rest)
  {
    assert ([a] + rest)[1..] == rest;
  }

  lemma SomeoneMoves(w: World) returns (arm: bool)
    requires Inv(w) && !(Finished(w.control.place) && Finished(w.treatment.place))
    ensures Advance(w.shared, w.Arm(arm)) != (w.shared, w.Arm(arm))
  {
    arm := !Finished(w.control.place) && !Blocked(w, true);
  }
}
