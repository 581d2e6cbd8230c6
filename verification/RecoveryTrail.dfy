/**
 What the evaluator must have done to be where it is: the steps that moved it since it last took the
 lock, or since it armed, and what the marker holds because of them. All of it is for every order of the
 scans, with late starts or without, and needs no invariant of the rest of the system.
*/
module RecoveryTrail {
  import opened Options
  import opened CrashRecovery

  // ---------- The trail of a run ----------

  /** The actions that moved the evaluator since it was last idle, or since it last armed. */
  function Trail(system: System, actions: seq<Action>): seq<Action>
  {
    if actions == [] then [] else
    var init := actions[..|actions| - 1];
    Extended(Run(system, INITIAL, init), Run(system, INITIAL, actions), Trail(system, init), actions[|actions| - 1])
  }

  function Extended(before: World, after: World, trail: seq<Action>, a: Action): seq<Action>
  {
    if after.evaluator == before.evaluator then trail
    else if after.evaluator.Idle? then []
    else if after.evaluator.Armed? then [a]
    else trail + [a]
  }

  /** Step `k` was taken, and the evaluator has not been idle since. */
  predicate Since(system: System, actions: seq<Action>, k: nat)
  {
    k < |actions| && forall m :: k < m <= |actions| ==> !Run(system, INITIAL, actions[..m]).evaluator.Idle?
  }

  lemma {:induction false} IdleHasNoTrail(system: System, actions: seq<Action>)
    requires Run(system, INITIAL, actions).evaluator.Idle?
    ensures Trail(system, actions) == []
  {
    hide Step;
    if actions != [] {
      var init := actions[..|actions| - 1];
      if Run(system, INITIAL, init).evaluator.Idle? { IdleHasNoTrail(system, init); }
    }
  }

  /** What is on the trail was done, and since then the lock was never dropped. */
  lemma {:induction false} TrailIsSinceTheLock(system: System, actions: seq<Action>, a: Action)
    requires a in Trail(system, actions)
    ensures exists k: nat :: Since(system, actions, k) && actions[k] == a
  {
    hide Step;
    var n := |actions|;
    var init := actions[..n - 1];
    assert actions[..n] == actions;
    if Run(system, INITIAL, actions).evaluator.Idle? {
      IdleHasNoTrail(system, actions);
    } else if a in Trail(system, init) {
      TrailIsSinceTheLock(system, init, a);
      var k: nat :| Since(system, init, k) && init[k] == a;
      forall m | k < m <= n ensures !Run(system, INITIAL, actions[..m]).evaluator.Idle? {
        if m < n { assert init[..m] == actions[..m]; }
      }
      assert Since(system, actions, k);
    } else {
      assert Since(system, actions, n - 1) && actions[n - 1] == a;
    }
  }

  // ---------- Recovery ----------

  /** Both scans found nothing, under a marker of this binding. */
  const SCANNED: seq<Action> := [Lock, Read(true), Scan(false), Scan(false)]

  predicate CleanReport(a: Action) { a.Observe? && !a.report.Dirty? }

  /** The look-up rules the launcher out, given what the marker has of it and the last report on its unit. */
  predicate Excluded(launcher: Option<Launcher>, last: Report, startTime: Option<nat>)
  {
    match launcher
    case None => last.NotFound?
    case Some(l) => if l.start.None? then startTime.None? && last.NotFound? else startTime != l.start
  }

  /** Two clean reports in a row, after the scans. */
  predicate FoundClean(trail: seq<Action>)
  {
    && SCANNED <= trail && |trail| >= 6
    && CleanReport(trail[|trail| - 2]) && CleanReport(trail[|trail| - 1])
  }

  /** And then the launcher ruled out. */
  predicate FoundGone(trail: seq<Action>, marker: Option<Poison>)
  {
    && |trail| > 6 && FoundClean(trail[..|trail| - 1]) && trail[|trail| - 1].LookUp?
    && marker.Some? && Excluded(marker.value.launcher, trail[|trail| - 2].report, trail[|trail| - 1].startTime)
  }

  /** And then the mount unchanged. */
  predicate FoundFit(trail: seq<Action>, marker: Option<Poison>)
  {
    |trail| > 7 && FoundGone(trail[..|trail| - 1], marker) && trail[|trail| - 1] == CheckMount(true)
  }

  /** And then the marker removed. */
  predicate Cleared(trail: seq<Action>)
  {
    && |trail| > 8 && FoundClean(trail[..|trail| - 3]) && trail[|trail| - 3].LookUp?
    && trail[|trail| - 2] == CheckMount(true) && trail[|trail| - 1] == Clear
  }

  /** How the evaluator comes to each place of a recovery. */
  predicate Recovering(e: Evaluator, marker: Option<Poison>, trail: seq<Action>)
  {
    match e
    case Idle => trail == []
    case Locked => trail == [Lock]
    case Scanning(first) => trail == if first then SCANNED[..2] else SCANNED[..3]
    case Confirming(clean) => SCANNED <= trail && (clean > 0 ==> |trail| > 4 && CleanReport(trail[|trail| - 1]))
    case Probing(absent) => FoundClean(trail) && (absent <==> trail[|trail| - 1].report.NotFound?)
    case Mounts => FoundGone(trail, marker)
    case Clearing => FoundFit(trail, marker)
    case Ready => marker.None? && (trail == [Lock] || Cleared(trail))
    case _ => true
  }

  // ---------- An invocation ----------

  /** The first `k` steps of an invocation. */
  predicate Invoking(trail: seq<Action>, k: nat)
  {
    && k <= |trail|
    && (k > 0 ==> trail[0] == Arm)
    && (k > 1 ==> trail[1] == BindGate)
    && (k > 2 ==> trail[2].Launch?)
    && (k > 3 ==> trail[3] == Identify)
    && (k > 4 ==> trail[4] == Release)
    && (k > 5 ==> trail[5] == ConfirmActive)
    && (k > 6 ==> trail[6] == IdentifyUnit)
    && (k > 7 ==> trail[7] == Close)
    && (k > 8 ==> trail[8] == Reap)
  }

  /** How many of these steps bring the evaluator to a place of an invocation. */
  function StepsTo(e: Evaluator): nat
  {
    match e
    case Armed(_) => 1
    case Bound(_) => 2
    case Launched(_) => 3
    case Identified(_) => 4
    case Released(_) => 5
    case UnitActive(_) => 6
    case Serving(_) => 7
    case Closing(_) => 8
    case Reaped(_, _) => 9
    case Confirmed(_) => 9
    case _ => 0
  }

  /** What the marker holds after `k` steps: each step's part from that step on, and nothing before. */
  function Recorded(run: RunId, trail: seq<Action>, k: nat): Poison
    requires Invoking(trail, k)
  {
    var launcher := if k >= 4 then Some(Launcher(trail[2].pid, Some(trail[2].start))) else None;
    Poison(run, k >= 2, launcher, k >= 7)
  }

  predicate InvokedAs(w: World, run: RunId, trail: seq<Action>, k: nat)
  {
    && Invoking(trail, k) && w.marker == Some(Recorded(run, trail, k)) && run in w.sandboxes
    && (k >= 3 ==> w.sandboxes[run].pid == trail[2].pid && w.sandboxes[run].start == trail[2].start)
  }

  predicate Tells(w: World, trail: seq<Action>)
  {
    var e, k := w.evaluator, StepsTo(w.evaluator);
    if k == 0 then Recovering(e, w.marker, trail)
    else
      && InvokedAs(w, e.run, trail, k)
      && (k < 9 ==> |trail| == k)
      && (e.Reaped? && e.quiet > 0 ==> |trail| > 9 && CleanReport(trail[|trail| - 1]))
      && (e.Confirmed? ==> |trail| > 10 && CleanReport(trail[|trail| - 2]) && CleanReport(trail[|trail| - 1]))
  }

  lemma RecoverTells(order: Order, w: World, a: Action, trail: seq<Action>)
    requires Tells(w, trail)
    ensures var next := Recover(order, w, a); Tells(next, Extended(w, next, trail, a))
  {
    hide InvokedAs;
  }

  lemma TouchTells(w: World, a: Action, trail: seq<Action>)
    requires Tells(w, trail) && Touches(a)
    ensures var next := Invoke(w, a); Tells(next, Extended(w, next, trail, a))
  {
    hide Recovering;
  }

  lemma MarkTells(w: World, a: Action, trail: seq<Action>)
    requires Tells(w, trail) && Marks(a)
    ensures var next := Invoke(w, a); Tells(next, Extended(w, next, trail, a))
  {
    hide FoundClean, FoundGone, FoundFit, Cleared;
  }

  lemma GoOnTells(w: World, a: Action, trail: seq<Action>)
    requires Tells(w, trail) && !Touches(a) && !Marks(a)
    ensures var next := Invoke(w, a); Tells(next, Extended(w, next, trail, a))
  {
    hide Recovering;
  }

  lemma InvokeTells(w: World, a: Action, trail: seq<Action>)
    requires Tells(w, trail)
    ensures var next := Invoke(w, a); Tells(next, Extended(w, next, trail, a))
  {
    hide Invoke, Tells, Extended;
    if Touches(a) {
      TouchTells(w, a, trail);
    } else if Marks(a) {
      MarkTells(w, a, trail);
    } else {
      GoOnTells(w, a, trail);
    }
  }

  lemma LockTells(system: System, w: World, trail: seq<Action>)
    requires Tells(w, trail)
    ensures var next := Step(system, w, Lock); Tells(next, Extended(w, next, trail, Lock))
  {
  }

  lemma StopTells(w: World, trail: seq<Action>)
    requires Tells(w, trail)
    ensures var next := Abandon(w); Tells(next, Extended(w, next, trail, Stop))
  {
  }

  /** The rest of the system moves no evaluator, writes no marker and changes no pid. */
  lemma ElsewhereTells(late: bool, w: World, run: RunId, a: Action, trail: seq<Action>)
    requires Tells(w, trail)
    ensures var next := Elsewhere(late, w, run, a); Tells(next, Extended(w, next, trail, a))
  {
    hide Recovering, Invoking;
  }

  lemma StepTells(system: System, w: World, a: Action, trail: seq<Action>)
    requires Tells(w, trail)
    ensures var next := Step(system, w, a); Tells(next, Extended(w, next, trail, a))
  {
    hide Tells, Extended, Recover, Invoke, Elsewhere, Abandon;
    if a.Lock? {
      LockTells(system, w, trail);
    } else if a.Stop? {
      StopTells(w, trail);
    } else if IsElsewhere(a) {
      ElsewhereTells(system.late, w, a.run, a, trail);
    } else {
      RecoverTells(system.order, w, a, trail);
      InvokeTells(w, a, trail);
    }
  }

  lemma {:induction false} TrailTells(system: System, actions: seq<Action>)
    ensures Tells(Run(system, INITIAL, actions), Trail(system, actions))
  {
    if actions != [] {
      var init := actions[..|actions| - 1];
      TrailTells(system, init);
      StepTells(system, Run(system, INITIAL, init), actions[|actions| - 1], Trail(system, init));
    }
  }

  lemma FitMeans(trail: seq<Action>, marker: Option<Poison>)
    requires FoundFit(trail, marker)
    ensures var n := |trail|;
            && n >= 8 && marker.Some?
            && trail[..4] == [Lock, Read(true), Scan(false), Scan(false)]
            && CleanReport(trail[n - 4]) && CleanReport(trail[n - 3]) && trail[n - 2].LookUp?
            && Excluded(marker.value.launcher, trail[n - 3].report, trail[n - 2].startTime)
            && trail[n - 1] == CheckMount(true)
  {
    hide Excluded, CleanReport;
  }

  /**
   Whenever recovery removes a marker, then since it took the lock it has read a marker of its own
   binding, scanned twice without finding a process, seen two clean reports in a row, ruled the launcher
   out and found the mount unchanged, in this order.
  */
  lemma ClearPassedEveryTest(system: System, actions: seq<Action>)
    requires Run(system, INITIAL, actions).evaluator.Clearing?
    ensures var marker, trail := Run(system, INITIAL, actions).marker, Trail(system, actions);
            var n := |trail|;
            && n >= 8 && marker.Some?
            && trail[..4] == [Lock, Read(true), Scan(false), Scan(false)]
            && CleanReport(trail[n - 4]) && CleanReport(trail[n - 3]) && trail[n - 2].LookUp?
            && Excluded(marker.value.launcher, trail[n - 3].report, trail[n - 2].startTime)
            && trail[n - 1] == CheckMount(true)
    ensures exists i: nat :: Since(system, actions, i) && actions[i] == Read(true)
    ensures exists i: nat :: Since(system, actions, i) && actions[i] == CheckMount(true)
  {
    hide Run, Trail, Since, Excluded;
    TrailTells(system, actions);
    var trail := Trail(system, actions);
    FitMeans(trail, Run(system, INITIAL, actions).marker);
    assert trail[1] == Read(true) && trail[|trail| - 1] == CheckMount(true);
    TrailIsSinceTheLock(system, actions, Read(true));
    TrailIsSinceTheLock(system, actions, CheckMount(true));
  }

  /** An invocation arms with no marker there was, or after a recovery that removed one. */
  lemma ArmingFollowsALockOrARecovery(system: System, actions: seq<Action>)
    requires Run(system, INITIAL, actions).evaluator.Ready?
    ensures Trail(system, actions) == [Lock] || Cleared(Trail(system, actions))
  {
    TrailTells(system, actions);
  }

  /**
   At every place of an invocation the marker holds exactly what was written so far: the gate digest
   once it is bound, the launcher as it was launched once it is identified, and the unit once it is.
  */
  lemma MarkerTellsTheSteps(system: System, actions: seq<Action>)
    requires StepsTo(Run(system, INITIAL, actions).evaluator) > 0
    ensures var w, trail := Run(system, INITIAL, actions), Trail(system, actions);
            var k := StepsTo(w.evaluator);
            Invoking(trail, k) && w.marker == Some(Recorded(w.evaluator.run, trail, k))
  {
    TrailTells(system, actions);
  }

  /** Whenever an invocation removes its own marker, it went through all of its steps. */
  lemma DisarmFollowsTheInvocation(system: System, actions: seq<Action>)
    requires Run(system, INITIAL, actions).evaluator.Confirmed?
    ensures var w, trail, n := Run(system, INITIAL, actions), Trail(system, actions), |Trail(system, actions)|;
            && n >= 11 && trail[..2] == [Arm, BindGate] && trail[2].Launch?
            && trail[3..9] == [Identify, Release, ConfirmActive, IdentifyUnit, Close, Reap]
            && CleanReport(trail[n - 2]) && CleanReport(trail[n - 1])
            && w.marker == Some(Poison(w.evaluator.run, true,
                                       Some(Launcher(trail[2].pid, Some(trail[2].start))), true))
  {
    hide Run, Trail, CleanReport;
    TrailTells(system, actions);
  }

  // ---------- Undisturbed runs ----------

  /** The system can answer so: what is there is found, and what is not clean is not reported clean. */
  predicate Possible(poison: Poison, s: Sandbox, found: (bool, bool), reports: (Report, Report), startTime: Option<nat>)
  {
    && (poison.gate && s.process.AtGate? ==> found.0) && (s.process.AtCommand? ==> found.1)
    && TruthfulReport(s.unit, reports.0) && TruthfulReport(s.unit, reports.1)
    && (poison.launcher.Some? && Alive(s.process) && s.pid == poison.launcher.value.pid ==> startTime == Some(s.start))
  }

  function AfterScans(w: World, free: bool): World { w.(evaluator := if free then Confirming(0) else Idle) }

  function AfterReports(w: World, reports: (Report, Report)): World
  {
    if w.evaluator.Idle? then w
    else if reports.1.Dirty? then w.(evaluator := Confirming(0))
    else if reports.0.Dirty? then w.(evaluator := Confirming(1))
    else w.(evaluator := Probing(reports.1.NotFound?))
  }

  lemma ScansLeadTo(late: bool, w: World, same: bool, found: (bool, bool))
    requires w.evaluator.Idle? && w.marker.Some? && Marked(w).Some?
    requires w.marker.value.gate && Marked(w).value.process.AtGate? ==> found.0
    requires Marked(w).value.process.AtCommand? ==> found.1
    ensures Run(Gated(late), w, [Lock, Read(same), Scan(found.0), Scan(found.1)])
            == AfterScans(w, same && !found.0 && !found.1)
  {
    var steps := [Lock, Read(same), Scan(found.0), Scan(found.1)];
    var w1 := Step(Gated(late), w, steps[0]);
    var w2 := Step(Gated(late), w1, steps[1]);
    var w3 := Step(Gated(late), w2, steps[2]);
    var w4 := Step(Gated(late), w3, steps[3]);
    assert w4 == AfterScans(w, same && !found.0 && !found.1);
    hide Step;
    Follows(Gated(late), [w, w1, w2, w3, w4], steps);
  }

  lemma ReportsLeadTo(late: bool, w: World, reports: (Report, Report))
    requires w.marker.Some? && Marked(w).Some? && (w.evaluator.Idle? || w.evaluator == Confirming(0))
    requires TruthfulReport(Marked(w).value.unit, reports.0) && TruthfulReport(Marked(w).value.unit, reports.1)
    ensures Run(Gated(late), w, [Observe(reports.0), Observe(reports.1)]) == AfterReports(w, reports)
  {
    hide Elsewhere, Abandon, Scanned;
    var w1 := Step(Gated(late), w, Observe(reports.0));
    var w2 := Step(Gated(late), w1, Observe(reports.1));
    assert w2 == AfterReports(w, reports);
    hide Step;
    Follows(Gated(late), [w, w1, w2], [Observe(reports.0), Observe(reports.1)]);
  }

  lemma LastTestsDecide(late: bool, w: World, startTime: Option<nat>, fits: bool)
    requires w.marker.Some? && Marked(w).Some? && (w.evaluator.Idle? || w.evaluator.Confirming? || w.evaluator.Probing?)
    requires var s, launcher := Marked(w).value, w.marker.value.launcher;
             launcher.Some? && Alive(s.process) && s.pid == launcher.value.pid ==> startTime == Some(s.start)
    ensures var after := Run(Gated(late), w, [LookUp(startTime), CheckMount(fits), Clear]);
            && after.sandboxes == w.sandboxes
            && if w.evaluator.Probing? && fits
                  && Excluded(w.marker.value.launcher, if w.evaluator.absent then NotFound else LoadedClean, startTime)
               then after.marker.None? && after.evaluator.Ready?
               else after.marker == w.marker && !after.evaluator.Ready?
  {
    hide Elsewhere, Abandon, Invoke, Scanned;
    var steps := [LookUp(startTime), CheckMount(fits), Clear];
    var w1 := Step(Gated(late), w, steps[0]);
    var w2 := Step(Gated(late), w1, steps[1]);
    var w3 := Step(Gated(late), w2, steps[2]);
    assert w1.evaluator.Mounts? ==> w.evaluator.Probing?;
    assert w3.sandboxes == w.sandboxes;
    assert w3.evaluator.Ready? <==> w1.evaluator.Mounts? && fits;
    assert w3.marker == if w3.evaluator.Ready? then None else w.marker;
    hide Step;
    Follows(Gated(late), [w, w1, w2, w3], steps);
  }

  /**
   What a recovery decides from what it observes, in any state at all: the marker goes if and only if it
   is of this binding, neither scan found a process, both reports are clean, the launcher is ruled out
   and the mount is unchanged; otherwise nothing changes and nothing may be armed.
  */
  lemma RecoveryDecides(late: bool, w: World, same: bool, found: (bool, bool), reports: (Report, Report),
                        startTime: Option<nat>, fits: bool)
    requires w.evaluator.Idle? && w.marker.Some? && Marked(w).Some?
    requires Possible(w.marker.value, Marked(w).value, found, reports, startTime)
    ensures var after := Run(Gated(late), w, [Lock, Read(same), Scan(found.0), Scan(found.1), Observe(reports.0),
                                              Observe(reports.1), LookUp(startTime), CheckMount(fits), Clear]);
            && after.sandboxes == w.sandboxes
            && if same && !found.0 && !found.1 && !reports.0.Dirty? && !reports.1.Dirty?
                  && Excluded(w.marker.value.launcher, reports.1, startTime) && fits
               then after.marker.None? && after.evaluator.Ready?
               else after.marker == w.marker && !after.evaluator.Ready?
  {
    var scans := [Lock, Read(same), Scan(found.0), Scan(found.1)];
    var observations := [Observe(reports.0), Observe(reports.1)];
    var tests := [LookUp(startTime), CheckMount(fits), Clear];
    var scanned := AfterScans(w, same && !found.0 && !found.1);
    ScansLeadTo(late, w, same, found);
    ReportsLeadTo(late, scanned, reports);
    hide Step, Run, TruthfulReport, Excluded;
    Compose(Gated(late), w, scans, observations);
    Compose(Gated(late), w, scans + observations, tests);
    assert scans + observations + tests
           == [Lock, Read(same), Scan(found.0), Scan(found.1), Observe(reports.0), Observe(reports.1),
               LookUp(startTime), CheckMount(fits), Clear];
    LastTestsDecide(late, AfterReports(scanned, reports), startTime, fits);
  }

  function Observations(reports: seq<Report>): (actions: seq<Action>)
    ensures |actions| == |reports|
  {
    seq(|reports|, i requires 0 <= i < |reports| => Observe(reports[i]))
  }

  function Answers(reports: seq<Report>): (answers: seq<Option<Report>>)
    ensures |answers| == |reports|
  {
    seq(|reports|, i requires 0 <= i < |reports| => Some(reports[i]))
  }

  /** The observation at `i` is the first that is clean right after a clean one. */
  predicate FirstCleanTwice(reports: seq<Report>, i: int)
  {
    CleanTwice(Answers(reports), i) && forall j :: 0 <= j < i ==> !CleanTwice(Answers(reports), j)
  }

  /**
   However many observations are made, they end where the loop of `ConfirmUnitClean` ends: recovery goes
   on at the first clean one right after a clean one, with what it reported, and not before.
  */
  lemma {:induction false} ObservationsConfirm(late: bool, w: World, reports: seq<Report>)
    requires w.evaluator == Confirming(0) && w.marker.Some? && Marked(w).Some?
    requires forall i :: 0 <= i < |reports| ==> TruthfulReport(Marked(w).value.unit, reports[i])
    ensures var e := Run(Gated(late), w, Observations(reports)).evaluator;
            && Run(Gated(late), w, Observations(reports)) == w.(evaluator := e)
            && (e.Probing? || e == Confirming(if reports != [] && !reports[|reports| - 1].Dirty? then 1 else 0))
            && (e.Probing? <==> exists i :: CleanTwice(Answers(reports), i))
            && (e.Probing? ==> exists i :: FirstCleanTwice(reports, i) && e.absent == reports[i].NotFound?)
  {
    if reports == [] {
      assert Observations(reports) == [];
    } else {
      var n := |reports| - 1;
      var init, last := reports[..n], reports[n];
      ObservationsConfirm(late, w, init);
      assert Observations(reports)[..n] == Observations(init);
      var before := Run(Gated(late), w, Observations(init));
      assert Step(Gated(late), before, Observe(last)) == Run(Gated(late), w, Observations(reports));
      EarlierTwice(reports);
      if before.evaluator.Probing? {
        var i :| FirstCleanTwice(init, i) && before.evaluator.absent == init[i].NotFound?;
        assert FirstCleanTwice(reports, i) && reports[i] == init[i];
      } else if CleanTwice(Answers(reports), n) {
        assert FirstCleanTwice(reports, n);
      }
    }
  }

  lemma EarlierTwice(reports: seq<Report>)
    requires reports != []
    ensures forall i :: i < |reports| - 1 ==>
              (CleanTwice(Answers(reports[..|reports| - 1]), i) <==> CleanTwice(Answers(reports), i))
  {
  }

  /** A world in the middle of the invocation `w.next`. */
  function Midway(w: World, poison: Poison, s: Sandbox, e: Evaluator): World
  {
    World(Some(poison), w.sandboxes[w.next := s], e, w.next + 1)
  }

  /** The steps of an invocation that nothing disturbs, with those of the gate, the launcher and the unit. */
  function Beginning(run: RunId, pid: nat, start: nat): seq<Action>
  {
    [Arm, BindGate, Launch(pid, start), ReadGate(run), Identify, Release]
  }

  function Middle(run: RunId): seq<Action>
  {
    [ReadGate(run), RequestUnit(run), StartUnit(run), ConfirmActive, IdentifyUnit]
  }

  function Reaping(run: RunId): seq<Action> { [Close, EndMain(run), Empty(run), Die(run), Reap] }

  function Ending(run: RunId): seq<Action>
  {
    [Observe(LoadedClean), Collect(run), Observe(NotFound), Disarm]
  }

  lemma MovesMidway(system: System, w: World, poison: Poison, s: Sandbox, e: Evaluator, a: Action, t: Sandbox)
    requires IsElsewhere(a) && a.run == w.next && t == Moved(system.late, s, a)
    ensures Step(system, Midway(w, poison, s, e), a) == Midway(w, poison, t, e)
  {
    hide Moved;
    assert w.sandboxes[w.next := s][w.next := t] == w.sandboxes[w.next := t];
  }

  /** The steps that move the evaluator alone. */
  predicate GoesOn(run: RunId, s: Sandbox, e: Evaluator, a: Action, next: Evaluator)
  {
    || (e == Released(run) && a == ConfirmActive && s.unit.Running? && next == UnitActive(run))
    || (e == Serving(run) && a == Close && next == Closing(run))
    || (e == Closing(run) && a == Reap && s.process.Dead? && next == Reaped(run, 0))
    || (e == Reaped(run, 0) && CleanReport(a) && TruthfulReport(s.unit, a.report) && next == Reaped(run, 1))
    || (e == Reaped(run, 1) && CleanReport(a) && TruthfulReport(s.unit, a.report) && next == Confirmed(run))
  }

  lemma GoesOnMidway(system: System, w: World, poison: Poison, s: Sandbox, e: Evaluator, a: Action, next: Evaluator)
    requires GoesOn(w.next, s, e, a, next)
    ensures Step(system, Midway(w, poison, s, e), a) == Midway(w, poison, s, next)
  {
  }

  lemma MarksMidway(system: System, w: World, s: Sandbox)
    ensures var run, launcher := w.next, Some(Launcher(s.pid, Some(s.start)));
            && Step(system, Midway(w, Poison(run, false, None, false), s, Armed(run)), BindGate)
               == Midway(w, Poison(run, true, None, false), s, Bound(run))
            && Step(system, Midway(w, Poison(run, true, None, false), s, Launched(run)), Identify)
               == Midway(w, Poison(run, true, launcher, false), s, Identified(run))
            && Step(system, Midway(w, Poison(run, true, launcher, false), s, UnitActive(run)), IdentifyUnit)
               == Midway(w, Poison(run, true, launcher, true), s, Serving(run))
  {
  }

  lemma TouchesMidway(system: System, w: World, poison: Poison, s: Sandbox, pid: nat, start: nat)
    ensures Step(system, Midway(w, poison, s, Bound(w.next)), Launch(pid, start))
            == Midway(w, poison, Sandbox(AtGate, Held, NotStarted, pid, start), Launched(w.next))
    ensures Step(system, Midway(w, poison, s, Identified(w.next)), Release)
            == Midway(w, poison, s.(pipe := Token), Released(w.next))
  {
    var run, launched := w.next, Sandbox(AtGate, Held, NotStarted, pid, start);
    assert w.sandboxes[run := s][run := launched] == w.sandboxes[run := launched];
    assert w.sandboxes[run := s][run := s.(pipe := Token)] == w.sandboxes[run := s.(pipe := Token)];
  }

  lemma Begins(system: System, w: World, pid: nat, start: nat)
    requires w.evaluator.Ready? && w.marker.None?
    ensures Run(system, w, Beginning(w.next, pid, start))
            == Midway(w, Poison(w.next, true, Some(Launcher(pid, Some(start))), false),
                      Sandbox(AtGate, Token, NotStarted, pid, start), Released(w.next))
  {
    var run := w.next;
    var armed, known := Poison(run, false, None, false), Poison(run, true, Some(Launcher(pid, Some(start))), false);
    var bound := Poison(run, true, None, false);
    var s0, s1 := Sandbox(NotLaunched, Unopened, NotStarted, 0, 0), Sandbox(AtGate, Held, NotStarted, pid, start);
    var w1 := Midway(w, armed, s0, Armed(run));
    assert Step(system, w, Arm) == w1;
    hide Step;
    MarksMidway(system, w, s0);
    MarksMidway(system, w, s1);
    TouchesMidway(system, w, bound, s0, pid, start);
    MovesMidway(system, w, bound, s1, Launched(run), ReadGate(run), s1);
    TouchesMidway(system, w, known, s1, pid, start);
    Follows(system, [w, w1, Midway(w, bound, s0, Bound(run)), Midway(w, bound, s1, Launched(run)),
                     Midway(w, bound, s1, Launched(run)), Midway(w, known, s1, Identified(run)),
                     Midway(w, known, s1.(pipe := Token), Released(run))],
            Beginning(w.next, pid, start));
  }

  lemma Works(system: System, w: World, pid: nat, start: nat)
    ensures var known := Poison(w.next, true, Some(Launcher(pid, Some(start))), false);
            Run(system, Midway(w, known, Sandbox(AtGate, Token, NotStarted, pid, start), Released(w.next)),
                Middle(w.next))
            == Midway(w, known.(unitKnown := true), Sandbox(AtCommand, Token, Running, pid, start), Serving(w.next))
  {
    var run, e := w.next, Released(w.next);
    var known := Poison(run, true, Some(Launcher(pid, Some(start))), false);
    var s0, s1 := Sandbox(AtGate, Token, NotStarted, pid, start), Sandbox(AtCommand, Token, NotStarted, pid, start);
    var s2, s3 := s1.(unit := Requested), s1.(unit := Running);
    hide Step, Run, Midway;
    MovesMidway(system, w, known, s0, e, ReadGate(run), s1);
    MovesMidway(system, w, known, s1, e, RequestUnit(run), s2);
    MovesMidway(system, w, known, s2, e, StartUnit(run), s3);
    GoesOnMidway(system, w, known, s3, e, ConfirmActive, UnitActive(run));
    MarksMidway(system, w, s3);
    Follows(system, [Midway(w, known, s0, e), Midway(w, known, s1, e), Midway(w, known, s2, e), Midway(w, known, s3, e),
                     Midway(w, known, s3, UnitActive(run)), Midway(w, known.(unitKnown := true), s3, Serving(run))],
            Middle(run));
  }

  lemma Disarms(system: System, w: World, poison: Poison, s: Sandbox)
    requires poison.run == w.next
    ensures Step(system, Midway(w, poison, s, Confirmed(w.next)), Disarm)
            == World(None, w.sandboxes[w.next := s], Idle, w.next + 1)
  {
  }

  lemma Reaps(system: System, w: World, poison: Poison, s: Sandbox)
    requires poison.run == w.next && s.process.AtCommand? && s.unit.Running?
    ensures Run(system, Midway(w, poison, s, Serving(w.next)), Reaping(w.next))
            == Midway(w, poison, s.(process := Dead, unit := Stopped), Reaped(w.next, 0))
  {
    var run := w.next;
    var s2, s3 := s.(unit := Stopping), s.(unit := Stopped);
    var s4 := s.(process := Dead, unit := Stopped);
    hide Step, Run, Midway;
    GoesOnMidway(system, w, poison, s, Serving(run), Close, Closing(run));
    MovesMidway(system, w, poison, s, Closing(run), EndMain(run), s2);
    MovesMidway(system, w, poison, s2, Closing(run), Empty(run), s3);
    MovesMidway(system, w, poison, s3, Closing(run), Die(run), s4);
    GoesOnMidway(system, w, poison, s4, Closing(run), Reap, Reaped(run, 0));
    Follows(system, [Midway(w, poison, s, Serving(run)), Midway(w, poison, s, Closing(run)),
                     Midway(w, poison, s2, Closing(run)), Midway(w, poison, s3, Closing(run)),
                     Midway(w, poison, s4, Closing(run)), Midway(w, poison, s4, Reaped(run, 0))], Reaping(run));
  }

  lemma Ends(system: System, w: World, poison: Poison, s: Sandbox)
    requires poison.run == w.next && s.unit.Stopped?
    ensures Run(system, Midway(w, poison, s, Reaped(w.next, 0)), Ending(w.next))
            == World(None, w.sandboxes[w.next := s.(unit := Collected)], Idle, w.next + 1)
  {
    var run, gone := w.next, s.(unit := Collected);
    hide Step, Run, Midway;
    GoesOnMidway(system, w, poison, s, Reaped(run, 0), Observe(LoadedClean), Reaped(run, 1));
    MovesMidway(system, w, poison, s, Reaped(run, 1), Collect(run), gone);
    GoesOnMidway(system, w, poison, gone, Reaped(run, 1), Observe(NotFound), Confirmed(run));
    Disarms(system, w, poison, gone);
    Follows(system, [Midway(w, poison, s, Reaped(run, 0)), Midway(w, poison, s, Reaped(run, 1)),
                     Midway(w, poison, gone, Reaped(run, 1)), Midway(w, poison, gone, Confirmed(run)),
                     World(None, w.sandboxes[run := gone], Idle, run + 1)], Ending(run));
  }

  /**
   An invocation that nothing disturbs: it can always go through, and it leaves no marker, its sandbox
   over and everything else as it was. A gate that reads before the token is there waits for it.
  */
  lemma UndisturbedInvocation(system: System, w: World, pid: nat, start: nat)
    requires w.evaluator.Ready? && w.marker.None?
    ensures Run(system, w, Beginning(w.next, pid, start) + Middle(w.next) + Reaping(w.next) + Ending(w.next))
            == World(None, w.sandboxes[w.next := Sandbox(Dead, Token, Collected, pid, start)], Idle, w.next + 1)
  {
    hide Run;
    var known := Poison(w.next, true, Some(Launcher(pid, Some(start))), true);
    var served := Sandbox(AtCommand, Token, Running, pid, start);
    Compose(system, w, Beginning(w.next, pid, start), Middle(w.next));
    Compose(system, w, Beginning(w.next, pid, start) + Middle(w.next), Reaping(w.next));
    Compose(system, w, Beginning(w.next, pid, start) + Middle(w.next) + Reaping(w.next), Ending(w.next));
    Begins(system, w, pid, start);
    Works(system, w, pid, start);
    Reaps(system, w, known, served);
    Ends(system, w, known, served.(process := Dead, unit := Stopped));
  }

  /** A gate whose pipe is closed without the token ends when it reads; it never waits for ever. */
  lemma AbandonedGateEnds(system: System, w: World, run: RunId)
    requires (w.evaluator == Launched(run) || w.evaluator == Identified(run)) && run in w.sandboxes
    requires w.sandboxes[run].process.AtGate? && w.sandboxes[run].pipe.Held?
    ensures var after := Run(system, w, [Stop, ReadGate(run)]);
            run in after.sandboxes && after.sandboxes[run].process.Dead? && after.marker == w.marker
  {
    var stopped := Step(system, w, Stop);
    var after := Step(system, stopped, ReadGate(run));
    assert after.sandboxes[run].process.Dead? && after.marker == w.marker;
    hide Step;
    Follows(system, [w, stopped, after], [Stop, ReadGate(run)]);
  }
}
