/**
 The life of sandboxes over any number of invocations: the durable marker, the launch gate, the systemd
 unit, and the recovery that decides from observations whether an earlier sandbox is gone.

 A run is a list of actions of the evaluator, the gate process, the launcher and the unit, in any
 order; an action that is not possible changes nothing. `Stop` is a crash or an exception, possible
 after every step: it drops the lock and closes the gate pipe. Marker updates are single steps.

 Assumed of the system: a process that is there is found; a unit that has processes is not reported
 clean, and systemd keeps it loaded; unit names and commands, and so their digests, are never used
 twice. Whether systemd may start a unit whose launcher died after asking for it is a parameter.
*/
module CrashRecovery {
  import opened Options

  type RunId = nat

  datatype Process = NotLaunched | AtGate | AtCommand | Dead
  /** The gate pipe: no writer yet, held by the evaluator, holding the token, or closed without it. */
  datatype Pipe = Unopened | Held | Token | Eof
  /**
   `Requested` is a start that the launcher has asked for and systemd has not carried out. `Stopping` has
   lost its main process but not all of its processes.
  */
  datatype Unit = NotStarted | Requested | Running | Stopping | Stopped | Collected
  datatype Sandbox = Sandbox(process: Process, pipe: Pipe, unit: Unit, pid: nat, start: nat)

  datatype Launcher = Launcher(pid: nat, start: Option<nat>)
  /** The marker: whose it is, whether the gate digest is bound, and the launcher once identified. */
  datatype Poison = Poison(run: RunId, gate: bool, launcher: Option<Launcher>, unitKnown: bool)

  datatype Evaluator =
    | Idle | Locked
    // Recovery.
    | Scanning(first: bool) | Confirming(clean: nat) | Probing(absent: bool) | Mounts | Clearing | Ready
    // An invocation.
    | Armed(run: RunId) | Bound(run: RunId) | Launched(run: RunId) | Identified(run: RunId) | Released(run: RunId)
    | UnitActive(run: RunId) | Serving(run: RunId) | Closing(run: RunId) | Reaped(run: RunId, quiet: nat)
    | Confirmed(run: RunId)

  datatype World = World(marker: Option<Poison>, sandboxes: map<RunId, Sandbox>, evaluator: Evaluator, next: RunId)

  datatype Report = NotFound | LoadedClean | Dirty

  datatype Action =
    // The evaluator.
    | Stop
    | Lock
    | Read(sameBinding: bool)
    | Scan(found: bool)
    | Observe(report: Report)
    | LookUp(startTime: Option<nat>)
    | CheckMount(fits: bool)
    | Clear
    | Arm
    | BindGate
    | Launch(pid: nat, start: nat)
    | Identify
    | Release
    | ConfirmActive
    | IdentifyUnit
    | Close
    | Reap
    | Disarm
    // The rest of the system.
    | ReadGate(run: RunId)
    | Die(run: RunId)
    | RequestUnit(run: RunId)
    | StartUnit(run: RunId)
    | EndMain(run: RunId)
    | Empty(run: RunId)
    | Collect(run: RunId)

  const INITIAL := World(None, map[], Idle, 0)

  // ---------- Liveness ----------

  predicate Alive(p: Process) { p.AtGate? || p.AtCommand? }

  predicate UnitLive(u: Unit) { u.Running? || u.Stopping? }

  /** A gate process, launcher or unit of the invocation is there. */
  predicate Live(s: Sandbox) { Alive(s.process) || UnitLive(s.unit) }

  // ---------- What can be observed ----------

  predicate TruthfulReport(u: Unit, report: Report)
  {
    match report
    case NotFound => u.NotStarted? || u.Requested? || u.Collected?
    case LoadedClean => u.Stopped?
    case Dirty => true
  }

  /** The order of the two scans; the code scans for the gate digest first. */
  datatype Order = GateFirst | CommandFirst

  /** `late` lets systemd carry out a start request after the launcher that made it has died. */
  datatype System = System(order: Order, late: bool)

  function Gated(late: bool): System { System(GateFirst, late) }

  const CODE := Gated(false)
  const LATE := Gated(true)
  const BACKWARDS := System(CommandFirst, false)

  /** What a scan looks for; a gate digest that was never bound is not looked for. */
  predicate Scanned(order: Order, first: bool, poison: Poison, s: Sandbox)
  {
    if (order == GateFirst) == first then poison.gate && s.process.AtGate? else s.process.AtCommand?
  }

  predicate Clean(report: Option<Report>) { report.Some? && !report.value.Dirty? }

  /** The observation at `i` and the one before it are both clean. */
  predicate CleanTwice(reports: seq<Option<Report>>, i: int)
  {
    0 < i < |reports| && Clean(reports[i - 1]) && Clean(reports[i])
  }

  /**
   `confirm_unit_clean`, given the observations it makes up to its deadline, None for one that failed:
   it ends at the first that is clean right after a clean one, and otherwise gives up.
  */
  method ConfirmUnitClean(reports: seq<Option<Report>>) returns (state: Option<Report>)
    ensures state.None? <==> forall i :: 0 <= i < |reports| ==> !CleanTwice(reports, i)
    ensures state.Some? ==>
              exists i :: CleanTwice(reports, i) && state == reports[i]
                          && forall j :: 0 <= j < i ==> !CleanTwice(reports, j)
  {
    var consecutive := 0;
    for i := 0 to |reports|
      invariant consecutive == if i > 0 && Clean(reports[i - 1]) then 1 else 0
      invariant forall j :: 0 <= j < i ==> !CleanTwice(reports, j)
    {
      consecutive := if Clean(reports[i]) then consecutive + 1 else 0;
      if consecutive >= 2 {
        assert CleanTwice(reports, i);
        return reports[i];
      }
    }
    state := None;
  }

  // ---------- Steps ----------

  function Marked(w: World): Option<Sandbox>
  {
    if w.marker.Some? && w.marker.value.run in w.sandboxes then Some(w.sandboxes[w.marker.value.run]) else None
  }

  function Put(w: World, run: RunId, s: Sandbox): World { w.(sandboxes := w.sandboxes[run := s]) }

  /** The evaluator goes away: the lock is dropped and an open gate pipe is closed. */
  function Abandon(w: World): World
  {
    var e := w.evaluator;
    var gone := w.(evaluator := Idle);
    if (e.Launched? || e.Identified?) && e.run in w.sandboxes && w.sandboxes[e.run].pipe.Held?
    then Put(gone, e.run, w.sandboxes[e.run].(pipe := Eof)) else gone
  }

  /** The steps of `recover`, each a read of the system followed by going on or refusing. */
  function Recover(order: Order, w: World, a: Action): World
  {
    if w.marker.None? || Marked(w).None? then w else
    var poison, s := w.marker.value, Marked(w).value;
    match (w.evaluator, a)
    case (Locked, Read(same)) => w.(evaluator := if same then Scanning(true) else Idle)
    case (Scanning(first), Scan(found)) =>
      if Scanned(order, first, poison, s) && !found then w
      else w.(evaluator := if found then Idle else if first then Scanning(false) else Confirming(0))
    case (Confirming(clean), Observe(report)) =>
      if !TruthfulReport(s.unit, report) then w
      else if report.Dirty? then w.(evaluator := Confirming(0))
      else if clean == 0 then w.(evaluator := Confirming(1))
      else w.(evaluator := Probing(report.NotFound?))
    case (Probing(absent), LookUp(startTime)) =>
      if poison.launcher.None? then w.(evaluator := if absent then Mounts else Idle) else
      var l := poison.launcher.value;
      if Alive(s.process) && s.pid == l.pid && startTime != Some(s.start) then w
      else if l.start.None? then w.(evaluator := if startTime.None? && absent then Mounts else Idle)
      else w.(evaluator := if startTime == l.start then Idle else Mounts)
    case (Mounts, CheckMount(fits)) => w.(evaluator := if fits then Clearing else Idle)
    case (Clearing, Clear) => w.(marker := None, evaluator := Ready)
    case _ => w
  }

  /** The steps of `run_agent` from arming the marker to clearing it. */
  function Invoke(w: World, a: Action): World
  {
    match (w.evaluator, a)
    case (Ready, Arm) =>
      if w.marker.Some? then w else
      World(Some(Poison(w.next, false, None, false)),
            w.sandboxes[w.next := Sandbox(NotLaunched, Unopened, NotStarted, 0, 0)],
            Armed(w.next), w.next + 1)
    case (Armed(run), BindGate) =>
      if w.marker.None? || w.marker.value.run != run then w
      else w.(marker := Some(w.marker.value.(gate := true)), evaluator := Bound(run))
    case (Bound(run), Launch(pid, start)) =>
      if run !in w.sandboxes then w
      else Put(w, run, Sandbox(AtGate, Held, NotStarted, pid, start)).(evaluator := Launched(run))
    case (Launched(run), Identify) =>
      if w.marker.None? || w.marker.value.run != run || run !in w.sandboxes then w
      else
        var s := w.sandboxes[run];
        var launcher := Some(Launcher(s.pid, Some(s.start)));
        w.(marker := Some(w.marker.value.(launcher := launcher)), evaluator := Identified(run))
    case (Identified(run), Release) =>
      if run !in w.sandboxes then w else Put(w, run, w.sandboxes[run].(pipe := Token)).(evaluator := Released(run))
    case (Released(run), ConfirmActive) =>
      if run !in w.sandboxes || !w.sandboxes[run].unit.Running? then w else w.(evaluator := UnitActive(run))
    case (UnitActive(run), IdentifyUnit) =>
      if w.marker.None? || w.marker.value.run != run then w
      else w.(marker := Some(w.marker.value.(unitKnown := true)), evaluator := Serving(run))
    case (Serving(run), Close) => w.(evaluator := Closing(run))
    case (Closing(run), Reap) =>
      if run !in w.sandboxes || !w.sandboxes[run].process.Dead? then w else w.(evaluator := Reaped(run, 0))
    case (Reaped(run, quiet), Observe(report)) =>
      if run !in w.sandboxes || !TruthfulReport(w.sandboxes[run].unit, report) then w
      else if report.Dirty? then w.(evaluator := Reaped(run, 0))
      else if quiet == 0 then w.(evaluator := Reaped(run, 1))
      else w.(evaluator := Confirmed(run))
    case (Confirmed(run), Disarm) =>
      if w.marker.None? || w.marker.value.run != run then w else w.(marker := None, evaluator := Idle)
    case _ => w
  }

  /** The gate process, the launcher it becomes, and the unit. */
  function Elsewhere(late: bool, w: World, run: RunId, a: Action): World
  {
    if run in w.sandboxes then Put(w, run, Moved(late, w.sandboxes[run], a)) else w
  }

  function Moved(late: bool, s: Sandbox, a: Action): Sandbox
  {
    match a
    case ReadGate(_) =>
      if s.process.AtGate? && s.pipe.Token? then s.(process := AtCommand)
      else if s.process.AtGate? && s.pipe.Eof? then s.(process := Dead)
      else s
    case Die(_) => if Alive(s.process) then s.(process := Dead) else s
    case RequestUnit(_) => if s.process.AtCommand? && s.unit.NotStarted? then s.(unit := Requested) else s
    case StartUnit(_) => if s.unit.Requested? && (late || s.process.AtCommand?) then s.(unit := Running) else s
    case EndMain(_) => if s.unit.Running? then s.(unit := Stopping) else s
    case Empty(_) => if s.unit.Stopping? then s.(unit := Stopped) else s
    case Collect(_) => if s.unit.Stopped? then s.(unit := Collected) else s
    case _ => s
  }

  predicate IsElsewhere(a: Action)
  {
    a.ReadGate? || a.Die? || a.RequestUnit? || a.StartUnit? || a.EndMain? || a.Empty? || a.Collect?
  }

  function Step(system: System, w: World, a: Action): World
  {
    match a
    case Stop => Abandon(w)
    case Lock => if w.evaluator.Idle? then w.(evaluator := if w.marker.None? then Ready else Locked) else w
    case Read(_) => Recover(system.order, w, a)
    case Scan(_) => Recover(system.order, w, a)
    case LookUp(_) => Recover(system.order, w, a)
    case CheckMount(_) => Recover(system.order, w, a)
    case Clear => Recover(system.order, w, a)
    case Observe(_) => if w.evaluator.Confirming? then Recover(system.order, w, a) else Invoke(w, a)
    case ReadGate(run) => Elsewhere(system.late, w, run, a)
    case Die(run) => Elsewhere(system.late, w, run, a)
    case RequestUnit(run) => Elsewhere(system.late, w, run, a)
    case StartUnit(run) => Elsewhere(system.late, w, run, a)
    case EndMain(run) => Elsewhere(system.late, w, run, a)
    case Empty(run) => Elsewhere(system.late, w, run, a)
    case Collect(run) => Elsewhere(system.late, w, run, a)
    case _ => Invoke(w, a)
  }

  function Run(system: System, w: World, actions: seq<Action>): World
    decreases |actions|
  {
    if actions == [] then w else Step(system, Run(system, w, actions[..|actions| - 1]), actions[|actions| - 1])
  }

  // ---------- What every step keeps ----------

  /** One sandbox by itself. */
  predicate WellFormed(s: Sandbox)
  {
    && (s.process.NotLaunched? <==> s.pipe.Unopened?)
    && (s.process.AtCommand? ==> s.pipe.Token?)
    && (!s.unit.NotStarted? ==> s.pipe.Token?)
  }

  /** It is over: its processes are, and its unit is unless late starts are possible. */
  predicate Over(late: bool, s: Sandbox)
  {
    !Alive(s.process) && (late || !UnitLive(s.unit))
  }

  /** The marker knows what it must know about the sandbox it names. */
  predicate Known(poison: Poison, s: Sandbox)
  {
    && (!s.process.NotLaunched? ==> poison.gate)
    && (s.pipe.Token? ==> poison.launcher.Some?)
    && (poison.launcher.Some? ==> poison.launcher.value == Launcher(s.pid, Some(s.start)) && !s.process.NotLaunched?)
  }

  /** The start that the launcher asked for was carried out; nobody asks again. */
  predicate Started(u: Unit) { !u.NotStarted? && !u.Requested? }

  /** What the evaluator's place says about the sandbox that the marker names. */
  predicate Placed(late: bool, e: Evaluator, poison: Poison, s: Sandbox)
  {
    && (s.pipe.Held? ==> (e.Launched? || e.Identified?) && e.run == poison.run)
    && match e
       case Idle => true
       case Locked => true
       case Scanning(first) => !first ==> !s.process.AtGate?
       case Confirming(clean) => !Alive(s.process) && (clean > 0 ==> Over(late, s))
       case Probing(_) => Over(late, s)
       case Mounts => Over(late, s)
       case Clearing => Over(late, s)
       case Ready => false
       case Armed(run) => run == poison.run && s.process.NotLaunched? && poison.launcher.None?
       case Bound(run) => run == poison.run && s.process.NotLaunched? && poison.launcher.None? && poison.gate
       case Launched(run) => run == poison.run && s.pipe.Held? && poison.launcher.None?
       case Identified(run) => run == poison.run && s.pipe.Held? && poison.launcher.Some?
       case Released(run) => run == poison.run && s.pipe.Token?
       case UnitActive(run) => run == poison.run && s.pipe.Token? && Started(s.unit)
       case Serving(run) => run == poison.run && s.pipe.Token? && Started(s.unit)
       case Closing(run) => run == poison.run && s.pipe.Token? && Started(s.unit)
       case Reaped(run, quiet) =>
         run == poison.run && s.process.Dead? && Started(s.unit) && (quiet > 0 ==> !UnitLive(s.unit))
       case Confirmed(run) => run == poison.run && s.process.Dead? && Started(s.unit) && !UnitLive(s.unit)
  }

  /** With no marker, no evaluator is inside an invocation or a recovery. */
  predicate Free(e: Evaluator) { e.Idle? || e.Ready? }

  /** The marker names this invocation. */
  predicate Names(w: World, run: RunId) { w.marker.Some? && w.marker.value.run == run }

  predicate Inv(late: bool, w: World)
  {
    && (forall r :: r in w.sandboxes ==> r < w.next && WellFormed(w.sandboxes[r]))
    && (forall r :: r in w.sandboxes && !Names(w, r) ==> Over(late, w.sandboxes[r]) && !w.sandboxes[r].pipe.Held?)
    && (if w.marker.None? then Free(w.evaluator)
        else
          && Marked(w).Some? && Known(w.marker.value, Marked(w).value)
          && Placed(late, w.evaluator, w.marker.value, Marked(w).value))
  }

  lemma RecoverKeepsInv(late: bool, w: World, a: Action)
    requires Inv(late, w)
    ensures Inv(late, Recover(GateFirst, w, a))
  {
  }

  /** The steps that change a sandbox as well as the evaluator. */
  predicate Touches(a: Action) { a.Arm? || a.Launch? || a.Release? }

  lemma TouchKeepsInv(late: bool, w: World, a: Action)
    requires Inv(late, w) && Touches(a)
    ensures Inv(late, Invoke(w, a))
  {
  }

  /** The steps that write the marker. */
  predicate Marks(a: Action) { a.BindGate? || a.Identify? || a.IdentifyUnit? || a.Disarm? }

  lemma MarkKeepsInv(late: bool, w: World, a: Action)
    requires Inv(late, w) && Marks(a)
    ensures Inv(late, Invoke(w, a))
  {
  }

  /** The steps that only move the evaluator. */
  lemma GoOnKeepsInv(late: bool, w: World, a: Action)
    requires Inv(late, w) && !Touches(a) && !Marks(a)
    ensures Inv(late, Invoke(w, a))
  {
    hide WellFormed, Known;
  }

  lemma InvokeKeepsInv(late: bool, w: World, a: Action)
    requires Inv(late, w)
    ensures Inv(late, Invoke(w, a))
  {
    hide Inv, Invoke;
    if Touches(a) {
      TouchKeepsInv(late, w, a);
    } else if Marks(a) {
      MarkKeepsInv(late, w, a);
    } else {
      GoOnKeepsInv(late, w, a);
    }
  }

  lemma MovedKeeps(late: bool, s: Sandbox, a: Action)
    requires WellFormed(s)
    ensures var t := Moved(late, s, a);
            && WellFormed(t) && (Over(late, s) ==> Over(late, t)) && (t.pipe == s.pipe)
            && (Alive(t.process) ==> Alive(s.process))
            && (s.process.NotLaunched? <==> t.process.NotLaunched?)
  {
  }

  lemma MovedKeepsPlace(late: bool, e: Evaluator, poison: Poison, s: Sandbox, a: Action)
    requires WellFormed(s) && Known(poison, s) && Placed(late, e, poison, s)
    ensures Known(poison, Moved(late, s, a)) && Placed(late, e, poison, Moved(late, s, a))
  {
  }

  lemma ElsewhereKeepsInv(late: bool, w: World, run: RunId, a: Action)
    requires Inv(late, w)
    ensures Inv(late, Elsewhere(late, w, run, a))
  {
    hide WellFormed, Known, Placed, Over, Moved;
    if run in w.sandboxes {
      MovedKeeps(late, w.sandboxes[run], a);
      if Names(w, run) { MovedKeepsPlace(late, w.evaluator, w.marker.value, w.sandboxes[run], a); }
    }
  }

  lemma StepKeepsInv(late: bool, w: World, a: Action)
    requires Inv(late, w)
    ensures Inv(late, Step(Gated(late), w, a))
  {
    RecoverKeepsInv(late, w, a);
    InvokeKeepsInv(late, w, a);
    if IsElsewhere(a) { ElsewhereKeepsInv(late, w, a.run, a); }
    hide Recover, Invoke, Elsewhere;
    if a.Stop? { AbandonKeepsInv(late, w); }
  }

  lemma AbandonKeepsInv(late: bool, w: World)
    requires Inv(late, w)
    ensures Inv(late, Abandon(w))
  {
  }

  lemma {:induction false} RunKeepsInv(late: bool, actions: seq<Action>)
    ensures Inv(late, Run(Gated(late), INITIAL, actions))
  {
    if actions != [] {
      RunKeepsInv(late, actions[..|actions| - 1]);
      StepKeepsInv(late, Run(Gated(late), INITIAL, actions[..|actions| - 1]), actions[|actions| - 1]);
    }
  }

  // ---------- Safety over whole runs ----------

  /**
   At most one sandbox is live, and the marker names it and knows its gate; once the gate has been
   given its token, and so whenever the command or its unit runs, it also knows the launcher's pid and
   start time.
  */
  lemma DangerIsRecorded(actions: seq<Action>, run: RunId)
    requires run in Run(CODE, INITIAL, actions).sandboxes
    ensures var w := Run(CODE, INITIAL, actions);
            var s := w.sandboxes[run];
            && (Live(s) ==> Names(w, run) && w.marker.value.gate)
            && (s.process.AtCommand? || UnitLive(s.unit) || (Live(s) && s.pipe.Token?) ==>
                  Names(w, run) && w.marker.value.launcher == Some(Launcher(s.pid, Some(s.start))))
  {
    RunKeepsInv(false, actions);
  }

  /** The invocation is in the past: the marker names another one, or none. */
  predicate Past(w: World, run: RunId) { run in w.sandboxes && !Names(w, run) }

  lemma StepKeepsPast(late: bool, w: World, a: Action, run: RunId)
    requires Inv(late, w) && Past(w, run)
    ensures Past(Step(Gated(late), w, a), run)
  {
    hide Inv, Recover, Invoke, Elsewhere, Abandon;
    RecoverKeepsPast(w, a, run);
    InvokeKeepsPast(late, w, a, run);
    if IsElsewhere(a) { ElsewhereKeepsPast(late, w, a.run, a, run); }
  }

  lemma RecoverKeepsPast(w: World, a: Action, run: RunId)
    requires Past(w, run)
    ensures Past(Recover(GateFirst, w, a), run) && Past(Abandon(w), run)
  {
  }

  lemma InvokeKeepsPast(late: bool, w: World, a: Action, run: RunId)
    requires Inv(late, w) && Past(w, run)
    ensures Past(Invoke(w, a), run)
  {
  }

  lemma ElsewhereKeepsPast(late: bool, w: World, r: RunId, a: Action, run: RunId)
    requires Past(w, run)
    ensures Past(Elsewhere(late, w, r, a), run)
  {
  }

  lemma {:induction false} PastStaysOver(w: World, run: RunId, more: seq<Action>)
    requires Inv(false, w) && Past(w, run)
    ensures Inv(false, Run(CODE, w, more)) && Past(Run(CODE, w, more), run)
    ensures !Live(Run(CODE, w, more).sandboxes[run])
    decreases |more|
  {
    if more != [] {
      var init, last := more[..|more| - 1], more[|more| - 1];
      PastStaysOver(w, run, init);
      StepKeepsInv(false, Run(CODE, w, init), last);
      StepKeepsPast(false, Run(CODE, w, init), last, run);
    }
  }

  /**
   When an invocation may arm its marker, no gate process, launcher or unit of any earlier invocation
   is there, and none will be whatever happens next.
  */
  lemma ArmingIsSafe(actions: seq<Action>, run: RunId, more: seq<Action>)
    requires Run(CODE, INITIAL, actions).evaluator.Ready? && run in Run(CODE, INITIAL, actions).sandboxes
    ensures var w := Run(CODE, INITIAL, actions);
            && w.marker.None? && !Live(w.sandboxes[run])
            && run in Run(CODE, w, more).sandboxes && !Live(Run(CODE, w, more).sandboxes[run])
  {
    RunKeepsInv(false, actions);
    PastStaysOver(Run(CODE, INITIAL, actions), run, more);
  }

  /** No token was given, and nobody holds the pipe who could give it. */
  predicate Sealed(w: World, run: RunId)
  {
    && run in w.sandboxes && (w.sandboxes[run].pipe.Eof? || w.sandboxes[run].pipe.Unopened?)
    && w.evaluator != Armed(run) && w.evaluator != Bound(run)
  }

  lemma InvokeKeepsSealed(late: bool, w: World, a: Action, run: RunId)
    requires Inv(late, w) && Sealed(w, run)
    ensures Sealed(Invoke(w, a), run)
  {
  }

  lemma ElsewhereKeepsSealed(late: bool, w: World, r: RunId, a: Action, run: RunId)
    requires Sealed(w, run)
    ensures Sealed(Elsewhere(late, w, r, a), run)
  {
  }

  lemma RecoverKeepsSealed(w: World, a: Action, run: RunId)
    requires Sealed(w, run)
    ensures Sealed(Recover(GateFirst, w, a), run) && Sealed(Abandon(w), run)
  {
  }

  lemma StepKeepsSealed(late: bool, w: World, a: Action, run: RunId)
    requires Inv(late, w) && Sealed(w, run)
    ensures Sealed(Step(Gated(late), w, a), run)
  {
    hide Inv, Recover, Invoke, Elsewhere, Abandon;
    RecoverKeepsSealed(w, a, run);
    InvokeKeepsSealed(late, w, a, run);
    if IsElsewhere(a) { ElsewhereKeepsSealed(late, w, a.run, a, run); }
  }

  lemma {:induction false} SealedNeverRuns(late: bool, w: World, run: RunId, more: seq<Action>)
    requires Inv(late, w) && Sealed(w, run)
    ensures Inv(late, Run(Gated(late), w, more)) && Sealed(Run(Gated(late), w, more), run)
    decreases |more|
  {
    if more != [] {
      var init, last := more[..|more| - 1], more[|more| - 1];
      SealedNeverRuns(late, w, run, init);
      StepKeepsInv(late, Run(Gated(late), w, init), last);
      StepKeepsSealed(late, Run(Gated(late), w, init), last, run);
    }
  }

  /**
   If the evaluator stops before it gives the token, the real command never runs and its unit is never
   asked for, whatever the gate process, the system and later evaluators do, late starts included.
  */
  lemma StoppedBeforeTheTokenNeverRuns(late: bool, actions: seq<Action>, run: RunId, more: seq<Action>)
    requires run in Run(Gated(late), INITIAL, actions).sandboxes
    requires !Run(Gated(late), INITIAL, actions).sandboxes[run].pipe.Token?
    ensures var stopped := Step(Gated(late), Run(Gated(late), INITIAL, actions), Stop);
            var w := Run(Gated(late), stopped, more);
            && run in w.sandboxes && !w.sandboxes[run].process.AtCommand? && w.sandboxes[run].unit.NotStarted?
  {
    RunKeepsInv(late, actions);
    var w := Run(Gated(late), INITIAL, actions);
    StepKeepsInv(late, w, Stop);
    SealedNeverRuns(late, Step(Gated(late), w, Stop), run, more);
  }

  // ---------- Late starts ----------

  /** Recovery is about to observe the unit; both scans found the launcher gone. */
  predicate Watching(w: World, run: RunId) { Names(w, run) && w.evaluator == Confirming(0) }

  /** The invocation has seen its unit active. */
  predicate Active(e: Evaluator) { e.UnitActive? || e.Serving? || e.Closing? || e.Reaped? || e.Confirmed? }

  /** The observations are done. */
  predicate Observed(e: Evaluator)
  {
    || e.Probing? || e.Mounts? || e.Clearing? || e.Confirmed?
    || (e.Confirming? && e.clean > 0) || (e.Reaped? && e.quiet > 0)
  }

  /**
   No start of its unit is pending or can be asked for any more; if the unit is up, that was not
   overlooked.
  */
  predicate Quiet(w: World, run: RunId)
  {
    && run in w.sandboxes && !w.sandboxes[run].unit.Requested?
    && (w.sandboxes[run].unit.NotStarted? ==>
          !Alive(w.sandboxes[run].process) && w.evaluator != Armed(run) && w.evaluator != Bound(run))
    && (UnitLive(w.sandboxes[run].unit) ==> Names(w, run) && !Observed(w.evaluator))
  }

  lemma QuietInRecovery(w: World, a: Action, run: RunId)
    requires Quiet(w, run)
    ensures Quiet(Recover(GateFirst, w, a), run)
  {
  }

  lemma QuietWhenAbandoned(w: World, run: RunId)
    requires Quiet(w, run)
    ensures Quiet(Abandon(w), run)
  {
  }

  lemma QuietWhenTouched(w: World, a: Action, run: RunId)
    requires Inv(true, w) && Quiet(w, run) && Touches(a)
    ensures Quiet(Invoke(w, a), run)
  {
  }

  lemma QuietWhenMarked(w: World, a: Action, run: RunId)
    requires Inv(true, w) && Quiet(w, run) && !Touches(a)
    ensures Quiet(Invoke(w, a), run)
  {
    hide WellFormed, Known;
  }

  lemma QuietInInvocation(w: World, a: Action, run: RunId)
    requires Inv(true, w) && Quiet(w, run)
    ensures Quiet(Invoke(w, a), run)
  {
    hide Inv, Quiet, Invoke;
    if Touches(a) { QuietWhenTouched(w, a, run); } else { QuietWhenMarked(w, a, run); }
  }

  lemma QuietElsewhere(w: World, r: RunId, a: Action, run: RunId)
    requires Quiet(w, run)
    ensures Quiet(Elsewhere(true, w, r, a), run)
  {
  }

  lemma StepKeepsQuiet(w: World, a: Action, run: RunId)
    requires Inv(true, w) && Quiet(w, run)
    ensures Quiet(Step(LATE, w, a), run)
  {
    hide Inv, Quiet, Recover, Invoke, Elsewhere, Abandon;
    if w.evaluator.Idle? { LockKeepsQuiet(w, run); }
    QuietWhenAbandoned(w, run);
    QuietInRecovery(w, a, run);
    QuietInInvocation(w, a, run);
    if IsElsewhere(a) { QuietElsewhere(w, a.run, a, run); }
  }

  lemma LockKeepsQuiet(w: World, run: RunId)
    requires Quiet(w, run) && w.evaluator.Idle?
    ensures Quiet(w.(evaluator := if w.marker.None? then Ready else Locked), run)
  {
  }

  lemma {:induction false} QuietStays(w: World, run: RunId, more: seq<Action>)
    requires Inv(true, w) && Quiet(w, run)
    ensures Inv(true, Run(LATE, w, more)) && Quiet(Run(LATE, w, more), run)
    decreases |more|
  {
    if more != [] {
      var init, last := more[..|more| - 1], more[|more| - 1];
      QuietStays(w, run, init);
      StepKeepsInv(true, Run(LATE, w, init), last);
      StepKeepsQuiet(Run(LATE, w, init), last, run);
    }
  }

  /** While it may be live, the marker names it. */
  predicate Accounted(w: World, run: RunId) { run in w.sandboxes && (Live(w.sandboxes[run]) ==> Names(w, run)) }

  lemma QuietIsAccounted(w: World, run: RunId)
    requires Inv(true, w) && Quiet(w, run)
    ensures Accounted(w, run)
  {
  }

  /** With a start pending, clean reports let the marker be cleared, and then the unit starts. */
  function Overlooked(run: RunId): seq<Action>
  {
    [Observe(NotFound), Observe(NotFound), LookUp(None), CheckMount(true), Clear, StartUnit(run)]
  }

  /** A new invocation may arm while the unit is up and nothing records it. */
  predicate StartedUnrecorded(w: World, run: RunId)
  {
    run in w.sandboxes && UnitLive(w.sandboxes[run].unit) && w.marker.None? && w.evaluator.Ready?
  }

  lemma PendingOvertakesRecovery(w: World, run: RunId)
    requires Inv(true, w) && Watching(w, run)
    requires run in w.sandboxes && w.sandboxes[run].unit.Requested?
    ensures StartedUnrecorded(Run(LATE, w, Overlooked(run)), run)
  {
    hide Step, Run, Inv, StartedUnrecorded;
    var w1, w2 := w.(evaluator := Confirming(1)), w.(evaluator := Probing(true));
    var w3, w4 := w.(evaluator := Mounts), w.(evaluator := Clearing);
    var w5 := w.(evaluator := Ready, marker := None);
    WatchedIsKnown(w, run);
    RecoveryPasses(w, run);
    StartsLate(w5, run);
    Follows(LATE, [w, w1, w2, w3, w4, w5, Step(LATE, w5, StartUnit(run))], Overlooked(run));
  }

  lemma WatchedIsKnown(w: World, run: RunId)
    requires Inv(true, w) && Watching(w, run) && run in w.sandboxes && w.sandboxes[run].unit.Requested?
    ensures !Alive(w.sandboxes[run].process) && Known(w.marker.value, w.sandboxes[run]) && w.sandboxes[run].pipe.Token?
  {
  }

  lemma StartsLate(w: World, run: RunId)
    requires run in w.sandboxes && w.sandboxes[run].unit.Requested? && w.marker.None?
    ensures w.evaluator.Ready? ==> StartedUnrecorded(Step(LATE, w, StartUnit(run)), run)
  {
  }

  lemma RecoveryPasses(w: World, run: RunId)
    requires Watching(w, run) && run in w.sandboxes && w.sandboxes[run].unit.Requested?
    requires !Alive(w.sandboxes[run].process) && Known(w.marker.value, w.sandboxes[run])
    requires w.sandboxes[run].pipe.Token?
    ensures Step(LATE, w, Observe(NotFound)) == w.(evaluator := Confirming(1))
    ensures Step(LATE, w.(evaluator := Confirming(1)), Observe(NotFound)) == w.(evaluator := Probing(true))
    ensures Step(LATE, w.(evaluator := Probing(true)), LookUp(None)) == w.(evaluator := Mounts)
    ensures Step(LATE, w.(evaluator := Mounts), CheckMount(true)) == w.(evaluator := Clearing)
    ensures Step(LATE, w.(evaluator := Clearing), Clear) == w.(evaluator := Ready, marker := None)
  {
  }

  /**
   Where systemd may carry out a start request after its launcher died. When recovery begins to observe
   the unit, the sandbox can never be live without the marker naming it, whatever happens from then on,
   if and only if no start request is pending at that moment.
  */
  lemma LateArmingIsSafeIff(actions: seq<Action>, run: RunId)
    requires Watching(Run(LATE, INITIAL, actions), run)
    ensures var w := Run(LATE, INITIAL, actions);
            run in w.sandboxes
            && ((forall more :: Accounted(Run(LATE, w, more), run)) <==> !w.sandboxes[run].unit.Requested?)
  {
    RunKeepsInv(true, actions);
    var w := Run(LATE, INITIAL, actions);
    if w.sandboxes[run].unit.Requested? {
      PendingOvertakesRecovery(w, run);
      assert !Accounted(Run(LATE, w, Overlooked(run)), run);
    } else {
      forall more ensures Accounted(Run(LATE, w, more), run) {
        QuietStays(w, run, more);
        QuietIsAccounted(Run(LATE, w, more), run);
      }
    }
  }

  lemma ActiveIsQuiet(w: World, run: RunId)
    requires Inv(true, w) && Active(w.evaluator) && (Names(w, run) || w.evaluator.run == run)
    ensures Quiet(w, run)
  {
  }

  /**
   Once an invocation has seen its unit active, late starts can do it nothing: the sandbox is never live
   without the marker naming it, through serving, closing, disarming, a crash at any point and the
   recovery after it.
  */
  lemma DisarmingIsSafe(actions: seq<Action>, more: seq<Action>)
    requires Active(Run(LATE, INITIAL, actions).evaluator)
    ensures var w := Run(LATE, INITIAL, actions); Accounted(Run(LATE, w, more), w.evaluator.run)
  {
    RunKeepsInv(true, actions);
    var w := Run(LATE, INITIAL, actions);
    ActiveIsQuiet(w, w.evaluator.run);
    QuietStays(w, w.evaluator.run, more);
    QuietIsAccounted(Run(LATE, w, more), w.evaluator.run);
  }

  /** No start request is pending when recovery begins to observe the unit. */
  predicate Answered(w: World)
  {
    forall run :: run in w.sandboxes && Watching(w, run) ==> !w.sandboxes[run].unit.Requested?
  }

  /** Every sandbox is quiet, or named by the marker and not yet watched. */
  predicate Settled(w: World)
  {
    forall run :: run in w.sandboxes ==> Quiet(w, run) || (Unobserved(w, run) && !Watching(w, run))
  }

  lemma WatchedIsQuiet(w: World, run: RunId)
    requires Inv(true, w) && run in w.sandboxes && Watching(w, run) && Answered(w)
    ensures Quiet(w, run)
  {
  }

  /** Named by the marker, and not observed yet. */
  predicate Unobserved(w: World, run: RunId) { run in w.sandboxes && Names(w, run) && !Observed(w.evaluator) }

  lemma RecoverKeepsUnobserved(w: World, a: Action, run: RunId)
    requires Unobserved(w, run) && !Watching(w, run) && !Active(w.evaluator)
    ensures Unobserved(Recover(GateFirst, w, a), run) && Unobserved(Abandon(w), run)
  {
  }

  lemma InvokeKeepsUnobserved(w: World, a: Action, run: RunId)
    requires Inv(true, w) && Unobserved(w, run) && !Watching(w, run) && !Active(w.evaluator)
    ensures Unobserved(Invoke(w, a), run)
  {
  }

  /** What is named and not observed stays so until it is watched or its unit is seen active. */
  lemma StepKeepsUnobserved(w: World, a: Action, run: RunId)
    requires Inv(true, w) && Unobserved(w, run) && !Watching(w, run) && !Active(w.evaluator)
    ensures Unobserved(Step(LATE, w, a), run)
  {
    hide Inv, Recover, Invoke, Moved, Abandon;
    RecoverKeepsUnobserved(w, a, run);
    InvokeKeepsUnobserved(w, a, run);
  }

  lemma InvokeAdds(w: World, a: Action, run: RunId)
    requires run !in w.sandboxes && run in Invoke(w, a).sandboxes
    ensures var next := Invoke(w, a); next.evaluator == Armed(run) && Names(next, run)
  {
  }

  lemma RecoverAddsNothing(w: World, a: Action)
    ensures Recover(GateFirst, w, a).sandboxes == w.sandboxes && Abandon(w).sandboxes.Keys == w.sandboxes.Keys
  {
  }

  lemma OnlyArmAdds(w: World, a: Action, run: RunId)
    requires run !in w.sandboxes && run in Step(LATE, w, a).sandboxes
    ensures var next := Step(LATE, w, a); next.evaluator == Armed(run) && Names(next, run)
  {
    hide Recover, Invoke, Moved, Abandon;
    RecoverAddsNothing(w, a);
    if run in Invoke(w, a).sandboxes { InvokeAdds(w, a, run); }
  }

  lemma StepKeepsSettled(w: World, a: Action)
    requires Inv(true, w) && Settled(w) && Answered(Step(LATE, w, a))
    ensures Settled(Step(LATE, w, a))
  {
    hide Inv, Step, Quiet, Names, Answered;
    var next := Step(LATE, w, a);
    StepKeepsInv(true, w, a);
    forall run | run in next.sandboxes
      ensures Quiet(next, run) || (Unobserved(next, run) && !Watching(next, run))
    {
      if run !in w.sandboxes {
        OnlyArmAdds(w, a, run);
      } else if Quiet(w, run) {
        StepKeepsQuiet(w, a, run);
      } else {
        if Active(w.evaluator) { ActiveIsQuiet(w, run); }
        StepKeepsUnobserved(w, a, run);
        if Watching(next, run) { WatchedIsQuiet(next, run); }
      }
    }
  }

  lemma {:induction false} RunKeepsSettled(actions: seq<Action>)
    requires forall k :: 0 <= k <= |actions| ==> Answered(Run(LATE, INITIAL, actions[..k]))
    ensures Inv(true, Run(LATE, INITIAL, actions)) && Settled(Run(LATE, INITIAL, actions))
  {
    hide Inv, Step, Settled, Answered;
    RunKeepsInv(true, actions);
    if actions == [] {
      NothingUnsettled();
    } else {
      var init := actions[..|actions| - 1];
      forall k | 0 <= k <= |init| ensures Answered(Run(LATE, INITIAL, init[..k])) {
        assert init[..k] == actions[..k];
      }
      RunKeepsInv(true, init);
      RunKeepsSettled(init);
      assert actions[..|actions|] == actions;
      StepKeepsSettled(Run(LATE, INITIAL, init), actions[|actions| - 1]);
    }
  }

  lemma NothingUnsettled()
    ensures Settled(INITIAL)
  {
  }

  /**
   So with late starts arming is as safe as without them if in the run so far no request was pending
   whenever a recovery began to observe a unit.
  */
  lemma LateArmingIsSafe(actions: seq<Action>, run: RunId, more: seq<Action>)
    requires forall k :: 0 <= k <= |actions| ==> Answered(Run(LATE, INITIAL, actions[..k]))
    requires Run(LATE, INITIAL, actions).evaluator.Ready? && run in Run(LATE, INITIAL, actions).sandboxes
    ensures var w := Run(LATE, INITIAL, actions);
            && w.marker.None? && !Live(w.sandboxes[run])
            && run in Run(LATE, w, more).sandboxes && !Live(Run(LATE, w, more).sandboxes[run])
  {
    var w := Run(LATE, INITIAL, actions);
    RunKeepsSettled(actions);
    hide Inv, Step, Run, Answered, Quiet;
    ReadyIsUnmarked(w);
    QuietPastStays(w, run, more);
    QuietStays(w, run, more);
    QuietIsAccounted(w, run);
    QuietIsAccounted(Run(LATE, w, more), run);
  }

  lemma ReadyIsUnmarked(w: World)
    requires Inv(true, w) && w.evaluator.Ready?
    ensures w.marker.None?
  {
  }

  lemma {:induction false} QuietPastStays(w: World, run: RunId, more: seq<Action>)
    requires Inv(true, w) && Quiet(w, run) && Past(w, run)
    ensures Quiet(Run(LATE, w, more), run) && Past(Run(LATE, w, more), run)
    decreases |more|
  {
    hide Inv, Quiet, Past, Step;
    QuietStays(w, run, more);
    if more != [] {
      var init, last := more[..|more| - 1], more[|more| - 1];
      QuietPastStays(w, run, init);
      QuietStays(w, run, init);
      StepKeepsPast(true, Run(LATE, w, init), last, run);
    }
  }

  // ---------- The order of the scans ----------

  /** An evaluator crashes just after giving the token, and the next one recovers. */
  const TO_LAUNCH: seq<Action> := [Lock, Arm, BindGate, Launch(7, 1)]
  const TO_SCANS: seq<Action> := [Identify, Release, Stop, Lock, Read(true)]
  /** The gate becomes the command between the scans; its unit starts late, and the launcher is gone by the look-up. */
  const SCANS: seq<Action> := [Scan(false), ReadGate(0), Scan(false), Observe(NotFound), Observe(NotFound)]
  const TO_START: seq<Action> := [RequestUnit(0), StartUnit(0), Die(0)]
  const TO_READY: seq<Action> := [LookUp(None), CheckMount(true), Clear]

  lemma {:induction false} Follows(system: System, ws: seq<World>, actions: seq<Action>)
    requires |ws| == |actions| + 1 && forall i :: 0 <= i < |actions| ==> ws[i + 1] == Step(system, ws[i], actions[i])
    ensures Run(system, ws[0], actions) == ws[|actions|]
    decreases |actions|
  {
    if actions != [] { Follows(system, ws[..|actions|], actions[..|actions| - 1]); }
  }

  lemma {:induction false} Compose(system: System, w: World, a: seq<Action>, b: seq<Action>)
    ensures Run(system, w, a + b) == Run(system, Run(system, w, a), b)
    decreases |b|
  {
    if b == [] {
      assert a + b == a;
    } else {
      assert (a + b)[..|a + b| - 1] == a + b[..|b| - 1];
      Compose(system, w, a, b[..|b| - 1]);
    }
  }

  const LAUNCHER := Some(Launcher(7, Some(1)))
  const LAUNCHED := World(Some(Poison(0, true, None, false)), map[0 := Sandbox(AtGate, Held, NotStarted, 7, 1)],
                          Launched(0), 1)
  const RELEASED := World(Some(Poison(0, true, LAUNCHER, false)), map[0 := Sandbox(AtGate, Token, NotStarted, 7, 1)],
                          Released(0), 1)
  const CRASHED := World(Some(Poison(0, true, LAUNCHER, false)), map[0 := Sandbox(AtGate, Token, NotStarted, 7, 1)],
                         Scanning(true), 1)
  const PROBING := World(Some(Poison(0, true, LAUNCHER, false)), map[0 := Sandbox(AtCommand, Token, NotStarted, 7, 1)],
                         Probing(true), 1)

  lemma Launching(system: System)
    ensures Run(system, INITIAL, TO_LAUNCH) == LAUNCHED
  {
    var w1 := Step(system, INITIAL, Lock);
    var w2 := Step(system, w1, Arm);
    var w3 := Step(system, w2, BindGate);
    var w4 := Step(system, w3, Launch(7, 1));
    assert w4.sandboxes == LAUNCHED.sandboxes;
    hide Step;
    Follows(system, [INITIAL, w1, w2, w3, w4], TO_LAUNCH);
  }

  lemma Crashing(system: System)
    ensures Run(system, LAUNCHED, TO_SCANS) == CRASHED
  {
    hide Step;
    Releasing(system);
    Abandoning(system);
    var w1, w3 := Step(system, LAUNCHED, Identify), Step(system, RELEASED, Stop);
    Follows(system, [LAUNCHED, w1, RELEASED, w3, Step(system, w3, Lock), CRASHED], TO_SCANS);
  }

  lemma Releasing(system: System)
    ensures Step(system, Step(system, LAUNCHED, Identify), Release) == RELEASED
  {
    assert Step(system, Step(system, LAUNCHED, Identify), Release).sandboxes == RELEASED.sandboxes;
  }

  lemma Abandoning(system: System)
    ensures Step(system, Step(system, Step(system, RELEASED, Stop), Lock), Read(true)) == CRASHED
  {
  }

  lemma ScanningBackwards()
    ensures Run(BACKWARDS, CRASHED, SCANS) == PROBING
  {
    var w1 := Step(BACKWARDS, CRASHED, Scan(false));
    var w2 := Step(BACKWARDS, w1, ReadGate(0));
    var w3 := Step(BACKWARDS, w2, Scan(false));
    var w4 := Step(BACKWARDS, w3, Observe(NotFound));
    var w5 := Step(BACKWARDS, w4, Observe(NotFound));
    assert w5.sandboxes == PROBING.sandboxes;
    hide Step;
    Follows(BACKWARDS, [CRASHED, w1, w2, w3, w4, w5], SCANS);
  }

  const STARTED := World(Some(Poison(0, true, LAUNCHER, false)), map[0 := Sandbox(Dead, Token, Running, 7, 1)],
                         Probing(true), 1)

  lemma Starting()
    ensures Run(BACKWARDS, PROBING, TO_START) == STARTED
  {
    var w1 := Step(BACKWARDS, PROBING, RequestUnit(0));
    var w2 := Step(BACKWARDS, w1, StartUnit(0));
    var w3 := Step(BACKWARDS, w2, Die(0));
    assert w3.sandboxes == STARTED.sandboxes;
    hide Step;
    Follows(BACKWARDS, [PROBING, w1, w2, w3], TO_START);
  }

  lemma Passing()
    ensures var w := Run(BACKWARDS, STARTED, TO_READY);
            w.evaluator.Ready? && 0 in w.sandboxes && w.sandboxes[0].unit.Running?
  {
    var w1 := Step(BACKWARDS, STARTED, LookUp(None));
    var w2 := Step(BACKWARDS, w1, CheckMount(true));
    var w3 := Step(BACKWARDS, w2, Clear);
    assert w3.evaluator.Ready? && w3.sandboxes[0].unit.Running?;
    hide Step;
    Follows(BACKWARDS, [STARTED, w1, w2, w3], TO_READY);
  }

  /** With the scans the other way round, an invocation may arm while the unit of an earlier one runs. */
  lemma CommandFirstIsUnsafe()
    ensures exists actions, run :: var w := Run(BACKWARDS, INITIAL, actions);
              w.evaluator.Ready? && run in w.sandboxes && Live(w.sandboxes[run])
  {
    hide Step, Run;
    Launching(BACKWARDS);
    Crashing(BACKWARDS);
    ScanningBackwards();
    Starting();
    Passing();
    Compose(BACKWARDS, INITIAL, TO_LAUNCH, TO_SCANS);
    Compose(BACKWARDS, INITIAL, TO_LAUNCH + TO_SCANS, SCANS);
    Compose(BACKWARDS, INITIAL, TO_LAUNCH + TO_SCANS + SCANS, TO_START);
    Compose(BACKWARDS, INITIAL, TO_LAUNCH + TO_SCANS + SCANS + TO_START, TO_READY);
    var actions, run: RunId := TO_LAUNCH + TO_SCANS + SCANS + TO_START + TO_READY, 0;
    assert run in Run(BACKWARDS, INITIAL, actions).sandboxes;
  }

  /** The gate becomes the command, which asks for its unit and dies before either scan. */
  const TO_ASK: seq<Action> := [ReadGate(0), RequestUnit(0), Die(0)]
  const ASKED := World(Some(Poison(0, true, LAUNCHER, false)), map[0 := Sandbox(Dead, Token, Requested, 7, 1)],
                       Scanning(true), 1)

  lemma Asking()
    ensures Run(LATE, CRASHED, TO_ASK) == ASKED
  {
    var w1 := Step(LATE, CRASHED, ReadGate(0));
    var w2 := Step(LATE, w1, RequestUnit(0));
    var w3 := Step(LATE, w2, Die(0));
    assert w3.sandboxes == ASKED.sandboxes;
    hide Step;
    Follows(LATE, [CRASHED, w1, w2, w3], TO_ASK);
  }

  lemma FindingNothing()
    ensures Run(LATE, ASKED, [Scan(false), Scan(false)]) == ASKED.(evaluator := Confirming(0))
  {
    var w1 := Step(LATE, ASKED, Scan(false));
    var w2 := Step(LATE, w1, Scan(false));
    assert w2 == ASKED.(evaluator := Confirming(0));
    hide Step;
    Follows(LATE, [ASKED, w1, w2], [Scan(false), Scan(false)]);
  }

  /** With late starts and the scans in the right order the same happens. */
  lemma LateStartIsUnsafe()
    ensures exists actions, run :: StartedUnrecorded(Run(LATE, INITIAL, actions), run)
  {
    hide Step, Run, StartedUnrecorded;
    Launching(LATE);
    Crashing(LATE);
    Asking();
    FindingNothing();
    Compose(LATE, INITIAL, TO_LAUNCH, TO_SCANS);
    Compose(LATE, INITIAL, TO_LAUNCH + TO_SCANS, TO_ASK);
    var pending := TO_LAUNCH + TO_SCANS + TO_ASK + [Scan(false), Scan(false)];
    Compose(LATE, INITIAL, TO_LAUNCH + TO_SCANS + TO_ASK, [Scan(false), Scan(false)]);
    RunKeepsInv(true, pending);
    PendingOvertakesRecovery(ASKED.(evaluator := Confirming(0)), 0);
    Compose(LATE, INITIAL, pending, Overlooked(0));
  }

  // ---------- Recovery is exact ----------

  /** What an undisturbed recovery observes if its observations are exact. */
  function ExactReport(u: Unit): (report: Report)
    ensures TruthfulReport(u, report) && (report.Dirty? <==> UnitLive(u))
  {
    if UnitLive(u) then Dirty else if u.Stopped? then LoadedClean else NotFound
  }

  /** `same` says whether the marker is of this binding, `fits` whether the mount is the one it names. */
  function Scans(poison: Poison, s: Sandbox, same: bool): seq<Action>
  {
    [Lock, Read(same), Scan(Scanned(GateFirst, true, poison, s)), Scan(Scanned(GateFirst, false, poison, s))]
  }

  function Checks(s: Sandbox, fits: bool): seq<Action>
  {
    [Observe(ExactReport(s.unit)), Observe(ExactReport(s.unit)),
     LookUp(if Alive(s.process) then Some(s.start) else None), CheckMount(fits), Clear]
  }

  function AfterScans(w: World, same: bool): World
    requires Marked(w).Some?
  {
    w.(evaluator := if same && !Alive(Marked(w).value.process) then Confirming(0) else Idle)
  }

  lemma ScansDecide(w: World, same: bool)
    requires Inv(false, w) && w.evaluator.Idle? && w.marker.Some?
    ensures Run(CODE, w, Scans(w.marker.value, Marked(w).value, same)) == AfterScans(w, same)
  {
    var steps := Scans(w.marker.value, Marked(w).value, same);
    var w1 := Step(CODE, w, steps[0]);
    var w2 := Step(CODE, w1, steps[1]);
    var w3 := Step(CODE, w2, steps[2]);
    var w4 := Step(CODE, w3, steps[3]);
    assert w4 == AfterScans(w, same);
    hide Step;
    Follows(CODE, [w, w1, w2, w3, w4], steps);
  }

  lemma ChecksDecide(w: World, fits: bool)
    requires w.marker.Some? && Marked(w).Some? && Known(w.marker.value, Marked(w).value) && WellFormed(Marked(w).value)
    requires w.evaluator.Idle? || (w.evaluator == Confirming(0) && !Alive(Marked(w).value.process))
    ensures var after := Run(CODE, w, Checks(Marked(w).value, fits));
            if w.evaluator.Confirming? && Over(false, Marked(w).value) && fits
            then after == w.(marker := None, evaluator := Ready)
            else after.marker == w.marker && !after.evaluator.Ready? && after.sandboxes == w.sandboxes
  {
    var s := Marked(w).value;
    var steps := Checks(s, fits);
    var through := w.evaluator.Confirming? && Over(false, s);
    var w2 := if through then w.(evaluator := Probing(!s.unit.Stopped?)) else w;
    var w4 := if through then w.(evaluator := if fits then Clearing else Idle) else w;
    var w5 := if through && fits then w.(marker := None, evaluator := Ready) else w4;
    ReportsDecide(w, s, fits);
    LookUpDecides(w2, s, fits);
    ClearDecides(w4, s, fits);
    hide Step, Over, WellFormed, Known;
    Follows(CODE, [w, Step(CODE, w, steps[0]), w2, Step(CODE, w2, steps[2]), w4, w5], steps);
  }

  lemma ReportsDecide(w: World, s: Sandbox, fits: bool)
    requires w.marker.Some? && Marked(w) == Some(s) && WellFormed(s)
    requires w.evaluator.Idle? || (w.evaluator == Confirming(0) && !Alive(s.process))
    ensures Step(CODE, Step(CODE, w, Checks(s, fits)[0]), Checks(s, fits)[1])
            == if w.evaluator.Confirming? && Over(false, s) then w.(evaluator := Probing(!s.unit.Stopped?)) else w
  {
  }

  lemma LookUpDecides(w: World, s: Sandbox, fits: bool)
    requires w.marker.Some? && Marked(w) == Some(s) && Known(w.marker.value, s) && WellFormed(s)
    requires w.evaluator.Idle? || w.evaluator == Confirming(0)
             || (w.evaluator == Probing(!s.unit.Stopped?) && Over(false, s))
    ensures Step(CODE, Step(CODE, w, Checks(s, fits)[2]), Checks(s, fits)[3])
            == if w.evaluator.Probing? then w.(evaluator := if fits then Clearing else Idle) else w
  {
  }

  lemma ClearDecides(w: World, s: Sandbox, fits: bool)
    requires w.marker.Some? && Marked(w) == Some(s)
    requires w.evaluator.Idle? || w.evaluator == Confirming(0) || w.evaluator.Clearing?
    ensures Step(CODE, w, Checks(s, fits)[4])
            == if w.evaluator.Clearing? then w.(marker := None, evaluator := Ready) else w
  {
  }

  /**
   From any state that a crash can leave, a recovery that observes exactly clears the marker if and only
   if nothing of the sandbox is there any more, the marker is of the same binding and the mount is the
   one it names; otherwise the marker stays and nothing may be armed.
  */
  lemma RecoveryIsExact(w: World, same: bool, fits: bool)
    requires Inv(false, w) && w.evaluator.Idle? && w.marker.Some?
    ensures var steps := Scans(w.marker.value, Marked(w).value, same) + Checks(Marked(w).value, fits);
            var after := Run(CODE, w, steps);
            var over := !Live(Marked(w).value) && same && fits;
            && after.marker == (if over then None else w.marker)
            && (after.evaluator.Ready? <==> over)
            && after.sandboxes == w.sandboxes
  {
    var poison, s := w.marker.value, Marked(w).value;
    ScansDecide(w, same);
    Compose(CODE, w, Scans(poison, s, same), Checks(s, fits));
    ChecksDecide(AfterScans(w, same), fits);
  }
}
