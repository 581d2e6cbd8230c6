/**
 The generator accounting of the arms, which run side by side over one dispatch ledger.

 `_run_arm` plans an attempt, lets the provider report the dispatch, and closes the attempt on every
 path that produces a result. An arm is a program point, the variables it accounts with, and a script
 that says which of its stages raise. A step is one stage with at most one operation on the ledger,
 which holds its own lock; a schedule lets any number of arms take their steps in any order, and gives
 each step the fault that the system raises in it, if any.
*/
module RunArm {
  import opened Options
  import opened DispatchLedger
  import opened JournalLines

  /** The exceptions `_run_arm` tells apart; `Fatal` is one that `except Exception` lets through. */
  datatype Raised = Nothing | Provider | Os | Runner | Other | JournalError | Fatal

  /**
   What the stages raise. `callbacks` is how often the provider reports the dispatch; when a report
   raises, the provider raises `wrapped` in its place, or swallows it if `wrapped` is Nothing.
   `settle` is the `finally` around the provider, `write` the artifacts written after the handler.
  */
  datatype Script = Script(
    enter: Raised,
    prepare: Raised,
    synchronise: Raised,
    callbacks: nat,
    wrapped: Raised,
    agent: Raised,
    finalOutput: bool,
    normalise: Raised,
    validate: Raised,
    settle: Raised,
    afterwards: Raised,
    write: Raised)

  datatype Job = Job(key: Key, request: Digest, variant: Digest, result: Digest, script: Script)

  /** The accounting part of an arm's result; `completed` is its status. */
  datatype ArmResult = ArmResult(attempt: Option<AttemptId>, journalState: Option<Phase>, dispatched: bool,
          completed: bool)

  datatype Place =
    | Entering | Preparing | Planning | Synchronising
    | Calling(reports: nat)
    | Late | Checking | Completing
    | Settling(e: Raised)
    | Finishing
    | Handling(e: Raised)
    | Writing(result: ArmResult)
    | Returned(result: ArmResult)
    | Left(e: Raised)

  datatype Closing = Open | Done | Broken(category: string)

  /** Which of the arm's writes the ledger denied: of the reports, how many while one was still due. */
  datatype Denied = Denied(plan: bool, reports: nat, late: bool, complete: bool, close: bool)

  /** `state` is `provider_journal_state`, and `inAgent` says that `stage` is "agent". */
  datatype Arm = Arm(place: Place, planned: bool, dispatched: bool, state: Option<Phase>, inAgent: bool,
                     closing: Closing, denied: Denied)

  const NEVER := Denied(false, 0, false, false, false)
  const START := Arm(Entering, false, false, None, false, Open, NEVER)

  /** `_generator_failure_category`. */
  function FailureCategory(e: Raised, inAgent: bool): (c: string)
    ensures c in CATEGORIES
  {
    match e
    case Provider => "provider"
    case Os => "local_io"
    case Runner => if inAgent then "result_validation" else "request_validation"
    case _ => "unexpected"
  }

  // ---------- One step ----------

  predicate Ended(p: Place) { p.Returned? || p.Left? }

  /** The handler lets journal errors and what is no `Exception` leave the method. */
  predicate Escapes(e: Raised) { e.JournalError? || e.Fatal? }

  /** The record an arm writes to the ledger in its next step, if it writes one. */
  function Wants(id: AttemptId, job: Job, arm: Arm): Option<Record>
  {
    match arm.place
    case Planning => Some(Planned(id, job.key, job.request, job.variant))
    case Calling(n) => if n < job.script.callbacks then Some(Dispatched(id)) else None
    case Late => Some(Dispatched(id))
    case Completing => Some(Completed(id, job.result))
    case Handling(e) =>
      if Escapes(e) || !arm.planned || !arm.closing.Open? then None
      else Some(Failed(id, arm.dispatched, FailureCategory(e, arm.inAgent)))
    case _ => None
  }

  function Raise(arm: Arm, e: Raised): Arm { arm.(place := Handling(e)) }

  /** The arm after its next step, given whether the ledger took the record. */
  function After(id: AttemptId, job: Job, arm: Arm, taken: bool): Arm
  {
    var s, d := job.script, arm.denied;
    match arm.place
    case Entering => arm.(place := if s.enter != Nothing then Left(s.enter) else Preparing)
    case Preparing => if s.prepare != Nothing then Raise(arm, s.prepare) else arm.(place := Planning)
    case Planning =>
      if !taken then Raise(arm, JournalError).(denied := d.(plan := true))
      else arm.(place := Synchronising, planned := true, state := Some(PlannedPhase))
    case Synchronising =>
      if s.synchronise != Nothing then Raise(arm, s.synchronise) else arm.(place := Calling(0), inAgent := true)
    case Calling(n) =>
      if n < s.callbacks then
        if taken then arm.(place := Calling(n + 1), dispatched := true)
        else arm.(place := if s.wrapped != Nothing then Settling(s.wrapped) else Calling(n + 1),
                  denied := if arm.dispatched then d else d.(reports := d.reports + 1))
      else if s.agent != Nothing then arm.(place := Settling(s.agent))
      else if arm.dispatched then arm.(place := Checking, state := Some(DispatchedPhase))
      else arm.(place := Late)
    case Late =>
      if !taken then arm.(place := Settling(JournalError), denied := d.(late := true))
      else arm.(place := Checking, dispatched := true, state := Some(DispatchedPhase))
    case Checking =>
      var checked := arm.(inAgent := !s.finalOutput);
      if s.finalOutput && s.normalise != Nothing then checked.(place := Settling(s.normalise))
      else if s.validate != Nothing then checked.(place := Settling(s.validate))
      else checked.(place := Completing)
    case Completing =>
      if !taken then arm.(place := Settling(JournalError), denied := d.(complete := true))
      else arm.(place := Settling(Nothing), state := Some(CompletedPhase), closing := Done)
    case Settling(e) =>
      var out := if s.settle != Nothing then s.settle else e;
      if out != Nothing then Raise(arm, out) else arm.(place := Finishing)
    case Finishing =>
      if s.afterwards != Nothing then Raise(arm, s.afterwards)
      else arm.(place := Writing(ArmResult(Some(id), arm.state, arm.dispatched, true)))
    case Handling(e) =>
      if Escapes(e) then arm.(place := Left(e))
      else if !arm.planned then arm.(place := Writing(ArmResult(None, arm.state, arm.dispatched, false)))
      else if !arm.closing.Open? then arm.(place := Writing(ArmResult(Some(id), arm.state, arm.dispatched, false)))
      else if !taken then arm.(place := Left(JournalError), denied := d.(close := true))
      else arm.(place := Writing(ArmResult(Some(id), Some(FailedPhase), arm.dispatched, false)),
                state := Some(FailedPhase), closing := Broken(FailureCategory(e, arm.inAgent)))
    case Writing(result) => arm.(place := if s.write != Nothing then Left(s.write) else Returned(result))
    case Returned(_) => arm
    case Left(_) => arm
  }

  // ---------- The arm by itself ----------

  /** What the arm has written to the journal so far. */
  function Trace(id: AttemptId, job: Job, arm: Arm): seq<Record>
  {
    (if arm.planned then [Planned(id, job.key, job.request, job.variant)] else [])
    + (if arm.dispatched then [Dispatched(id)] else [])
    + match arm.closing
      case Open => []
      case Done => [Completed(id, job.result)]
      case Broken(category) => [Failed(id, arm.dispatched, category)]
  }

  /** The provider's reports: what they raise, and whether one of them was taken. */
  function Reports(s: Script, d: Denied): Raised
  {
    if s.wrapped != Nothing && (d.reports > 0 || s.callbacks > 1) then s.wrapped else Nothing
  }

  predicate Reported(s: Script, d: Denied)
  {
    s.callbacks > 0 && d.reports < s.callbacks && (s.wrapped == Nothing || d.reports == 0)
  }

  predicate Called(s: Script, d: Denied) { s.prepare == Nothing && !d.plan && s.synchronise == Nothing }

  /** The provider returned, and the dispatch is in the journal. */
  predicate Answered(s: Script, d: Denied)
  {
    Called(s, d) && Reports(s, d) == Nothing && s.agent == Nothing && (Reported(s, d) || !d.late)
  }

  /** What the inner `try` raises. */
  function InnerRaises(s: Script, d: Denied): Raised
  {
    if Reports(s, d) != Nothing then Reports(s, d)
    else if s.agent != Nothing then s.agent
    else if !Reported(s, d) && d.late then JournalError
    else if s.finalOutput && s.normalise != Nothing then s.normalise
    else if s.validate != Nothing then s.validate
    else if d.complete then JournalError
    else Nothing
  }

  /** What reaches the handler, if anything does. */
  function Reaches(s: Script, d: Denied): Raised
  {
    if s.prepare != Nothing then s.prepare
    else if d.plan then JournalError
    else if s.synchronise != Nothing then s.synchronise
    else if s.settle != Nothing then s.settle
    else if InnerRaises(s, d) != Nothing then InnerRaises(s, d)
    else s.afterwards
  }

  predicate PlanTaken(s: Script, d: Denied) { s.enter == Nothing && s.prepare == Nothing && !d.plan }

  predicate DispatchTaken(s: Script, d: Denied)
  {
    Called(s, d) && (Reported(s, d) || Answered(s, d))
  }

  predicate CompletionTaken(s: Script, d: Denied) { Called(s, d) && InnerRaises(s, d) == Nothing }

  /** What raises does so in the stage "agent": the provider was called, and no final output was taken from it. */
  predicate InAgentStage(s: Script, d: Denied) { Called(s, d) && (!Answered(s, d) || !s.finalOutput) }

  /** How the attempt is closed. */
  function ClosedAs(s: Script, d: Denied): Closing
  {
    if CompletionTaken(s, d) then Done
    else if !PlanTaken(s, d) || Escapes(Reaches(s, d)) || d.close then Open
    else Broken(FailureCategory(Reaches(s, d), InAgentStage(s, d)))
  }

  /**
   How the method ends, as one function of the script and of the writes the ledger denied. It leaves
   without a result when entering or the last writing raises, when a journal error or a fatal exception
   reaches the handler, and when the handler's own record is denied.
  */
  function Ending(id: AttemptId, s: Script, d: Denied): Place
  {
    var e := Reaches(s, d);
    var result := ArmResult(
      if PlanTaken(s, d) then Some(id) else None,
      if !PlanTaken(s, d) then None else if CompletionTaken(s, d) then Some(CompletedPhase) else Some(FailedPhase),
      DispatchTaken(s, d), e == Nothing);
    if s.enter != Nothing then Left(s.enter)
    else if Escapes(e) then Left(e)
    else if PlanTaken(s, d) && ClosedAs(s, d).Open? then Left(JournalError)
    else if s.write != Nothing then Left(s.write)
    else Returned(result)
  }

  /** The variables at each program point. */
  predicate Reached(id: AttemptId, job: Job, arm: Arm)
  {
    var s, d := job.script, arm.denied;
    match arm.place
    case Entering => arm == START
    case Preparing => s.enter == Nothing && arm == START.(place := Preparing)
    case Planning => s.enter == Nothing && s.prepare == Nothing && arm == START.(place := Planning)
    case Synchronising =>
      PlanTaken(s, d) && arm == Arm(Synchronising, true, false, Some(PlannedPhase), false, Open, NEVER)
    case Calling(n) =>
      && PlanTaken(s, d) && s.synchronise == Nothing && n <= s.callbacks
      && arm == Arm(Calling(n), true, d.reports < n, Some(PlannedPhase), true, Open, NEVER.(reports := d.reports))
      && d.reports <= n && (s.wrapped != Nothing ==> d.reports == 0 && n <= 1)
    case Late =>
      && Inside(s, arm) && !Reported(s, d) && s.agent == Nothing && Reports(s, d) == Nothing
      && !arm.dispatched && !d.late && !d.complete && arm.inAgent && arm.state == Some(PlannedPhase)
    case Checking =>
      Inside(s, arm) && Answered(s, d) && !d.complete && arm.dispatched && arm.state == Some(DispatchedPhase)
    case Completing =>
      && Inside(s, arm) && Answered(s, d) && !d.complete && arm.dispatched && arm.state == Some(DispatchedPhase)
      && InnerRaises(s, d) == Nothing && arm.inAgent == !s.finalOutput
    case Settling(e) =>
      && PlanTaken(s, d) && s.synchronise == Nothing && !d.close && arm.planned && arm.state.Some?
      && e == InnerRaises(s, d) && arm.dispatched == DispatchTaken(s, d)
      && arm.inAgent == (!Answered(s, d) || !s.finalOutput)
      && arm.closing == (if e == Nothing then Done else Open) && (e == Nothing ==> arm.state == Some(CompletedPhase))
    case Finishing =>
      && PlanTaken(s, d) && CompletionTaken(s, d) && s.settle == Nothing && !d.close && arm.planned && arm.closing.Done?
      && arm.state == Some(CompletedPhase) && arm.dispatched == DispatchTaken(s, d)
      && arm.inAgent == (!Answered(s, d) || !s.finalOutput)
    case Handling(e) =>
      && s.enter == Nothing && e == Reaches(s, d) && e != Nothing && !d.close
      && arm.planned == PlanTaken(s, d) && arm.dispatched == DispatchTaken(s, d) && (arm.planned <==> arm.state.Some?)
      && arm.inAgent == InAgentStage(s, d)
      && arm.closing == (if CompletionTaken(s, d) then Done else Open)
      && (CompletionTaken(s, d) ==> arm.state == Some(CompletedPhase))
    case Writing(result) =>
      && Accounted(s, arm) && s.enter == Nothing && !Escapes(Reaches(s, d)) && !(PlanTaken(s, d) && arm.closing.Open?)
      && result == ArmResult(if arm.planned then Some(id) else None, arm.state, arm.dispatched,
                             Reaches(s, d) == Nothing)
      && arm.state == if !arm.planned then None else Some(if arm.closing.Done? then CompletedPhase else FailedPhase)
    case Returned(_) => Accounted(s, arm) && arm.place == Ending(id, s, d)
    case Left(_) => Accounted(s, arm) && arm.place == Ending(id, s, d)
  }

  /** Inside the inner `try`, with the attempt planned and not closed. */
  predicate Inside(s: Script, arm: Arm)
  {
    Called(s, arm.denied) && PlanTaken(s, arm.denied) && arm.planned && arm.closing.Open? && !arm.denied.close
  }

  /** The arm's variables, and so its trace, are what script and denials make them. */
  predicate Accounted(s: Script, arm: Arm)
  {
    && arm.planned == PlanTaken(s, arm.denied)
    && arm.dispatched == (PlanTaken(s, arm.denied) && DispatchTaken(s, arm.denied))
    && arm.closing == (if s.enter != Nothing then Open else ClosedAs(s, arm.denied))
  }

  /** Only a report can come twice; everything else an arm wants to write is due. */
  predicate Due(job: Job, arm: Arm) { arm.place.Calling? ==> !arm.dispatched }

  predicate Before(p: Place) { p.Entering? || p.Preparing? || p.Planning? || p.Synchronising? }

  predicate Between(p: Place) { p.Calling? || p.Late? }

  predicate Within(p: Place) { p.Checking? || p.Completing? || p.Settling? || p.Finishing? }

  lemma BeforeReaches(id: AttemptId, job: Job, arm: Arm, taken: bool)
    requires Reached(id, job, arm) && Before(arm.place)
    ensures Reached(id, job, After(id, job, arm, taken))
  {
  }

  lemma BetweenReaches(id: AttemptId, job: Job, arm: Arm, taken: bool)
    requires Reached(id, job, arm) && Between(arm.place) && (taken && Wants(id, job, arm).Some? ==> Due(job, arm))
    ensures Reached(id, job, After(id, job, arm, taken))
  {
  }

  lemma WithinReaches(id: AttemptId, job: Job, arm: Arm, taken: bool)
    requires Reached(id, job, arm) && Within(arm.place)
    ensures Reached(id, job, After(id, job, arm, taken))
  {
  }

  lemma HandlingReaches(id: AttemptId, job: Job, arm: Arm, taken: bool)
    requires Reached(id, job, arm) && arm.place.Handling?
    ensures Reached(id, job, After(id, job, arm, taken))
  {
  }

  lemma WritingReaches(id: AttemptId, job: Job, arm: Arm, taken: bool)
    requires Reached(id, job, arm) && (arm.place.Writing? || Ended(arm.place))
    ensures Reached(id, job, After(id, job, arm, taken))
  {
    hide InnerRaises, Reaches, FailureCategory, Reported, Reports;
  }

  lemma StepReaches(id: AttemptId, job: Job, arm: Arm, taken: bool)
    requires Reached(id, job, arm) && (taken && Wants(id, job, arm).Some? ==> Due(job, arm))
    ensures Reached(id, job, After(id, job, arm, taken))
  {
    hide Reached, After;
    if Before(arm.place) {
      BeforeReaches(id, job, arm, taken);
    } else if Between(arm.place) {
      BetweenReaches(id, job, arm, taken);
    } else if Within(arm.place) {
      WithinReaches(id, job, arm, taken);
    } else if arm.place.Handling? {
      HandlingReaches(id, job, arm, taken);
    } else {
      WritingReaches(id, job, arm, taken);
    }
  }

  lemma StepTraces(id: AttemptId, job: Job, arm: Arm, taken: bool)
    requires Reached(id, job, arm) && (taken && Wants(id, job, arm).Some? ==> Due(job, arm))
    ensures var next := After(id, job, arm, taken);
            Trace(id, job, next) == Trace(id, job, arm)
              + if taken && Wants(id, job, arm).Some? then [Wants(id, job, arm).value] else []
  {
  }

  // ---------- The ledger under all of them ----------

  /** The ledger takes a record that replays and for which there is room, unless an append was interrupted. */
  predicate Accepts(codec: Codec<Record>, binding: Digest, rs: seq<Record>, disk: Disk, r: Record)
  {
    && disk.Clean? && Fold(binding, rs).Some? && ReplayStep(Fold(binding, rs).value, r).Some?
    && Fits(codec, rs, r)
  }

  predicate Fits(codec: Codec<Record>, rs: seq<Record>, r: Record)
  {
    var size := |codec.encode(r)| + 1;
    size <= MAX_RECORD_BYTES && |Written(codec, rs)| + size <= MAX_BYTES
  }

  /** The journal's records that memory counts, and how the file stands to them. */
  datatype World = World(records: seq<Record>, disk: Disk, arms: map<AttemptId, Arm>)

  function StepOne(codec: Codec<Record>, binding: Digest, rs: seq<Record>, disk: Disk, id: AttemptId, job: Job,
          arm: Arm, fault: Fault): (seq<Record>, Disk, Arm)
  {
    var r := Wants(id, job, arm);
    if r.None? then (rs, disk, After(id, job, arm, true))
    else if !Accepts(codec, binding, rs, disk, r.value) then (rs, disk, After(id, job, arm, false))
    else (if fault.NoFault? then rs + [r.value] else rs, Spill(codec, r.value, fault),
          After(id, job, arm, fault.NoFault?))
  }

  /** A ledger just opened, and no arm started. */
  function Begin(base: seq<Record>, jobs: map<AttemptId, Job>): World
  {
    World(base, Clean, map id | id in jobs :: START)
  }

  /** Whose turn it is, and what goes wrong in it. */
  datatype Turn = Turn(id: AttemptId, fault: Fault)

  function Move(codec: Codec<Record>, binding: Digest, jobs: map<AttemptId, Job>, w: World, turn: Turn): World
  {
    var id := turn.id;
    if id !in jobs || id !in w.arms then w else
    var (records, disk, arm) := StepOne(codec, binding, w.records, w.disk, id, jobs[id], w.arms[id], turn.fault);
    World(records, disk, w.arms[id := arm])
  }

  /** Any interleaving, turn by turn. */
  function Run(codec: Codec<Record>, binding: Digest, jobs: map<AttemptId, Job>, w: World, schedule: seq<Turn>): World
    decreases |schedule|
  {
    if schedule == [] then w else
      var n := |schedule| - 1;
      Move(codec, binding, jobs, Run(codec, binding, jobs, w, schedule[..n]), schedule[n])
  }

  // ---------- What an arm's own records say ----------

  predicate Concerns(r: Record, id: AttemptId) { !r.Header? && r.id == id }

  /** The records that concern one attempt, in order. */
  function Projection(rs: seq<Record>, id: AttemptId): seq<Record>
  {
    if rs == [] then [] else
      Projection(rs[..|rs| - 1], id) + (if Concerns(rs[|rs| - 1], id) then [rs[|rs| - 1]] else [])
  }

  lemma ProjectionAppend(rs: seq<Record>, r: Record, id: AttemptId)
    ensures Projection(rs + [r], id) == Projection(rs, id) + if Concerns(r, id) then [r] else []
  {
    assert (rs + [r])[..|rs|] == rs;
  }

  function PhaseAfter(r: Record): Phase
  {
    match r
    case Dispatched(_) => DispatchedPhase
    case Completed(_, _) => CompletedPhase
    case Failed(_, _, _) => FailedPhase
    case _ => PlannedPhase
  }

  /** An attempt's phase depends on its own records only, whatever the other arms wrote in between. */
  lemma {:induction false} PhaseIsLastOwnRecord(binding: Digest, rs: seq<Record>, id: AttemptId)
    requires Fold(binding, rs).Some?
    ensures var own := Projection(rs, id); var t := Fold(binding, rs).value;
            if own == [] then id !in t.attempts
            else id in t.attempts && t.attempts[id].phase == PhaseAfter(own[|own| - 1])
  {
    if |rs| > 1 {
      PhaseIsLastOwnRecord(binding, rs[..|rs| - 1], id);
    } else {
      assert rs[..0] == [];
    }
  }

  /** The audit's counts read off the journal: an attempt is counted where its own last record leads. */
  lemma CountedWhereLastRecordLeads(binding: Digest, rs: seq<Record>, id: AttemptId, p: Phase)
    requires Fold(binding, rs).Some?
    ensures id in InPhase(Fold(binding, rs).value, p) <==>
            var own := Projection(rs, id); own != [] && LeadsTo(own[|own| - 1], p)
  {
    PhaseIsLastOwnRecord(binding, rs, id);
    ProjectionConcerns(rs, id);
    var own := Projection(rs, id);
    if own != [] { assert Concerns(own[|own| - 1], id); }
  }

  /** The audit's verdict read off the journal: unresolved is what its own last record leaves open. */
  lemma UnresolvedIffLastRecordOpen(binding: Digest, rs: seq<Record>, id: AttemptId)
    requires Fold(binding, rs).Some?
    ensures id in Unresolved(Fold(binding, rs).value) <==>
            var own := Projection(rs, id); own != [] && (own[|own| - 1].Planned? || own[|own| - 1].Dispatched?)
  {
    PhaseIsLastOwnRecord(binding, rs, id);
    ProjectionConcerns(rs, id);
    var own := Projection(rs, id);
    if own != [] { assert Concerns(own[|own| - 1], id); }
  }

  predicate AllConcern(trace: seq<Record>, id: AttemptId) { forall r :: r in trace ==> Concerns(r, id) }

  lemma {:induction false} ProjectionConcerns(rs: seq<Record>, id: AttemptId)
    ensures AllConcern(Projection(rs, id), id)
  {
    if rs != [] { ProjectionConcerns(rs[..|rs| - 1], id); }
  }

  // ---------- What every interleaving keeps ----------

  /** In the journal the arm's records are its trace so far, after what an older journal held of its id. */
  predicate Own(base: seq<Record>, rs: seq<Record>, id: AttemptId, job: Job, arm: Arm)
  {
    && Projection(rs, id) == Projection(base, id) + Trace(id, job, arm)
    && (arm.planned ==> Projection(base, id) == [])
  }

  /**
   The arm can never return a result while the ledger denies everything: its attempt is planned and not
   closed, or its journal error is on its way out.
  */
  predicate Doomed(arm: Arm)
  {
    || (arm.planned && arm.closing.Open?)
    || (arm.place.Handling? && Escapes(arm.place.e))
    || arm.place.Left?
  }

  /** The file is as memory counts it, or the arm whose append was interrupted is doomed. */
  ghost predicate CleanOrDoomed(jobs: map<AttemptId, Job>, w: World)
  {
    w.disk.Clean? || exists id :: id in jobs && id in w.arms && Doomed(w.arms[id])
  }

  ghost predicate Inv(binding: Digest, jobs: map<AttemptId, Job>, base: seq<Record>, w: World)
  {
    && Fold(binding, w.records).Some? && w.arms.Keys == jobs.Keys
    && (forall id :: id in jobs ==> Reached(id, jobs[id], w.arms[id]) && Own(base, w.records, id, jobs[id], w.arms[id]))
    && (forall id :: id !in jobs ==> Projection(w.records, id) == Projection(base, id))
    && CleanOrDoomed(jobs, w)
  }

  predicate NewKey(t: Tables, id: AttemptId, key: Key) { key.repetition >= 0 && key !in t.logical && id !in t.attempts }

  /**
   When the ledger takes what an arm wants to write: when no append was interrupted, the record is due and
   there is room, and for a plan when attempt and logical arm are new. What other arms have written does
   not matter otherwise.
  */
  lemma AcceptsIff(codec: Codec<Record>, binding: Digest, base: seq<Record>, rs: seq<Record>, disk: Disk,
          id: AttemptId, job: Job, arm: Arm)
    requires Fold(binding, rs).Some? && Reached(id, job, arm) && Own(base, rs, id, job, arm)
    requires Wants(id, job, arm).Some?
    ensures var r := Wants(id, job, arm).value;
            Accepts(codec, binding, rs, disk, r) <==>
              && disk.Clean? && Due(job, arm) && Fits(codec, rs, r)
              && (r.Planned? ==> NewKey(Fold(binding, rs).value, id, job.key))
  {
    PhaseIsLastOwnRecord(binding, rs, id);
    WantsIsInOrder(id, job, arm);
    hide Reached, Fits, Fold, Projection;
    assert Projection(base, id) + Trace(id, job, arm)
           == if arm.planned then Trace(id, job, arm) else Projection(base, id) + [];
  }

  /** The last record of an arm's trace is what its next one has to follow. */
  lemma WantsIsInOrder(id: AttemptId, job: Job, arm: Arm)
    requires Reached(id, job, arm) && Wants(id, job, arm).Some?
    ensures var r, trace := Wants(id, job, arm).value, Trace(id, job, arm);
            if r.Planned? then !arm.planned && trace == [] else
            && arm.planned && trace != []
            && match r
               case Dispatched(_) =>
                 PhaseAfter(trace[|trace| - 1]) == if Due(job, arm) then PlannedPhase else DispatchedPhase
               case Completed(_, _) => PhaseAfter(trace[|trace| - 1]) == DispatchedPhase && Due(job, arm)
               case Failed(_, observed, category) =>
                 && category in CATEGORIES && Due(job, arm)
                 && PhaseAfter(trace[|trace| - 1]) == if observed then DispatchedPhase else PlannedPhase
               case _ => true
  {
  }

  /** One arm's step keeps its own account. */
  lemma StepKeepsOwn(codec: Codec<Record>, binding: Digest, base: seq<Record>, rs: seq<Record>, disk: Disk,
          id: AttemptId, job: Job, arm: Arm, fault: Fault)
    requires Fold(binding, rs).Some? && Reached(id, job, arm) && Own(base, rs, id, job, arm)
    ensures var (records, _, next) := StepOne(codec, binding, rs, disk, id, job, arm, fault);
            && Fold(binding, records).Some? && Reached(id, job, next) && Own(base, records, id, job, next)
            && (records == rs || exists r :: Concerns(r, id) && records == rs + [r])
  {
    hide Reached, Fold, Trace, After, Projection, Fits, Wants, Spill;
    var r := Wants(id, job, arm);
    if r.None? {
      StepReaches(id, job, arm, true);
      StepTraces(id, job, arm, true);
      PlannedStays(id, job, arm, true);
    } else {
      var taken := Accepts(codec, binding, rs, disk, r.value) && fault.NoFault?;
      AcceptsIff(codec, binding, base, rs, disk, id, job, arm);
      WantsIsInOrder(id, job, arm);
      StepReaches(id, job, arm, taken);
      StepTraces(id, job, arm, taken);
      PlannedStays(id, job, arm, taken);
      ProjectionAppend(rs, r.value, id);
      WantsConcerns(id, job, arm);
      if taken {
        AcceptedFolds(codec, binding, rs, disk, r.value);
        PhaseIsLastOwnRecord(binding, rs, id);
      }
    }
  }

  /** A step that leaves the file unlike memory dooms its arm, and nothing but denials is ahead of it. */
  lemma StepKeepsDoomed(codec: Codec<Record>, binding: Digest, base: seq<Record>, rs: seq<Record>, disk: Disk,
          id: AttemptId, job: Job, arm: Arm, fault: Fault)
    requires Fold(binding, rs).Some? && Reached(id, job, arm) && Own(base, rs, id, job, arm)
    requires disk.Clean? || Doomed(arm)
    ensures var (_, after, next) := StepOne(codec, binding, rs, disk, id, job, arm, fault);
            after.Clean? || Doomed(next)
  {
    hide Reached, Fold, After, Projection, Fits, Doomed, Wants, Own;
    if Wants(id, job, arm).Some? {
      AcceptsIff(codec, binding, base, rs, disk, id, job, arm);
      if Due(job, arm) { DenialDooms(id, job, arm); }
    }
    if Doomed(arm) { DoomedStays(id, job, arm); }
  }

  lemma DenialDooms(id: AttemptId, job: Job, arm: Arm)
    requires Reached(id, job, arm) && Wants(id, job, arm).Some? && Due(job, arm)
    ensures Doomed(After(id, job, arm, false))
  {
  }

  lemma DoomedStays(id: AttemptId, job: Job, arm: Arm)
    requires Reached(id, job, arm) && Doomed(arm)
    ensures Doomed(After(id, job, arm, Wants(id, job, arm).None?))
  {
  }

  lemma DoomedNeverReturned(id: AttemptId, job: Job, arm: Arm)
    requires Reached(id, job, arm) && Doomed(arm)
    ensures !arm.place.Returned?
  {
  }

  lemma AcceptedFolds(codec: Codec<Record>, binding: Digest, rs: seq<Record>, disk: Disk, r: Record)
    requires Accepts(codec, binding, rs, disk, r)
    ensures Fold(binding, rs + [r]).Some?
  {
    FoldAppend(binding, rs, r);
  }

  lemma WantsConcerns(id: AttemptId, job: Job, arm: Arm)
    ensures Wants(id, job, arm).Some? ==> Concerns(Wants(id, job, arm).value, id)
  {
  }

  lemma PlannedStays(id: AttemptId, job: Job, arm: Arm, taken: bool)
    ensures After(id, job, arm, taken).planned ==>
              arm.planned || (taken && Wants(id, job, arm) == Some(Planned(id, job.key, job.request, job.variant)))
  {
  }

  /** A step of one arm leaves every other arm's account alone. */
  lemma MoveKeepsInv(codec: Codec<Record>, binding: Digest, jobs: map<AttemptId, Job>, base: seq<Record>, w: World,
          turn: Turn)
    requires Inv(binding, jobs, base, w)
    ensures Inv(binding, jobs, base, Move(codec, binding, jobs, w, turn))
  {
    var id := turn.id;
    if id in jobs {
      hide StepOne, Fold, Projection, Reached, Own, Doomed;
      var (records, disk, next) := StepOne(codec, binding, w.records, w.disk, id, jobs[id], w.arms[id], turn.fault);
      StepKeepsOwn(codec, binding, base, w.records, w.disk, id, jobs[id], w.arms[id], turn.fault);
      OnlyOwnRecords(w.records, records, id);
      if w.disk.Clean? || Doomed(w.arms[id]) {
        StepKeepsDoomed(codec, binding, base, w.records, w.disk, id, jobs[id], w.arms[id], turn.fault);
      }
      InvAfter(binding, jobs, base, w, id, records, disk, next);
    }
  }

  lemma InvAfter(binding: Digest, jobs: map<AttemptId, Job>, base: seq<Record>, w: World, id: AttemptId,
          records: seq<Record>, disk: Disk, next: Arm)
    requires Inv(binding, jobs, base, w) && id in jobs && Fold(binding, records).Some?
    requires Reached(id, jobs[id], next) && Own(base, records, id, jobs[id], next)
    requires forall other :: other != id ==> Projection(records, other) == Projection(w.records, other)
    requires w.disk.Clean? || Doomed(w.arms[id]) ==> disk.Clean? || Doomed(next)
    ensures Inv(binding, jobs, base, World(records, disk, w.arms[id := next]))
  {
    hide Fold, Projection, Reached, Own, Doomed;
    forall other | other in jobs && other != id
      ensures Own(base, records, other, jobs[other], w.arms[other])
    {
      OwnCarried(base, w.records, records, other, jobs[other], w.arms[other]);
    }
    StillDoomed(jobs, w, id, records, disk, next);
  }

  lemma StillDoomed(jobs: map<AttemptId, Job>, w: World, id: AttemptId, records: seq<Record>, disk: Disk, next: Arm)
    requires CleanOrDoomed(jobs, w) && id in jobs && id in w.arms
    requires w.disk.Clean? || Doomed(w.arms[id]) ==> disk.Clean? || Doomed(next)
    ensures CleanOrDoomed(jobs, World(records, disk, w.arms[id := next]))
  {
    hide Doomed;
    var arms := w.arms[id := next];
    if w.disk.Clean? || Doomed(w.arms[id]) {
      assert arms[id] == next;
    } else {
      var other :| other in jobs && other in w.arms && Doomed(w.arms[other]);
      assert arms[other] == w.arms[other];
    }
  }

  lemma OwnCarried(base: seq<Record>, before: seq<Record>, after: seq<Record>, id: AttemptId, job: Job, arm: Arm)
    requires Own(base, before, id, job, arm) && Projection(after, id) == Projection(before, id)
    ensures Own(base, after, id, job, arm)
  {
  }

  lemma OnlyOwnRecords(before: seq<Record>, after: seq<Record>, id: AttemptId)
    requires after == before || exists r :: Concerns(r, id) && after == before + [r]
    ensures forall other :: other != id ==> Projection(after, other) == Projection(before, other)
  {
    forall other | other != id
      ensures Projection(after, other) == Projection(before, other)
    {
      if after != before {
        var r :| Concerns(r, id) && after == before + [r];
        ProjectionAppend(before, r, other);
      }
    }
  }

  lemma {:induction false} RunKeepsInv(codec: Codec<Record>, binding: Digest, jobs: map<AttemptId, Job>,
          base: seq<Record>, schedule: seq<Turn>)
    requires Fold(binding, base).Some?
    ensures Inv(binding, jobs, base, Run(codec, binding, jobs, Begin(base, jobs), schedule))
    decreases |schedule|
  {
    if schedule == [] {
      BeginHolds(binding, jobs, base);
    } else {
      var n := |schedule| - 1;
      RunKeepsInv(codec, binding, jobs, base, schedule[..n]);
      MoveKeepsInv(codec, binding, jobs, base, Run(codec, binding, jobs, Begin(base, jobs), schedule[..n]),
                   schedule[n]);
    }
  }

  lemma BeginHolds(binding: Digest, jobs: map<AttemptId, Job>, base: seq<Record>)
    requires Fold(binding, base).Some?
    ensures Inv(binding, jobs, base, Begin(base, jobs))
  {
    forall id | id in jobs
      ensures Own(base, base, id, jobs[id], START)
    {
      assert Trace(id, jobs[id], START) == [];
    }
  }

  /** The journal records of an attempt that is accounted for from start to end. */
  predicate Closed(trace: seq<Record>, id: AttemptId)
  {
    || (|trace| == 2 && trace[0].Planned? && trace[1].Failed? && !trace[1].observed)
    || (|trace| == 3 && trace[0].Planned? && trace[1] == Dispatched(id)
        && ((trace[2].Failed? && trace[2].observed) || trace[2].Completed?))
  }

  /**
   However the steps of the arms are interleaved over the one ledger, an arm that has ended has ended as
   its script and the writes that were denied it say. With a result and an attempt, the attempt's
   records are a closed trace, the reported state is the ledger's phase and the reported dispatch is the
   journal's; a result without an attempt has written nothing. The category of a failure that an arm
   recorded tells what reached its handler, and for the runner's own errors in which stage.
  */
  lemma EndedArms(codec: Codec<Record>, binding: Digest, jobs: map<AttemptId, Job>, base: seq<Record>,
                  schedule: seq<Turn>, id: AttemptId)
    requires Fold(binding, base).Some? && id in jobs
    ensures var w := Run(codec, binding, jobs, Begin(base, jobs), schedule);
            id in w.arms && Fold(binding, w.records).Some? && (Ended(w.arms[id].place) ==>
              && w.arms[id].place == Ending(id, jobs[id].script, w.arms[id].denied)
              && (w.arms[id].place.Returned? ==>
                    Truthful(base, w.records, binding, id, jobs[id], w.arms[id].place.result))
              && var own := Projection(w.records, id);
                 w.arms[id].planned && own != [] && own[|own| - 1].Failed? ==>
                   Tells(own[|own| - 1].category, Reaches(jobs[id].script, w.arms[id].denied),
                         InAgentStage(jobs[id].script, w.arms[id].denied)))
  {
    RunKeepsInv(codec, binding, jobs, base, schedule);
    var w := Run(codec, binding, jobs, Begin(base, jobs), schedule);
    PhaseIsLastOwnRecord(binding, w.records, id);
    if Ended(w.arms[id].place) {
      EndedAsReached(id, jobs[id], w.arms[id]);
      CategoryTells(id, jobs[id], w.arms[id]);
    }
    if w.arms[id].place.Returned? { ReturnedTrace(id, jobs[id], w.arms[id]); }
    hide Run, Fold, Projection, Reached, Trace, Ending;
  }

  lemma EndedAsReached(id: AttemptId, job: Job, arm: Arm)
    requires Reached(id, job, arm) && Ended(arm.place)
    ensures arm.place == Ending(id, job.script, arm.denied)
  {
  }

  /** The failure category, by what reached the handler. */
  predicate Tells(category: string, e: Raised, inAgent: bool)
  {
    && (category == "provider" <==> e == Provider)
    && (category == "local_io" <==> e == Os)
    && (category == "result_validation" <==> e == Runner && inAgent)
    && (category == "request_validation" <==> e == Runner && !inAgent)
    && (category == "unexpected" <==> e != Provider && e != Os && e != Runner)
  }

  lemma CategoryTells(id: AttemptId, job: Job, arm: Arm)
    requires Reached(id, job, arm) && Ended(arm.place)
    ensures var trace := Trace(id, job, arm);
            trace != [] && trace[|trace| - 1].Failed? ==>
              Tells(trace[|trace| - 1].category, Reaches(job.script, arm.denied), InAgentStage(job.script, arm.denied))
  {
    hide Reaches, InAgentStage, Ending, CompletionTaken, PlanTaken, DispatchTaken;
  }

  /** What an arm's result reports of its attempt is what the ledger holds, under the arm's own digests. */
  ghost predicate Truthful(base: seq<Record>, rs: seq<Record>, binding: Digest, id: AttemptId, job: Job,
                           result: ArmResult)
    requires Fold(binding, rs).Some?
  {
    var t, own := Fold(binding, rs).value, Projection(rs, id);
    if result.attempt.None? then result.journalState.None? && !result.dispatched && own == Projection(base, id) else
    && result.attempt == Some(id) && Closed(own, id) && id in t.attempts
    && own[0] == Planned(id, job.key, job.request, job.variant)
    && (own[|own| - 1].Completed? ==> own[|own| - 1] == Completed(id, job.result))
    && t.attempts[id].phase in {CompletedPhase, FailedPhase} && result.journalState == Some(t.attempts[id].phase)
    && (result.dispatched <==> own[1].Dispatched?)
    && (result.completed ==> t.attempts[id].phase == CompletedPhase)
  }

  lemma ReturnedTrace(id: AttemptId, job: Job, arm: Arm)
    requires Reached(id, job, arm) && arm.place.Returned?
    ensures var result, trace := arm.place.result, Trace(id, job, arm);
            if result.attempt.None? then
              trace == [] && result.journalState.None? && !result.dispatched && !arm.planned
            else
            && result.attempt == Some(id) && arm.planned && Closed(trace, id)
            && trace[0] == Planned(id, job.key, job.request, job.variant)
            && (trace[|trace| - 1].Completed? ==> trace[|trace| - 1] == Completed(id, job.result))
            && result.journalState == Some(PhaseAfter(trace[|trace| - 1]))
            && (result.dispatched <==> trace[1].Dispatched?)
            && (result.completed ==> trace[|trace| - 1].Completed?)
  {
  }

  /** The closing audit after any interleaving, whoever has ended: what is unresolved is older, or still open. */
  lemma UnresolvedAfterRun(codec: Codec<Record>, binding: Digest, jobs: map<AttemptId, Job>, base: seq<Record>,
                           schedule: seq<Turn>, id: AttemptId)
    requires Fold(binding, base).Some?
    ensures var w := Run(codec, binding, jobs, Begin(base, jobs), schedule);
            && Fold(binding, w.records).Some? && w.arms.Keys == jobs.Keys
            && (id in Unresolved(Fold(binding, w.records).value) <==>
                  || id in Unresolved(Fold(binding, base).value)
                  || (id in jobs && w.arms[id].planned && w.arms[id].closing.Open?))
  {
    hide Run, Fold, Projection, Reached, Trace, Unresolved, Own;
    RunKeepsInv(codec, binding, jobs, base, schedule);
    var w := Run(codec, binding, jobs, Begin(base, jobs), schedule);
    UnresolvedIffLastRecordOpen(binding, w.records, id);
    UnresolvedIffLastRecordOpen(binding, base, id);
    if id in jobs { OpenTrace(base, w.records, id, jobs[id], w.arms[id]); }
  }

  lemma OpenTrace(base: seq<Record>, rs: seq<Record>, id: AttemptId, job: Job, arm: Arm)
    requires Own(base, rs, id, job, arm) && Reached(id, job, arm)
    ensures var own := Projection(rs, id);
            if !arm.planned then own == Projection(base, id) else
            && own != [] && Projection(base, id) == []
            && (own[|own| - 1].Planned? || own[|own| - 1].Dispatched? <==> arm.closing.Open?)
  {
    hide Projection;
    if !arm.planned { NotPlannedNoTrace(id, job, arm); }
    assert Projection(base, id) + [] == Projection(base, id);
  }

  lemma NotPlannedNoTrace(id: AttemptId, job: Job, arm: Arm)
    requires Reached(id, job, arm) && !arm.planned
    ensures Trace(id, job, arm) == []
  {
  }

  /**
   Once every arm has returned, in whatever interleaving, no append was interrupted, so that the file is
   what memory counts, and the audit finds only what it found before.
  */
  lemma AuditIsClean(codec: Codec<Record>, binding: Digest, jobs: map<AttemptId, Job>, base: seq<Record>,
          schedule: seq<Turn>)
    requires Fold(binding, base).Some?
    requires var w := Run(codec, binding, jobs, Begin(base, jobs), schedule);
             forall id :: id in jobs && id in w.arms ==> w.arms[id].place.Returned?
    ensures var w := Run(codec, binding, jobs, Begin(base, jobs), schedule);
            && w.disk.Clean? && Fold(binding, w.records).Some?
            && Unresolved(Fold(binding, w.records).value) == Unresolved(Fold(binding, base).value)
  {
    RunKeepsInv(codec, binding, jobs, base, schedule);
    var w := Run(codec, binding, jobs, Begin(base, jobs), schedule);
    forall id
      ensures id in Unresolved(Fold(binding, w.records).value) <==> id in Unresolved(Fold(binding, base).value)
    {
      UnresolvedAfterRun(codec, binding, jobs, base, schedule, id);
      if id in jobs { ReturnedIsNotOpen(id, jobs[id], w.arms[id]); }
    }
    NoneIsDoomed(jobs, w);
  }

  lemma NoneIsDoomed(jobs: map<AttemptId, Job>, w: World)
    requires CleanOrDoomed(jobs, w) && w.arms.Keys == jobs.Keys
    requires forall id :: id in jobs ==> Reached(id, jobs[id], w.arms[id]) && w.arms[id].place.Returned?
    ensures w.disk.Clean?
  {
    if id :| id in jobs && Doomed(w.arms[id]) { DoomedNeverReturned(id, jobs[id], w.arms[id]); }
  }

  /**
   After an interrupted append the run never ends with a result: however it goes on, some arm has not
   returned.
  */
  lemma InterruptedRunNeverEnds(codec: Codec<Record>, binding: Digest, jobs: map<AttemptId, Job>, base: seq<Record>,
          schedule: seq<Turn>, more: seq<Turn>)
    requires Fold(binding, base).Some? && !Run(codec, binding, jobs, Begin(base, jobs), schedule).disk.Clean?
    ensures var w := Run(codec, binding, jobs, Begin(base, jobs), schedule + more);
            exists id :: id in jobs && id in w.arms && !w.arms[id].place.Returned?
  {
    DirtyStays(codec, binding, jobs, Begin(base, jobs), schedule, more);
    var w := Run(codec, binding, jobs, Begin(base, jobs), schedule + more);
    RunKeepsInv(codec, binding, jobs, base, schedule + more);
    if forall id :: id in jobs && id in w.arms ==> w.arms[id].place.Returned? { NoneIsDoomed(jobs, w); }
  }

  lemma {:induction false} DirtyStays(codec: Codec<Record>, binding: Digest, jobs: map<AttemptId, Job>, w: World,
          schedule: seq<Turn>, more: seq<Turn>)
    requires !Run(codec, binding, jobs, w, schedule).disk.Clean?
    ensures !Run(codec, binding, jobs, w, schedule + more).disk.Clean?
    decreases |more|
  {
    if more == [] {
      assert schedule + more == schedule;
    } else {
      var n := |more| - 1;
      assert (schedule + more)[..|schedule + more| - 1] == schedule + more[..n];
      DirtyStays(codec, binding, jobs, w, schedule, more[..n]);
      hide Fold, Fits, Wants, After, ReplayStep;
    }
  }

  lemma ReturnedIsNotOpen(id: AttemptId, job: Job, arm: Arm)
    requires Reached(id, job, arm) && arm.place.Returned?
    ensures !(arm.planned && arm.closing.Open?)
  {
  }

  /**
   A write that was due is denied exactly for a fault in it, or in an earlier append, for want of room, or
   for a plan because attempt or logical arm are not new.
  */
  lemma DeniedOnlyFor(codec: Codec<Record>, binding: Digest, base: seq<Record>, rs: seq<Record>, disk: Disk,
          id: AttemptId, job: Job, arm: Arm, fault: Fault)
    requires Fold(binding, rs).Some? && Reached(id, job, arm) && Own(base, rs, id, job, arm)
    ensures var next := StepOne(codec, binding, rs, disk, id, job, arm, fault).2;
            next.denied != arm.denied <==>
              Wants(id, job, arm).Some? && Due(job, arm)
              && (!disk.Clean? || !fault.NoFault? || !Fits(codec, rs, Wants(id, job, arm).value)
                  || (arm.place.Planning? && !NewKey(Fold(binding, rs).value, id, job.key)))
  {
    hide Fold, Reached, Own, Fits;
    if Wants(id, job, arm).Some? {
      AcceptsIff(codec, binding, base, rs, disk, id, job, arm);
      DenialIsNoted(id, job, arm);
    }
  }

  lemma DenialIsNoted(id: AttemptId, job: Job, arm: Arm)
    requires Reached(id, job, arm) && Wants(id, job, arm).Some?
    ensures After(id, job, arm, true).denied == arm.denied
    ensures After(id, job, arm, false).denied != arm.denied <==> Due(job, arm)
  {
  }

  // ---------- On the ledger object ----------

  /** The ledger operation that writes a record. */
  method Offer(ledger: GeneratorDispatchLedger, r: Record, fault: Fault) returns (taken: bool)
    requires ledger.Valid() && !r.Header?
    modifies ledger
    ensures ledger.Valid()
    ensures taken <==> old(Accepts(ledger.codec, ledger.binding, ledger.records, ledger.disk, r)) && fault.NoFault?
    ensures ledger.records == if taken then old(ledger.records) + [r] else old(ledger.records)
    ensures ledger.disk == if old(Accepts(ledger.codec, ledger.binding, ledger.records, ledger.disk, r))
                           then Spill(ledger.codec, r, fault) else old(ledger.disk)
  {
    hide Fold, Sized, Sound, Written, Spill;
    match r
    case Planned(id, key, request, variant) => taken := ledger.PlanAttempt(id, key, request, variant, fault);
    case Dispatched(id) => taken := ledger.MarkDispatched(id, fault);
    case Completed(id, result) => taken := ledger.MarkCompleted(id, result, fault);
    case Failed(id, observed, category) => taken := ledger.MarkFailed(id, observed, category, fault);
  }

  /** One step of one arm: at most one call of the ledger. */
  method StepArm(ledger: GeneratorDispatchLedger, id: AttemptId, job: Job, arm: Arm, fault: Fault) returns (next: Arm)
    requires ledger.Valid()
    modifies ledger
    ensures ledger.Valid()
    ensures (ledger.records, ledger.disk, next)
            == StepOne(ledger.codec, ledger.binding, old(ledger.records), old(ledger.disk), id, job, arm, fault)
  {
    hide After, Accepts, Fold, Sized, Sound, Written, Spill;
    var wanted, taken := Wants(id, job, arm), true;
    if wanted.Some? { taken := Offer(ledger, wanted.value, fault); }
    next := After(id, job, arm, taken);
  }

  lemma NoTurns(codec: Codec<Record>, binding: Digest, jobs: map<AttemptId, Job>, w: World, schedule: seq<Turn>)
    ensures Run(codec, binding, jobs, w, schedule[..0]) == w
  {
  }

  lemma NextTurn(codec: Codec<Record>, binding: Digest, jobs: map<AttemptId, Job>, w: World, schedule: seq<Turn>,
          i: nat)
    requires i < |schedule|
    ensures Run(codec, binding, jobs, w, schedule[..i + 1])
            == Move(codec, binding, jobs, Run(codec, binding, jobs, w, schedule[..i]), schedule[i])
  {
    assert schedule[..i + 1][..i] == schedule[..i];
  }

  /** The two workers of a pair, or any number of arms, taking their steps as the schedule says. */
  method RunArms(ledger: GeneratorDispatchLedger, jobs: map<AttemptId, Job>, schedule: seq<Turn>)
    returns (arms: map<AttemptId, Arm>)
    requires ledger.Valid() && ledger.disk.Clean?
    modifies ledger
    ensures ledger.Valid()
    ensures World(ledger.records, ledger.disk, arms)
            == Run(ledger.codec, ledger.binding, jobs, Begin(old(ledger.records), jobs), schedule)
  {
    hide StepOne, Fold, Run;
    arms := map id | id in jobs :: START;
    NoTurns(ledger.codec, ledger.binding, jobs, Begin(ledger.records, jobs), schedule);
    for i := 0 to |schedule|
      invariant ledger.Valid() && arms.Keys == jobs.Keys
      invariant World(ledger.records, ledger.disk, arms)
                == Run(ledger.codec, ledger.binding, jobs, Begin(old(ledger.records), jobs), schedule[..i])
    {
      var turn := schedule[i];
      NextTurn(ledger.codec, ledger.binding, jobs, Begin(old(ledger.records), jobs), schedule, i);
      if turn.id in jobs {
        var next := StepArm(ledger, turn.id, jobs[turn.id], arms[turn.id], turn.fault);
        arms := arms[turn.id := next];
      }
    }
    assert schedule[..|schedule|] == schedule;
  }

  /** Steps an arm has before it at most. */
  function Ahead(job: Job, arm: Arm): nat
  {
    var cb := job.script.callbacks;
    match arm.place
    case Entering => cb + 13
    case Preparing => cb + 12
    case Planning => cb + 11
    case Synchronising => cb + 10
    case Calling(n) => if n <= cb then cb - n + 9 else 9
    case Late => 8
    case Checking => 7
    case Completing => 6
    case Settling(_) => 5
    case Finishing => 4
    case Handling(_) => 3
    case Writing(_) => 2
    case Returned(_) => 0
    case Left(_) => 0
  }

  lemma StepGoesOn(id: AttemptId, job: Job, arm: Arm, taken: bool)
    requires !Ended(arm.place)
    ensures Ahead(job, After(id, job, arm, taken)) < Ahead(job, arm)
  {
    hide After, Ahead;
    if Before(arm.place) || Between(arm.place) {
      EarlyStepGoesOn(id, job, arm, taken);
    } else {
      LateStepGoesOn(id, job, arm, taken);
    }
  }

  lemma EarlyStepGoesOn(id: AttemptId, job: Job, arm: Arm, taken: bool)
    requires Before(arm.place) || Between(arm.place)
    ensures Ahead(job, After(id, job, arm, taken)) < Ahead(job, arm)
  {
  }

  lemma LateStepGoesOn(id: AttemptId, job: Job, arm: Arm, taken: bool)
    requires !Ended(arm.place) && !Before(arm.place) && !Between(arm.place)
    ensures Ahead(job, After(id, job, arm, taken)) < Ahead(job, arm)
  {
  }

  lemma OneStepGoesOn(codec: Codec<Record>, binding: Digest, rs: seq<Record>, disk: Disk, id: AttemptId, job: Job,
          arm: Arm, fault: Fault)
    requires !Ended(arm.place)
    ensures Ahead(job, StepOne(codec, binding, rs, disk, id, job, arm, fault).2) < Ahead(job, arm)
  {
    hide Accepts, Wants, After, Ahead;
    StepGoesOn(id, job, arm, true);
    StepGoesOn(id, job, arm, false);
  }

  lemma NoTurnYet(codec: Codec<Record>, binding: Digest, id: AttemptId, job: Job, base: seq<Record>)
    ensures Run(codec, binding, map[id := job], Begin(base, map[id := job]), []) == World(base, Clean, map[id := START])
  {
    assert Begin(base, map[id := job]).arms == map[id := START];
  }

  lemma OneMoreTurn(codec: Codec<Record>, binding: Digest, id: AttemptId, job: Job, base: seq<Record>, turns: seq<Turn>,
          rs: seq<Record>, disk: Disk, arm: Arm, fault: Fault)
    requires Run(codec, binding, map[id := job], Begin(base, map[id := job]), turns) == World(rs, disk, map[id := arm])
    ensures var (records, after, next) := StepOne(codec, binding, rs, disk, id, job, arm, fault);
            Run(codec, binding, map[id := job], Begin(base, map[id := job]), turns + [Turn(id, fault)])
            == World(records, after, map[id := next])
  {
    hide StepOne;
    var next := StepOne(codec, binding, rs, disk, id, job, arm, fault).2;
    assert (turns + [Turn(id, fault)])[..|turns|] == turns;
    assert map[id := arm][id := next] == map[id := next];
  }

  /**
   An arm on its own turn, as in the serialized mode, with a fault or none in each step: it always ends, as
   its script and the denials say.
  */
  method RunArm(ledger: GeneratorDispatchLedger, id: AttemptId, job: Job, faults: nat -> Fault)
    returns (arm: Arm, ghost turns: seq<Turn>)
    requires ledger.Valid() && ledger.disk.Clean?
    modifies ledger
    ensures ledger.Valid()
    ensures Ended(arm.place) && arm.place == Ending(id, job.script, arm.denied)
    ensures forall i :: 0 <= i < |turns| ==> turns[i] == Turn(id, faults(i))
    ensures World(ledger.records, ledger.disk, map[id := arm])
            == Run(ledger.codec, ledger.binding, map[id := job], Begin(old(ledger.records), map[id := job]), turns)
  {
    hide StepOne, Run, Fold, Ending, After, Ahead, Sized, Sound, Written, OnDisk;
    ghost var jobs, base := map[id := job], ledger.records;
    arm, turns := START, [];
    var i := 0;
    NoTurnYet(ledger.codec, ledger.binding, id, job, base);
    while !Ended(arm.place)
      invariant ledger.Valid() && i == |turns|
      invariant forall k :: 0 <= k < i ==> turns[k] == Turn(id, faults(k))
      invariant World(ledger.records, ledger.disk, map[id := arm])
                == Run(ledger.codec, ledger.binding, jobs, Begin(base, jobs), turns)
      decreases Ahead(job, arm)
    {
      OneStepGoesOn(ledger.codec, ledger.binding, ledger.records, ledger.disk, id, job, arm, faults(i));
      OneMoreTurn(ledger.codec, ledger.binding, id, job, base, turns, ledger.records, ledger.disk, arm, faults(i));
      arm := StepArm(ledger, id, job, arm, faults(i));
      turns, i := turns + [Turn(id, faults(i))], i + 1;
    }
    EndedArms(ledger.codec, ledger.binding, jobs, base, turns, id);
  }

  /**
   A run: if any arm leaves without a result, so does the run; otherwise its closing audit, unless the
   journal cannot be read, finds what was unresolved before the run and nothing else, whatever the
   interleaving of the arms and the faults in their steps.
  */
  method RunAll(ledger: GeneratorDispatchLedger, jobs: map<AttemptId, Job>, schedule: seq<Turn>, closing: Fault)
    returns (arms: map<AttemptId, Arm>, unresolved: Option<set<AttemptId>>)
    requires ledger.Valid() && ledger.disk.Clean?
    modifies ledger
    ensures ledger.Valid()
    ensures World(ledger.records, ledger.disk, arms)
            == Run(ledger.codec, ledger.binding, jobs, Begin(old(ledger.records), jobs), schedule)
    ensures unresolved.Some? <==> (forall id :: id in arms ==> arms[id].place.Returned?) && !closing.Refuse?
    ensures unresolved.Some? ==> unresolved.value == Unresolved(old(ledger.State())) == Unresolved(ledger.State())
  {
    hide Run, Fold;
    arms := RunArms(ledger, jobs, schedule);
    if exists id :: id in arms && !arms[id].place.Returned? { return arms, None; }
    AuditIsClean(ledger.codec, ledger.binding, jobs, old(ledger.records), schedule);
    var found := ledger.Audit(closing);
    unresolved := if found.None? then None else Some(found.value.0);
  }
}
