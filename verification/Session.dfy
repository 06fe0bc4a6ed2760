/** A transfer session around the executor: the thread that repeats passes and closes the
    append gate, with the window and the planner working beside it. */
module Session {
  import opened Items
  import opened Sequences
  import opened LivePlan
  import opened PlanInvariant
  import opened PlanRuns
  import opened ExecutionControls
  import opened Executor
  import Desk = Reservations

  /** The session thread. From `Awake` to `Auditing` it holds the gate's lock. */
  datatype Thread =
    | Launching(retry: bool, replaceId: nat)
    | Passing
    | Settling(result: JobResult)
    | Waiting(result: JobResult)
    | Awake(result: JobResult)
    | Reading
    | Tallying
    | Auditing
    | Leaving(result: JobResult)
    | Over(result: JobResult)

  /** What the session was told, and its history: whether it closed the gate itself, whether
      a wait on the gate timed out, the ids of the items given to it, at its start or by an
      append, and the ids the user took out of the queue. */
  datatype Marks = Marks(
    cancelAsked: bool, stopToken: bool, own: bool, timedOut: bool, committed: set<nat>, withdrawn: set<nat>)

  datatype Session = Session(
    machine: Machine, policy: ConflictPolicy, office: Desk.Office, thread: Thread, marks: Marks)

  datatype Act =
    | ByThread(timeout: bool)
    | ByPass(step: Step)
    | ByDesk(errand: Desk.Errand)
    | Deliver(now: Path -> Key)
    | Ask(request: Request)
    | Edit(op: Op)

  predicate Flagged(n: Session) { n.marks.stopToken || n.marks.cancelAsked }
  predicate HoldsLock(t: Thread) { t.Awake? || t.Reading? || t.Tallying? || t.Auditing? }

  /** The pass's own steps: its main thread and its workers. */
  predicate Internal(step: Step) { step.ByWorker? || (step.ByMain? && !step.main.Begin?) }

  /** A finished plan is committed by its callback while the gate accepts. */
  predicate Commits(n: Session) {
    n.office.desk.work.Answering? && n.office.desk.work.plan.Some? && n.office.gate.accepting
  }

  /** The callback needs the gate's lock; a plan it commits fits 64 bits. */
  ghost predicate CanDeliver(n: Session, now: Path -> Key) {
    && !n.office.gate.locked
    && (Commits(n) ==> Allowed(n.machine.plan, DoAppend(now, n.office.desk.work.plan.value, true)))
  }

  /** The window may run this errand; callbacks and the gate's flags are not the window's. */
  predicate Errands(n: Session, e: Desk.Errand) {
    !e.Answer? && !e.Latch? && (e.Finish? ==> n.thread.Over?)
  }

  predicate CancelsOnWaking(n: Session) {
    n.thread.Awake? && (Flagged(n) || (n.thread.result == Stopped && n.machine.control.directive == Cancel))
  }

  /** The step of the executor's machine an act makes, if any. */
  ghost function StepOf(n: Session, act: Act): Option<Step> {
    match act
    case ByPass(step) => if n.thread.Passing? && Internal(step) then Some(step) else None
    case ByThread(_) =>
      if n.thread.Launching? then Some(ByMain(Begin(n.thread.retry, Options(n.thread.replaceId, n.policy))))
      else if CancelsOnWaking(n) then Some(ByControl(AskCancel))
      else None
    case Ask(r) => if Desk.Attended(n.office.desk) then Some(ByControl(r)) else None
    case ByDesk(e) => if e.Carry? && n.office.desk.window.Cancelling? then Some(ByControl(AskCancel)) else None
    case Edit(op) =>
      if Desk.Attended(n.office.desk) && (op.DoReorder? || op.DoRemove?) then Some(ByOthers(op)) else None
    case Deliver(now) =>
      if CanDeliver(n, now) && Commits(n) then
        Some(ByOthers(DoAppend(now, n.office.desk.work.plan.value, true)))
      else None
  }

  // ---- the session thread ----

  /** What a step of the thread leaves: the gate's flags, the thread, and its history. */
  datatype Turn = Turn(accepting: bool, locked: bool, thread: Thread, own: bool, timedOut: bool)

  function Goes(n: Session, t: Thread): Turn {
    Turn(n.office.gate.accepting, HoldsLock(t), t, n.marks.own, n.marks.timedOut)
  }

  function Shuts(n: Session, t: Thread): Turn { Goes(n, t).(accepting := false) }

  function ThreadStep(n: Session, timeout: bool): Turn {
    var gate, plan := n.office.gate, n.machine.plan;
    match n.thread
    case Launching(_, _) => Goes(n, Passing)
    case Passing =>
      if n.machine.phase.Finished? then
        var r := n.machine.phase.result;
        Goes(n, if r.Cancelled? || r.Broken? then Leaving(r) else Settling(r))
      else Goes(n, Passing)
    case Settling(r) => Goes(n, if gate.planning != 0 && gate.accepting then Waiting(r) else Awake(r))
    case Waiting(r) =>
      if gate.planning == 0 || !gate.accepting then Goes(n, Awake(r))
      else if timeout then Shuts(n, Awake(r)).(timedOut := true)
      else Goes(n, Waiting(r))
    case Awake(r) =>
      if r == Stopped then Shuts(n, Leaving(if CancelsOnWaking(n) then Cancelled else Stopped))
      else if Flagged(n) then Shuts(n, Leaving(Cancelled))
      else Goes(n, if gate.accepting then Tallying else Reading)
    case Reading =>
      Goes(n, Leaving(match n.machine.control.directive
                      case Cancel => Cancelled
                      case Stop => Stopped
                      case _ => Success))
    case Tallying => Goes(n, if RemainingFiles(plan) != 0 then Launching(false, 0) else Auditing)
    case Auditing =>
      if plan.materialized < |plan.directories| then Goes(n, Launching(false, 0))
      else Shuts(n, Leaving(Success)).(own := true)
    case Leaving(r) => Shuts(n, Over(r))
    case Over(r) => Goes(n, Over(r))
  }

  // ---- the whole session ----

  ghost function OfficeAfter(n: Session, act: Act): Desk.Office {
    match act
    case ByThread(timeout) =>
      var t := ThreadStep(n, timeout);
      Desk.Run(n.office, Desk.Latch(t.accepting, t.locked))
    case ByDesk(e) => if Errands(n, e) then Desk.Run(n.office, e) else n.office
    case Deliver(now) => if CanDeliver(n, now) then Desk.Run(n.office, Desk.Answer) else n.office
    case _ => n.office
  }

  ghost function MarksAfter(k: Keys, n: Session, act: Act): Marks {
    match act
    case ByThread(timeout) =>
      var t := ThreadStep(n, timeout);
      n.marks.(own := t.own, timedOut := t.timedOut)
    case ByDesk(e) =>
      if e.BeginCancel? && Desk.Attended(n.office.desk) then n.marks.(cancelAsked := true)
      else if e.Carry? && n.office.desk.window.Halting? then n.marks.(stopToken := true)
      else n.marks
    case Edit(op) =>
      if Desk.Attended(n.office.desk) && op.DoRemove? then n.marks.(withdrawn := n.marks.withdrawn + op.ids) else n.marks
    case Deliver(now) =>
      if StepOf(n, act).Some? then
        n.marks.(committed := n.marks.committed
                   + IdSet(Append(k, now, n.machine.plan, n.office.desk.work.plan.value, true).0.pending))
      else n.marks
    case _ => n.marks
  }

  ghost function MachineAfter(k: Keys, n: Session, act: Act): Machine {
    match StepOf(n, act) case None => n.machine case Some(step) => Next(k, n.machine, step)
  }

  /** Any act by anyone; one that is not possible now changes nothing. */
  ghost function Turned(k: Keys, n: Session, act: Act): Session {
    Session(MachineAfter(k, n, act), n.policy, OfficeAfter(n, act),
            if act.ByThread? then ThreadStep(n, act.timeout).thread else n.thread, MarksAfter(k, n, act))
  }

  ghost function Acted(k: Keys, n: Session, acts: seq<Act>): Session
    decreases |acts|
  {
    if acts == [] then n else Acted(k, Turned(k, n, acts[0]), acts[1..])
  }

  /** A session that starts, or starts again, over a plan: with whatever was done to the plan
      before, and whatever is reserved at the gate. */
  function Opened(s: Plan, office: Desk.Office, retry: bool, replaceId: nat, policy: ConflictPolicy): Session {
    Session(Start(s), policy, office, Launching(retry, replaceId),
            Marks(false, false, false, false, IdSet(InFlight(s)), {}))
  }
}
