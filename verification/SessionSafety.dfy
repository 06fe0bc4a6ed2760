/** What holds over every run of a session: a session that closes its gate itself has
    drained, and whatever way it ends nothing is committed any more. */
module SessionSafety {
  import opened Items
  import opened Sequences
  import opened LivePlan
  import opened PlanInvariant
  import opened PlanEntry
  import opened PlanRuns
  import opened ExecutionControls
  import opened Executor
  import opened ExecutorOwnership
  import opened ExecutorRuns
  import opened Session
  import Desk = Reservations

  // ---- the machine and the reservations inside the session ----

  lemma MachineKept(k: Keys, n: Session, act: Act)
    requires Sound(k, n.machine) && Trusted(n.machine)
    ensures Sound(k, MachineAfter(k, n, act)) && Trusted(MachineAfter(k, n, act))
  {
    hide Sound, Trusted, Next, StepOf;
    if StepOf(n, act).Some? { StepTrusted(k, n.machine, StepOf(n, act).value); }
  }

  lemma OfficeKept(n: Session, act: Act)
    requires Desk.Reckoned(n.office)
    ensures Desk.Reckoned(OfficeAfter(n, act))
  {
    hide Desk.Reckoned, Desk.Run, CanDeliver, ThreadStep, Errands;
    match act {
      case ByThread(timeout) =>
        var t := ThreadStep(n, timeout);
        Desk.RunReckons(n.office, Desk.Latch(t.accepting, t.locked));
      case ByDesk(e) => if Errands(n, e) { Desk.RunReckons(n.office, e); }
      case Deliver(now) => if CanDeliver(n, now) { Desk.RunReckons(n.office, Desk.Answer); }
      case ByPass(_) =>
      case Ask(_) =>
      case Edit(_) =>
    }
  }

  // ---- how the thread, the gate and the window fit together ----

  /** No file waits or is being transferred. */
  predicate NothingQueued(s: Plan) { s.pending == [] && s.active == [] }

  /** Nor is a directory left to make: everything unresolved is parked. */
  predicate WorkDone(s: Plan) { NothingQueued(s) && s.materialized >= |s.directories| }

  predicate CancelUnderWay(w: Desk.Window) {
    w.Dropping? || w.Flushing? || w.Releasing? || w.Shutting? || w.Halting? || w.Cancelling?
  }

  /** The lock, the phases and the ways the gate can have been closed. */
  predicate Orderly(n: Session) {
    var t, g, marks := n.thread, n.office.gate, n.marks;
    && g.locked == HoldsLock(t)
    && (!t.Passing? ==> Between(n.machine))
    && (t.Settling? || t.Waiting? || t.Awake? ==> t.result == Success || t.result == Stopped)
    && (CancelUnderWay(n.office.desk.window) || marks.stopToken ==> marks.cancelAsked)
    && (!g.accepting ==> marks.cancelAsked || marks.timedOut || t.Leaving? || t.Over?)
    && (t.Reading? ==> !g.accepting && marks.timedOut)
    && (t.Tallying? || t.Auditing? ==> g.accepting)
    && (t.Over? || marks.own ==> !g.accepting)
  }

  /** What the session knows when it is about to leave in success. */
  predicate Closes(n: Session) {
    && (n.thread.Auditing? ==> NothingQueued(n.machine.plan))
    && (n.marks.own ==> (n.thread == Leaving(Success) || n.thread == Over(Success)) && WorkDone(n.machine.plan))
    && (n.thread == Leaving(Success) || n.thread == Over(Success) ==> n.marks.own || n.marks.timedOut)
  }

  ghost predicate Disciplined(n: Session) { Orderly(n) && Closes(n) }

  lemma EditsNothing(k: Keys, s: Plan, op: Op)
    requires s.pending == [] && (op.DoReorder? || op.DoRemove?) && Allowed(s, op)
    ensures Apply(k, s, op) == s
  {
    if op.DoReorder? { assert |op.order| == |multiset(op.order)| == |multiset(s.pending)|; }
  }

  /** Only the thread's own pass moves the executor on; others leave its phase alone. */
  lemma PhaseStays(k: Keys, n: Session, act: Act)
    requires !act.ByPass? && !(act.ByThread? && n.thread.Launching?)
    ensures MachineAfter(k, n, act).phase == n.machine.phase
  {
    hide Apply, Allowed, CanDeliver;
  }

  lemma OtherPlans(k: Keys, n: Session, act: Act)
    requires !act.ByPass? && !act.ByThread? && !act.Edit? && !act.Deliver?
    ensures MachineAfter(k, n, act).plan == n.machine.plan
  {
  }

  lemma PassPlans(k: Keys, n: Session, act: Act)
    requires act.ByPass? && !n.thread.Passing?
    ensures MachineAfter(k, n, act) == n.machine
  {
  }

  /** While the session audits the plan, or has closed its gate, the plan stays empty. */
  lemma PlanStays(k: Keys, n: Session, act: Act)
    requires Orderly(n) && Closes(n) && (n.thread.Auditing? || n.marks.own)
    ensures MachineAfter(k, n, act).plan == n.machine.plan
  {
    hide Apply, Allowed, MachineAfter;
    match act {
      case Edit(op) => EditPlans(k, n, op);
      case Deliver(now) => DeliverPlans(k, n, now);
      case ByPass(_) => PassPlans(k, n, act);
      case ByThread(_) => ThreadPlans(k, n, act);
      case ByDesk(_) => OtherPlans(k, n, act);
      case Ask(_) => OtherPlans(k, n, act);
    }
  }

  lemma ThreadPlans(k: Keys, n: Session, act: Act)
    requires act.ByThread? && Orderly(n)
    ensures MachineAfter(k, n, act).plan == n.machine.plan
  {
    hide RetryStep, BatchStep;
  }

  lemma EditPlans(k: Keys, n: Session, op: Op)
    requires n.machine.plan.pending == []
    ensures MachineAfter(k, n, Edit(op)).plan == n.machine.plan
  {
    hide Apply, Allowed;
    if (op.DoReorder? || op.DoRemove?) && Allowed(n.machine.plan, op) { EditsNothing(k, n.machine.plan, op); }
  }

  lemma DeliverPlans(k: Keys, n: Session, now: Path -> Key)
    requires n.office.gate.locked || !n.office.gate.accepting
    ensures MachineAfter(k, n, Deliver(now)).plan == n.machine.plan
  {
    hide Apply, Allowed;
  }

  // ---- every act keeps that order ----

  /** What the thread's turn does to gate and history. */
  lemma ThreadOffice(n: Session, timeout: bool)
    ensures var t, o := ThreadStep(n, timeout), OfficeAfter(n, ByThread(timeout));
      && o.desk == n.office.desk && o.gate.accepting == t.accepting && o.gate.locked == t.locked
      && o.gate.planning == n.office.gate.planning
    ensures var t, marks := ThreadStep(n, timeout), n.marks;
      forall k :: MarksAfter(k, n, ByThread(timeout)) == marks.(own := t.own, timedOut := t.timedOut)
  {
    hide ThreadStep;
  }

  lemma ThreadOrderly(n: Session, timeout: bool)
    requires Orderly(n) && Closes(n)
    ensures var t, marks := ThreadStep(n, timeout), n.marks;
      && t.locked == HoldsLock(t.thread)
      && (!t.thread.Passing? ==> Between(n.machine))
      && (t.thread.Settling? || t.thread.Waiting? || t.thread.Awake? ==> t.thread.result == Success || t.thread.result == Stopped)
      && (!t.accepting ==> marks.cancelAsked || t.timedOut || t.thread.Leaving? || t.thread.Over?)
      && (t.thread.Reading? ==> !t.accepting && t.timedOut)
      && (t.thread.Tallying? || t.thread.Auditing? ==> t.accepting)
      && (t.thread.Over? || t.own ==> !t.accepting)
  {
    match n.thread {
      case Launching(_, _) =>
      case Passing =>
      case Settling(_) =>
      case Waiting(_) =>
      case Awake(_) =>
      case Reading =>
      case Tallying =>
      case Auditing =>
      case Leaving(_) =>
      case Over(_) =>
    }
  }

  lemma ThreadCloses(n: Session, timeout: bool)
    requires Orderly(n) && Closes(n)
    ensures var t := ThreadStep(n, timeout);
      && (t.thread.Auditing? ==> NothingQueued(n.machine.plan))
      && (t.own ==> (t.thread == Leaving(Success) || t.thread == Over(Success)) && WorkDone(n.machine.plan))
      && (t.thread == Leaving(Success) || t.thread == Over(Success) ==> t.own || t.timedOut)
  {
    match n.thread {
      case Launching(_, _) =>
      case Passing =>
      case Settling(_) =>
      case Waiting(_) =>
      case Awake(_) =>
      case Reading =>
      case Tallying =>
      case Auditing =>
      case Leaving(_) =>
      case Over(_) =>
    }
  }

  lemma ThreadGuards(k: Keys, n: Session, timeout: bool)
    requires Disciplined(n)
    ensures Disciplined(Turned(k, n, ByThread(timeout)))
  {
    hide ThreadStep, OfficeAfter, MarksAfter, MachineAfter, NothingQueued, WorkDone, Between, CancelUnderWay, HoldsLock;
    ThreadOffice(n, timeout);
    ThreadOrderly(n, timeout);
    ThreadCloses(n, timeout);
    ThreadPlans(k, n, ByThread(timeout));
    SamePlanDrains(n.machine.plan, MachineAfter(k, n, ByThread(timeout)).plan);
    ThreadBetween(k, n, timeout);
  }

  lemma SamePlanDrains(s: Plan, t: Plan)
    requires s == t
    ensures NothingQueued(s) == NothingQueued(t) && WorkDone(s) == WorkDone(t)
  {
  }

  lemma ThreadBetween(k: Keys, n: Session, timeout: bool)
    requires Orderly(n)
    ensures !ThreadStep(n, timeout).thread.Passing? && Between(n.machine) ==> Between(MachineAfter(k, n, ByThread(timeout)))
  {
    hide ThreadStep;
    if !n.thread.Launching? {
      PhaseStays(k, n, ByThread(timeout));
    } else {
      LaunchPasses(n, timeout);
    }
  }

  lemma LaunchPasses(n: Session, timeout: bool)
    requires n.thread.Launching?
    ensures ThreadStep(n, timeout).thread.Passing?
  {
  }

  /** What any other act may do to gate, window and marks. */
  lemma OthersOffice(k: Keys, n: Session, act: Act)
    requires Orderly(n) && !act.ByThread?
    ensures var o, marks := OfficeAfter(n, act), MarksAfter(k, n, act);
      && o.gate.locked == n.office.gate.locked && (o.gate.accepting ==> n.office.gate.accepting)
      && (n.office.gate.accepting && !o.gate.accepting ==> n.marks.cancelAsked && !n.office.gate.locked)
      && marks.own == n.marks.own && marks.timedOut == n.marks.timedOut
      && (n.marks.cancelAsked ==> marks.cancelAsked)
      && (CancelUnderWay(o.desk.window) || marks.stopToken ==> marks.cancelAsked)
  {
    hide CanDeliver, Append, Commits;
    match act {
      case ByDesk(e) => if Errands(n, e) { DeskOffice(n, e); }
      case Deliver(now) =>
      case ByPass(_) =>
      case Ask(_) =>
      case Edit(_) =>
    }
  }

  lemma DeskOffice(n: Session, e: Desk.Errand)
    requires Orderly(n) && Errands(n, e)
    ensures var o := Desk.Run(n.office, e);
      && o.gate.locked == n.office.gate.locked && (o.gate.accepting ==> n.office.gate.accepting)
      && (n.office.gate.accepting && !o.gate.accepting ==> n.marks.cancelAsked && !n.office.gate.locked)
      && (CancelUnderWay(o.desk.window) ==>
            CancelUnderWay(n.office.desk.window) || (e.BeginCancel? && Desk.Attended(n.office.desk)))
  {
  }

  lemma OthersGuard(k: Keys, n: Session, act: Act)
    requires Disciplined(n) && !act.ByThread?
    ensures Disciplined(Turned(k, n, act))
  {
    hide OfficeAfter, MarksAfter, MachineAfter, NothingQueued, WorkDone, CancelUnderWay, StepOf;
    OthersOffice(k, n, act);
    if n.thread.Auditing? || n.marks.own { PlanStays(k, n, act); }
    if act.ByPass? {
      if !n.thread.Passing? { PassPlans(k, n, act); }
    } else {
      PhaseStays(k, n, act);
    }
  }

  /** Everything a session keeps. */
  ghost predicate Safe(k: Keys, n: Session) {
    Sound(k, n.machine) && Trusted(n.machine) && Desk.Reckoned(n.office) && Disciplined(n)
  }

  lemma ActKeeps(k: Keys, n: Session, act: Act)
    requires Safe(k, n)
    ensures Safe(k, Turned(k, n, act))
  {
    hide Sound, Trusted, Desk.Reckoned, Disciplined, MachineAfter, OfficeAfter, MarksAfter;
    MachineKept(k, n, act);
    OfficeKept(n, act);
    if act.ByThread? { ThreadGuards(k, n, act.timeout); } else { OthersGuard(k, n, act); }
  }

  lemma {:induction false} SafeOverRuns(k: Keys, n: Session, acts: seq<Act>)
    requires Safe(k, n)
    ensures Safe(k, Acted(k, n, acts))
    decreases |acts|
  {
    if acts != [] {
      hide Safe, Turned;
      ActKeeps(k, n, acts[0]);
      SafeOverRuns(k, Turned(k, n, acts[0]), acts[1..]);
    }
  }

  /** What the window provides when it starts a session: a gate that is open, with sound books
      and nobody cancelling. */
  ghost predicate Startable(o: Desk.Office) {
    Desk.Reckoned(o) && o.gate.accepting && !o.gate.locked && !CancelUnderWay(o.desk.window)
  }

  lemma OpensSafe(k: Keys, s: Plan, office: Desk.Office, retry: bool, replaceId: nat, policy: ConflictPolicy)
    requires Inv(k, s) && Startable(office)
    ensures Safe(k, Opened(s, office, retry, replaceId, policy))
  {
    hide Sound, Trusted, Inv;
    StartsSound(k, s);
  }
}
