/** How a session ends: drained, unless its bounded wait on the gate timed out, and closed
    for good. */
module SessionDrain {
  import opened Items
  import opened Sequences
  import opened LivePlan
  import opened PlanInvariant
  import opened PlanEntry
  import opened PlanRuns
  import opened ExecutionControls
  import opened Executor
  import opened ExecutorOwnership
  import opened ExecutorRuns
  import opened Session
  import opened SessionSafety
  import Desk = Reservations

  // ---- appended items are never lost ----

  /** The item is still in the plan, in whatever state. */
  predicate Known(s: Plan, id: nat) { StateOf(IdsOf(s), id).Some? }

  /** Every appended item is still in the plan, or the user took it out of the queue. */
  ghost predicate Kept(n: Session) {
    forall id :: id in n.marks.committed ==> id in n.marks.withdrawn || Known(n.machine.plan, id)
  }

  lemma CallKeepsKnown(k: Keys, s: Plan, op: Op, id: nat)
    requires Inv(k, s) && Allowed(s, op) && Known(s, id) && !op.DoSkip? && (op.DoRemove? ==> id !in op.ids)
    ensures Known(Apply(k, s, op), id)
  {
    hide Inv, Apply, IdsOf, Allowed;
    StepLawful(k, s, op);
    assert Lawful(s, op, id, StateOf(IdsOf(s), id), StateOf(IdsOf(Apply(k, s, op)), id));
  }

  lemma WorkerNeverRemoves(k: Keys, s: Plan, c: Control, o: Options, w: Worker, x: Event)
    requires WorkerStep(k, s, c, o, w, x).Some? && WorkerStep(k, s, c, o, w, x).value.op.Some?
    ensures var op := WorkerStep(k, s, c, o, w, x).value.op.value; !op.DoSkip? && !op.DoRemove?
  {
    hide Redirect, Find, AfterAttempt, AfterRemoval;
  }

  lemma MainNeverRemoves(p: Phase)
    ensures !MainOp(p).DoSkip? && !MainOp(p).DoRemove?
  {
  }

  /** Whatever the executor does, the item stays in the plan. */
  lemma StepKeepsKnown(k: Keys, m: Machine, step: Step, id: nat)
    requires Sound(k, m) && Known(m.plan, id)
    requires step.ByOthers? ==> !step.op.DoSkip? && (step.op.DoRemove? ==> id !in step.op.ids)
    ensures Known(Next(k, m, step).plan, id)
  {
    hide Sound, Inv, Known, MainStep, WorkerStep, Apply, Outside, Allowed, MainOp;
    SoundParts(k, m);
    match step {
      case ByControl(_) =>
      case Resume =>
      case ByOthers(op) => if Outside(m, op) && Allowed(m.plan, op) { CallKeepsKnown(k, m.plan, op, id); }
      case ByMain(e) =>
        MainCalls(k, m, e);
        MainNeverRemoves(m.phase);
        MainOrderly(k, m);
        CallKeepsKnown(k, m.plan, MainOp(m.phase), id);
      case ByWorker(i, x) =>
        if m.phase.Working? && i < |m.workers| && WorkerStep(k, m.plan, m.control, m.options, m.workers[i], x).Some? {
          WorkerCallKeepsKnown(k, m, i, x, id);
        }
    }
  }

  lemma WorkerCallKeepsKnown(k: Keys, m: Machine, i: nat, x: Event, id: nat)
    requires Sound(k, m) && Known(m.plan, id) && m.phase.Working? && i < |m.workers|
    requires WorkerStep(k, m.plan, m.control, m.options, m.workers[i], x).Some?
    ensures var e := WorkerStep(k, m.plan, m.control, m.options, m.workers[i], x).value;
      e.op.Some? ==> Known(Apply(k, m.plan, e.op.value), id)
  {
    hide Sound, Inv, Known, WorkerStep, Apply, Allowed, Held, WellPlaced;
    var e := WorkerStep(k, m.plan, m.control, m.options, m.workers[i], x).value;
    if e.op.Some? {
      SoundParts(k, m);
      ActiveDistinct(k, m.plan);
      OwnedMember(m, i);
      PlacedMember(m, i);
      WorkerBalanced(k, m.plan, m.control, m.options, m.workers[i], x);
      WorkerNeverRemoves(k, m.plan, m.control, m.options, m.workers[i], x);
      CallKeepsKnown(k, m.plan, e.op.value, id);
    }
  }

  lemma CommittedKnown(k: Keys, n: Session, now: Path -> Key, id: nat)
    requires StepOf(n, Deliver(now)).Some? && id in MarksAfter(k, n, Deliver(now)).committed && id !in n.marks.committed
    ensures Known(MachineAfter(k, n, Deliver(now)).plan, id)
  {
    hide Append, Allowed;
  }

  lemma ActKept(k: Keys, n: Session, act: Act)
    requires Sound(k, n.machine) && Kept(n)
    ensures Kept(Turned(k, n, act))
  {
    hide Sound, Known, MachineAfter, MarksAfter, StepOf;
    var t := Turned(k, n, act);
    forall id | id in t.marks.committed
      ensures id in t.marks.withdrawn || Known(t.machine.plan, id)
    {
      MarksGrow(k, n, act, id);
      if id in n.marks.committed {
        if id !in t.marks.withdrawn {
          ActKeepsKnown(k, n, act, id);
        }
      } else {
        CommittedKnown(k, n, act.now, id);
      }
    }
  }

  lemma MarksGrow(k: Keys, n: Session, act: Act, id: nat)
    ensures var marks := MarksAfter(k, n, act);
      && n.marks.withdrawn <= marks.withdrawn
      && (id in marks.committed && id !in n.marks.committed ==> act.Deliver? && StepOf(n, act).Some?)
      && (act.Edit? && act.op.DoRemove? && StepOf(n, act).Some? ==> act.op.ids <= marks.withdrawn)
  {
    hide Append, Allowed;
  }

  lemma ActKeepsKnown(k: Keys, n: Session, act: Act, id: nat)
    requires Sound(k, n.machine) && Known(n.machine.plan, id) && id !in MarksAfter(k, n, act).withdrawn
    ensures Known(MachineAfter(k, n, act).plan, id)
  {
    hide Sound, Known, MarksAfter, Next;
    MarksGrow(k, n, act, id);
    if StepOf(n, act).Some? {
      if StepOf(n, act).value.ByOthers? { StepKind(n, act); }
      StepKeepsKnown(k, n.machine, StepOf(n, act).value, id);
    }
  }

  /** Others edit the queue or append; they never take an item out any other way. */
  lemma StepKind(n: Session, act: Act)
    requires StepOf(n, act).Some? && StepOf(n, act).value.ByOthers?
    ensures var op := StepOf(n, act).value.op;
      !op.DoSkip? && (op.DoRemove? ==> act == Edit(op))
  {
    hide Allowed;
  }

  // ---- how a session ends ----

  lemma {:induction false} KeptOverRuns(k: Keys, n: Session, acts: seq<Act>)
    requires Safe(k, n) && Kept(n)
    ensures Safe(k, Acted(k, n, acts)) && Kept(Acted(k, n, acts))
    decreases |acts|
  {
    if acts != [] {
      hide Kept, Turned;
      ActKeeps(k, n, acts[0]);
      assert Kept(Turned(k, n, acts[0])) by { SafeParts(k, n); ActKept(k, n, acts[0]); }
      hide Safe;
      KeptOverRuns(k, Turned(k, n, acts[0]), acts[1..]);
    }
  }

  lemma SafeParts(k: Keys, n: Session)
    requires Safe(k, n)
    ensures Sound(k, n.machine) && Disciplined(n) && Desk.Reckoned(n.office)
  {
  }

  /** Every appended item has come to rest. */
  ghost predicate AtRest(n: Session) {
    forall id :: id in n.marks.committed && id !in n.marks.withdrawn ==>
      StateOf(IdsOf(n.machine.plan), id) == Some(Parked) || StateOf(IdsOf(n.machine.plan), id) == Some(Terminal)
  }

  lemma EmptyRests(n: Session)
    requires Kept(n) && NothingQueued(n.machine.plan)
    ensures AtRest(n)
  {
  }

  /** However passes, edits, pastes and callbacks interleave, and wherever an earlier session
      left plan and gate: a session that ends in success without its wait timing out closed
      the gate itself, with no file pending or active, no directory left to make, and every
      item it was given parked, settled or taken out by the user. */
  lemma SessionDrains(
      k: Keys, s: Plan, office: Desk.Office, retry: bool, replaceId: nat, policy: ConflictPolicy, acts: seq<Act>)
    requires Inv(k, s) && Startable(office)
    ensures var n := Acted(k, Opened(s, office, retry, replaceId, policy), acts);
      n.thread == Over(Success) && !n.marks.timedOut ==>
        n.marks.own && WorkDone(n.machine.plan) && !n.office.gate.accepting && AtRest(n)
    ensures forall f :: f in InFlight(s) ==> f.id in Acted(k, Opened(s, office, retry, replaceId, policy), acts).marks.committed
  {
    var start := Opened(s, office, retry, replaceId, policy);
    var n := Acted(k, start, acts);
    hide Inv, Acted, Kept, AtRest, Startable, Opened;
    OpensSafe(k, s, office, retry, replaceId, policy);
    OpensKept(s, office, retry, replaceId, policy);
    KeptOverRuns(k, start, acts);
    MarksOverRuns(k, start, acts);
    SafeParts(k, n);
    if n.thread == Over(Success) && !n.marks.timedOut { EmptyRests(n); }
  }

  lemma OpensKept(s: Plan, office: Desk.Office, retry: bool, replaceId: nat, policy: ConflictPolicy)
    ensures Kept(Opened(s, office, retry, replaceId, policy))
    ensures Opened(s, office, retry, replaceId, policy).marks.committed == IdSet(InFlight(s))
  {
    hide InFlight;
    forall f | f in InFlight(s)
      ensures Known(s, f.id)
    {
      FlightKnown(s, f);
    }
  }

  lemma FlightKnown(s: Plan, f: File)
    requires f in InFlight(s)
    ensures Known(s, f.id)
  {
  }

  /** No item given to the session is ever struck off its list. */
  lemma {:induction false} MarksOverRuns(k: Keys, n: Session, acts: seq<Act>)
    ensures n.marks.committed <= Acted(k, n, acts).marks.committed
    decreases |acts|
  {
    if acts != [] {
      hide Turned;
      assert n.marks.committed <= Turned(k, n, acts[0]).marks.committed by { MarksStay(k, n, acts[0]); }
      MarksOverRuns(k, Turned(k, n, acts[0]), acts[1..]);
    }
  }

  lemma MarksStay(k: Keys, n: Session, act: Act)
    ensures n.marks.committed <= Turned(k, n, act).marks.committed
  {
    hide Append, MachineAfter, OfficeAfter, StepOf;
  }

  /** After any exit no callback commits anything: the gate is shut, the session stays over
      with its result, and only the user can still take items out of the queue. */
  lemma OverIsFinal(k: Keys, n: Session, act: Act)
    requires Safe(k, n) && n.thread.Over?
    ensures var t := Turned(k, n, act);
      && t.thread == n.thread && !t.office.gate.accepting && t.marks.committed == n.marks.committed
      && (!act.Edit? ==> t.machine.plan == n.machine.plan)
  {
    hide Safe, MachineAfter, OfficeAfter, MarksAfter, Orderly;
    assert Orderly(n) && !n.office.gate.accepting by { OverIsShut(k, n); }
    OverThread(k, n, act);
    assert !Turned(k, n, act).office.gate.accepting by {
      ActKeeps(k, n, act);
      OverIsShut(k, Turned(k, n, act));
    }
    if !act.Edit? { OverPlans(k, n, act); }
  }

  lemma OverIsShut(k: Keys, n: Session)
    requires Safe(k, n) && n.thread.Over?
    ensures Orderly(n) && !n.office.gate.accepting
  {
    hide Sound, Trusted, Desk.Reckoned;
  }

  lemma OverThread(k: Keys, n: Session, act: Act)
    requires n.thread.Over? && !n.office.gate.accepting
    ensures Turned(k, n, act).thread == n.thread && MarksAfter(k, n, act).committed == n.marks.committed
  {
    hide Append, Allowed;
  }

  lemma OverPlans(k: Keys, n: Session, act: Act)
    requires Orderly(n) && n.thread.Over? && !n.office.gate.accepting && !act.Edit?
    ensures MachineAfter(k, n, act).plan == n.machine.plan
  {
    hide MachineAfter;
    match act {
      case Deliver(now) => DeliverPlans(k, n, now);
      case ByPass(_) => PassPlans(k, n, act);
      case ByThread(_) => ThreadPlans(k, n, act);
      case ByDesk(_) => OtherPlans(k, n, act);
      case Ask(_) => OtherPlans(k, n, act);
    }
  }

  lemma {:induction false} NothingCommittedAfter(k: Keys, n: Session, acts: seq<Act>)
    requires Safe(k, n) && n.thread.Over?
    ensures var t := Acted(k, n, acts);
      t.thread == n.thread && t.marks.committed == n.marks.committed && !t.office.gate.accepting
    decreases |acts|
  {
    if acts != [] {
      hide Safe, Turned;
      OverIsFinal(k, n, acts[0]);
      ActKeeps(k, n, acts[0]);
      NothingCommittedAfter(k, Turned(k, n, acts[0]), acts[1..]);
    } else {
      SafeParts(k, n);
    }
  }

  /** A drained session stays drained: nothing brings work back into its plan. */
  lemma {:induction false} DrainedForGood(k: Keys, n: Session, acts: seq<Act>)
    requires Safe(k, n) && n.marks.own
    ensures Acted(k, n, acts).machine.plan == n.machine.plan && WorkDone(n.machine.plan)
    decreases |acts|
  {
    SafeParts(k, n);
    if acts != [] {
      hide Safe, Turned;
      assert Turned(k, n, acts[0]).machine.plan == n.machine.plan && Turned(k, n, acts[0]).marks.own by { OwnStays(k, n, acts[0]); }
      ActKeeps(k, n, acts[0]);
      DrainedForGood(k, Turned(k, n, acts[0]), acts[1..]);
    }
  }

  lemma OwnStays(k: Keys, n: Session, act: Act)
    requires Disciplined(n) && n.marks.own
    ensures Turned(k, n, act).machine.plan == n.machine.plan && Turned(k, n, act).marks.own
  {
    hide MachineAfter, OfficeAfter, Append, Allowed;
    PlanStays(k, n, act);
  }

  // ---- the wait that times out ----

  const TIMES_OUT := [ByThread(true), ByThread(false), ByThread(false), ByThread(false)]

  lemma TimeoutLeaves(k: Keys, n: Session)
    requires n.thread == Waiting(Success) && n.office.gate.planning != 0 && n.office.gate.accepting
    requires !Flagged(n) && n.machine.control.directive == Run
    ensures var t := Acted(k, n, TIMES_OUT);
      t.thread == Over(Success) && t.marks.timedOut && t.machine == n.machine && !t.office.gate.accepting
  {
    var a := Turned(k, n, ByThread(true));
    assert a.thread == Awake(Success) && !a.office.gate.accepting && a.marks.timedOut && a.machine == n.machine;
    assert !Flagged(a);
    ShutLeaves(k, a);
    hide Turned;
    Four(k, n, ByThread(true), ByThread(false), ByThread(false), ByThread(false));
  }

  /** From any wait in which work has been committed while another reservation is out, the
      timeout ends the session in success with that work still queued; and unless the user
      edits the queue, nothing that happens afterwards ever takes it up. */
  lemma TimeoutStrands(k: Keys, n: Session, later: seq<Act>)
    requires Safe(k, n) && n.thread == Waiting(Success) && n.office.gate.planning != 0 && n.office.gate.accepting
    requires !Flagged(n) && n.machine.control.directive == Run && n.machine.plan.pending != []
    requires forall act :: act in later ==> !act.Edit?
    ensures Acted(k, n, TIMES_OUT).thread == Over(Success) && Acted(k, n, TIMES_OUT).marks.timedOut
    ensures var t := Acted(k, n, TIMES_OUT + later);
      && t.thread == Over(Success) && t.machine.plan == n.machine.plan && t.machine.plan.pending != []
      && !t.office.gate.accepting
  {
    hide Safe, Acted, Flagged;
    TimeoutLeaves(k, n);
    SafeOverRuns(k, n, TIMES_OUT);
    ActedInTurn(k, n, TIMES_OUT, later);
    StrandedStays(k, Acted(k, n, TIMES_OUT), later);
  }

  lemma {:induction false} StrandedStays(k: Keys, n: Session, acts: seq<Act>)
    requires Safe(k, n) && n.thread.Over? && forall act :: act in acts ==> !act.Edit?
    ensures var t := Acted(k, n, acts);
      t.thread == n.thread && t.machine.plan == n.machine.plan && !t.office.gate.accepting
    decreases |acts|
  {
    if acts != [] {
      hide Safe, Turned;
      assert acts[0] in acts;
      OverIsFinal(k, n, acts[0]);
      ActKeeps(k, n, acts[0]);
      StrandedStays(k, Turned(k, n, acts[0]), acts[1..]);
    } else {
      SafeParts(k, n);
    }
  }

  lemma ShutLeaves(k: Keys, a: Session)
    requires a.thread == Awake(Success) && !a.office.gate.accepting && !Flagged(a) && a.machine.control.directive == Run
    ensures var turn := ByThread(false);
      var t := Turned(k, Turned(k, Turned(k, a, turn), turn), turn);
      t.thread == Over(Success) && t.marks == a.marks && t.machine == a.machine && !t.office.gate.accepting
  {
    var b := Turned(k, a, ByThread(false));
    assert b.thread == Reading && b.machine == a.machine && b.marks == a.marks && !b.office.gate.accepting;
    var c := Turned(k, b, ByThread(false));
    assert c.thread == Leaving(Success) && c.machine == a.machine && c.marks == a.marks && !c.office.gate.accepting;
  }

  lemma Four(k: Keys, n: Session, a: Act, b: Act, c: Act, d: Act)
    ensures Acted(k, n, [a, b, c, d]) == Turned(k, Turned(k, Turned(k, Turned(k, n, a), b), c), d)
  {
    hide Turned;
    assert [a, b, c, d][1..] == [b, c, d] && [b, c, d][1..] == [c, d] && [c, d][1..] == [d] && [d][1..] == [];
    assert Acted(k, Turned(k, Turned(k, Turned(k, n, a), b), c), [d]) == Turned(k, Turned(k, Turned(k, Turned(k, n, a), b), c), d);
    assert Acted(k, Turned(k, Turned(k, n, a), b), [c, d]) == Acted(k, Turned(k, Turned(k, Turned(k, n, a), b), c), [d]);
    assert Acted(k, Turned(k, n, a), [b, c, d]) == Acted(k, Turned(k, Turned(k, n, a), b), [c, d]);
  }

  // A run that gets there: a pass over an empty plan, two pastes while it runs, the first of
  // them committed while the session waits for the second.

  const PLAIN := Keys((p: Path) => if p == "" then [] else [p], (p: Path) => Some(true))
  const NOTHING := CopyPlan([], [], [], "", Copy, 0, 0, [])
  const PASTED := CopyPlan([], [File(1, "a", "b", 1, None)], [], "", Copy, 1, 1, [])

  function EmptyPlan(): Plan {
    Plan([], 0, [], "", Copy, [], [], [], {}, 0, 0, 0, 0, 0, 1, [], map[], map[], map[],
         Counters(0, 0, 0, 0), Outcomes(0, 0, 0, 0), [], map[], [], {})
  }

  lemma EmptyCreated()
    ensures Create(PLAIN, NOTHING) == Some(EmptyPlan()) && Inv(PLAIN, EmptyPlan())
  {
    assert ScanResults([]) == [] && ScanDones([]) == [];
    assert FirstAttempts([]) == map[];
    CreateKeepsIff(PLAIN, NOTHING);
  }

  lemma Then(k: Keys, n: Session, act: Act, rest: seq<Act>)
    ensures Acted(k, n, [act] + rest) == Acted(k, Turned(k, n, act), rest)
  {
    hide Turned;
    assert ([act] + rest)[1..] == rest;
  }

  const EIGHT := [ByMain(Proceed), ByMain(Proceed), ByMain(Proceed), ByMain(Proceed),
                  ByMain(Proceed), ByMain(Proceed), ByMain(Proceed), ByMain(Proceed)]

  lemma FourSteps(k: Keys, m: Machine, rest: seq<Step>)
    ensures var step := ByMain(Proceed);
      After(k, m, [step, step, step, step] + rest) == After(k, Next(k, Next(k, Next(k, Next(k, m, step), step), step), step), rest)
  {
    hide Next;
    var step := ByMain(Proceed);
    var all := [step, step, step, step] + rest;
    assert all[1..] == [step, step, step] + rest && all[1..][1..] == [step, step] + rest;
    assert all[1..][1..][1..] == [step] + rest && all[1..][1..][1..][1..] == rest;
    var a := Next(k, m, step);
    var b := Next(k, a, step);
    var c := Next(k, b, step);
    assert After(k, c, [step] + rest) == After(k, Next(k, c, step), rest);
    assert After(k, b, [step, step] + rest) == After(k, c, [step] + rest);
    assert After(k, a, [step, step, step] + rest) == After(k, b, [step, step] + rest);
  }

  lemma EmptyBatch(k: Keys, m: Machine)
    requires m.plan == EmptyPlan() && m.control == INITIAL && m.phase == Opening(false)
    ensures var step := ByMain(Proceed);
      Next(k, Next(k, Next(k, Next(k, m, step), step), step), step) == m.(phase := Checking)
  {
    var step := ByMain(Proceed);
    EmptyPreparing(k, m);
    EmptyMarking(k, m.(phase := Preparing([], 0)));
    hide Next;
  }

  lemma EmptyPreparing(k: Keys, m: Machine)
    requires m.plan == EmptyPlan() && m.control == INITIAL && m.phase == Opening(false)
    ensures var step := ByMain(Proceed);
      Next(k, Next(k, m, step), step) == m.(phase := Preparing([], 0))
  {
    hide Apply, Removals, Allowed, Requested, WorkerStep, RetryStep;
    assert Next(k, m, ByMain(Proceed)) == m.(phase := Batching);
  }

  lemma EmptyMarking(k: Keys, m: Machine)
    requires m.plan == EmptyPlan() && m.control == INITIAL && m.phase == Preparing([], 0)
    ensures var step := ByMain(Proceed);
      Next(k, Next(k, m, step), step) == m.(phase := Checking)
  {
    hide Apply, Removals, Allowed, Requested, WorkerStep, RetryStep;
    assert Next(k, m, ByMain(Proceed)) == m.(phase := Marking(0));
    NothingToMark(k);
  }

  lemma NothingToMark(k: Keys)
    ensures Apply(k, EmptyPlan(), DoMaterialize(0)) == EmptyPlan()
  {
  }

  lemma EmptyEnd(k: Keys, m: Machine)
    requires m.plan == EmptyPlan() && m.control == INITIAL && m.phase == Checking
    ensures var step := ByMain(Proceed);
      Next(k, Next(k, Next(k, Next(k, m, step), step), step), step) == m.(phase := Finished(Success))
  {
    hide Apply, Removals, Allowed, Requested, WorkerStep, RetryStep, BatchStep;
    var step := ByMain(Proceed);
    assert Next(k, m, step) == m.(phase := Counting);
    assert Next(k, m.(phase := Counting), step) == m.(phase := Sweeping);
    assert Next(k, m.(phase := Sweeping), step) == m.(phase := Surveying);
  }

  /** A pass over the empty plan finishes in success after eight steps of its main thread. */
  lemma EmptyPass(k: Keys, m: Machine)
    requires m.plan == EmptyPlan() && m.control == INITIAL && m.phase == Opening(false)
    ensures After(k, m, EIGHT) == m.(phase := Finished(Success))
  {
    hide Next;
    EmptyBatch(k, m);
    EmptyEnd(k, m.(phase := Checking));
    FourSteps(k, m, EIGHT[4..]);
    FourSteps(k, m.(phase := Checking), []);
    assert EIGHT == [EIGHT[0], EIGHT[1], EIGHT[2], EIGHT[3]] + EIGHT[4..];
    assert EIGHT[4..] == [EIGHT[4], EIGHT[5], EIGHT[6], EIGHT[7]] + [];
  }

  lemma {:induction false} ActedInTurn(k: Keys, n: Session, a: seq<Act>, b: seq<Act>)
    ensures Acted(k, n, a + b) == Acted(k, Acted(k, n, a), b)
    decreases |a|
  {
    hide Turned;
    if a == [] {
      assert a + b == b;
    } else {
      ActedInTurn(k, Turned(k, n, a[0]), a[1..], b);
      assert (a + b)[1..] == a[1..] + b;
    }
  }

  function Passes(steps: seq<Step>): (acts: seq<Act>)
    ensures |acts| == |steps|
  {
    seq(|steps|, i requires 0 <= i < |steps| => ByPass(steps[i]))
  }

  /** The pass's own steps are the machine's run, with the rest of the session unmoved. */
  lemma {:induction false} PassRuns(k: Keys, n: Session, steps: seq<Step>)
    requires n.thread.Passing? && forall step :: step in steps ==> Internal(step)
    ensures Acted(k, n, Passes(steps)) == n.(machine := After(k, n.machine, steps))
    decreases |steps|
  {
    hide Next;
    if steps != [] {
      assert Passes(steps)[1..] == Passes(steps[1..]);
      assert Turned(k, n, ByPass(steps[0])) == n.(machine := Next(k, n.machine, steps[0]));
      PassRuns(k, n.(machine := Next(k, n.machine, steps[0])), steps[1..]);
    }
  }

  function Runs(es: seq<Desk.Errand>): (acts: seq<Act>)
    ensures |acts| == |es|
  {
    seq(|es|, i requires 0 <= i < |es| => ByDesk(es[i]))
  }

  lemma {:induction false} DeskRuns(k: Keys, n: Session, es: seq<Desk.Errand>)
    requires forall e :: e in es ==> e.Paste? || e.Place? || e.Publish? || e.TakeRequest? || e.Build? || e.Decide?
    ensures Acted(k, n, Runs(es)) == n.(office := Desk.After(n.office, es))
    decreases |es|
  {
    hide Desk.Run;
    if es != [] {
      assert Runs(es)[1..] == Runs(es[1..]);
      assert es[0] in es;
      assert Turned(k, n, ByDesk(es[0])) == n.(office := Desk.Run(n.office, es[0]));
      DeskRuns(k, n.(office := Desk.Run(n.office, es[0])), es[1..]);
    }
  }

  /** Two pastes, the first of them planned. */
  const PASTES: seq<Desk.Errand> :=
    [Desk.Publish, Desk.Place, Desk.Paste, Desk.Place, Desk.Paste, Desk.Place,
     Desk.TakeRequest, Desk.Build(Some(PASTED)), Desk.Decide]

  const TWO_PASTED := Desk.Office(
    Desk.Gate(true, 2, false),
    Desk.Desk(Desk.AtRest, true, [], [1], Desk.Answering(0, Some(PASTED)), false, [], [], [], 2))

  lemma PastesRun()
    ensures Desk.After(Desk.OPEN, PASTES) == TWO_PASTED
  {
    var d := Desk.OPEN.desk;
    var a := Desk.Office(Desk.OPEN.gate, d.(published := true, window := Desk.Publishing([])));
    var b := Desk.Office(Desk.OPEN.gate, d.(published := true));
    var c := Desk.Office(Desk.Gate(true, 1, false), d.(published := true, window := Desk.Reserved(0), next := 1));
    var e := Desk.Office(Desk.Gate(true, 1, false), d.(published := true, queue := [0], next := 1));
    var f := Desk.Office(Desk.Gate(true, 2, false), d.(published := true, queue := [0], window := Desk.Reserved(1), next := 2));
    var g := Desk.Office(Desk.Gate(true, 2, false), d.(published := true, queue := [0, 1], next := 2));
    var h := Desk.Office(Desk.Gate(true, 2, false), d.(published := true, queue := [1], work := Desk.Planning(0, false), next := 2));
    assert Desk.Run(Desk.OPEN, Desk.Publish) == a;
    assert Desk.Run(a, Desk.Place) == b;
    assert Desk.Run(b, Desk.Paste) == c;
    assert Desk.Run(c, Desk.Place) == e;
    assert Desk.Run(e, Desk.Paste) == f;
    assert Desk.Run(f, Desk.Place) == g;
    assert Desk.Run(g, Desk.TakeRequest) == h;
    var i := Desk.Office(h.gate, h.desk.(work := Desk.Planned(0, Some(PASTED))));
    assert Desk.Run(h, Desk.Build(Some(PASTED))) == i;
    assert Desk.Run(i, Desk.Decide) == TWO_PASTED;
    hide Desk.Run;
    assert PASTES[8..] == [Desk.Decide] && Desk.After(i, PASTES[8..]) == TWO_PASTED;
    assert PASTES[7..][1..] == PASTES[8..] && Desk.After(h, PASTES[7..]) == TWO_PASTED;
    assert PASTES[6..][1..] == PASTES[7..] && Desk.After(g, PASTES[6..]) == TWO_PASTED;
    assert PASTES[5..][1..] == PASTES[6..] && Desk.After(f, PASTES[5..]) == TWO_PASTED;
    assert PASTES[4..][1..] == PASTES[5..] && Desk.After(e, PASTES[4..]) == TWO_PASTED;
    assert PASTES[3..][1..] == PASTES[4..] && Desk.After(c, PASTES[3..]) == TWO_PASTED;
    assert PASTES[2..][1..] == PASTES[3..] && Desk.After(b, PASTES[2..]) == TWO_PASTED;
    assert PASTES[1..][1..] == PASTES[2..] && Desk.After(a, PASTES[1..]) == TWO_PASTED;
  }

  /** The commit of the first paste, while the session waits for the second. */
  lemma CommitWhileWaiting(n: Session)
    requires n.machine.plan == EmptyPlan() && n.machine.phase == Finished(Success) && n.office == TWO_PASTED
    ensures var t := Turned(PLAIN, n, Deliver(PLAIN.key));
      && t.thread == n.thread && t.office.gate == Desk.Gate(true, 1, false)
      && t.machine.control == n.machine.control && t.machine.plan.pending != []
      && t.marks == n.marks.(committed := t.marks.committed)
  {
    var s, op := EmptyPlan(), DoAppend(PLAIN.key, PASTED, true);
    hide Append, Desk.Run, Allowed;
    PasteAllowed();
    PasteAccepted(s);
    assert StepOf(n, Deliver(PLAIN.key)) == Some(ByOthers(op));
    assert Desk.Run(n.office, Desk.Answer).gate == Desk.Gate(true, 1, false) by { AnswerPastes(); }
  }

  lemma PasteAllowed()
    ensures Allowed(EmptyPlan(), DoAppend(PLAIN.key, PASTED, true))
  {
    assert Sum(PASTED.files, SizeOf) == 1 && Sum(PASTED.files, WeightOf) == 1 by { assert PASTED.files[1..] == []; }
  }

  lemma AnswerPastes()
    ensures Desk.Run(TWO_PASTED, Desk.Answer).gate == Desk.Gate(true, 1, false)
  {
  }

  lemma PasteAccepted(s: Plan)
    requires s == EmptyPlan()
    ensures Append(PLAIN, PLAIN.key, s, PASTED, true).0.pending != []
  {
    assert Sum(PASTED.files, WeightOf) == 1 by { assert PASTED.files[1..] == []; }
    assert Refusal(PLAIN, s, PASTED, true) == None;
    var f := PASTED.files[0].(sensitive := Some(true));
    assert WithPolicy(PLAIN, PASTED.files[0]) == Some(f) && PLAIN.key(f.destination) == ["b"];
    assert Screen(PLAIN, PLAIN.key, PASTED.files[1..], {["b"]}).Accepted?;
    assert Screen(PLAIN, PLAIN.key, PASTED.files, s.reserved).Accepted?;
  }

  lemma LaunchTurn(n: Session)
    requires n == Opened(EmptyPlan(), Desk.OPEN, false, 0, Prompt)
    ensures Turned(PLAIN, n, ByThread(false)) == n.(machine := n.machine.(phase := Opening(false)), thread := Passing)
  {
  }

  lemma SettleTurns(n: Session)
    requires n.thread == Passing && n.machine.phase == Finished(Success) && n.office == TWO_PASTED
    ensures Turned(PLAIN, n, ByThread(false)) == n.(thread := Settling(Success))
    ensures Turned(PLAIN, n.(thread := Settling(Success)), ByThread(false)) == n.(thread := Waiting(Success))
  {
  }

  const WAITING := [ByThread(false), ByThread(false), Deliver(PLAIN.key), ByThread(true), ByThread(false), ByThread(false), ByThread(false)]

  /** From the end of the pass on: wait, commit, time out. */
  lemma WaitEnds(n: Session)
    requires n.thread == Passing && n.machine.phase == Finished(Success) && n.office == TWO_PASTED
    requires n.machine.plan == EmptyPlan() && n.machine.control.directive == Run && !Flagged(n)
    ensures var t := Acted(PLAIN, n, WAITING);
      t.thread == Over(Success) && t.machine.plan.pending != [] && !t.office.gate.accepting
  {
    hide Turned, Acted;
    var k, turn := PLAIN, ByThread(false);
    var last := [ByThread(true), turn, turn, turn];
    SettleTurns(n);
    CommitWhileWaiting(n.(thread := Waiting(Success)));
    TimeoutLeaves(k, Turned(k, n.(thread := Waiting(Success)), Deliver(k.key)));
    Then(k, n.(thread := Waiting(Success)), Deliver(k.key), last);
    Then(k, n.(thread := Settling(Success)), turn, [Deliver(k.key)] + last);
    Then(k, n, turn, [turn] + ([Deliver(k.key)] + last));
    assert WAITING == [turn] + ([turn] + ([Deliver(k.key)] + last));
  }

  /** The session can end in success with appended work still queued: a run that does. */
  lemma TimeoutExample() returns (acts: seq<Act>)
    ensures Create(PLAIN, NOTHING) == Some(EmptyPlan()) && Inv(PLAIN, EmptyPlan())
    ensures var n := Acted(PLAIN, Opened(EmptyPlan(), Desk.OPEN, false, 0, Prompt), acts);
      n.thread == Over(Success) && n.machine.plan.pending != [] && !n.office.gate.accepting
  {
    hide Turned, Acted, After, Desk.After, Inv, Create, InFlight, IdSet, EmptyPlan;
    EmptyCreated();
    var k, turn := PLAIN, ByThread(false);
    var n0 := Opened(EmptyPlan(), Desk.OPEN, false, 0, Prompt);
    LaunchTurn(n0);
    var n1 := n0.(machine := n0.machine.(phase := Opening(false)), thread := Passing);
    EmptyPass(k, n1.machine);
    PassRuns(k, n1, EIGHT);
    var n2 := n1.(machine := n1.machine.(phase := Finished(Success)));
    PastesRun();
    DeskRuns(k, n2, PASTES);
    WaitEnds(n2.(office := TWO_PASTED));
    acts := [turn] + (Passes(EIGHT) + (Runs(PASTES) + WAITING));
    ActedInTurn(k, n2, Runs(PASTES), WAITING);
    ActedInTurn(k, n1, Passes(EIGHT), Runs(PASTES) + WAITING);
    Then(k, n0, turn, Passes(EIGHT) + (Runs(PASTES) + WAITING));
  }
}
