/** What a pass does over whole runs: winding down after Stop or Cancel, sources that were
    kept, and a plan that can be checkpointed at any moment. */
module ExecutorRuns {
  import opened Items
  import opened Sequences
  import opened LivePlan
  import opened PlanInvariant
  import opened PlanOperations
  import opened PlanRuns
  import opened Checkpoint
  import opened CheckpointReads
  import opened ExecutionControls
  import opened Executor
  import opened ExecutorOwnership

  // ---- winding down ----

  /** What a worker does to the queue. */
  datatype Deed = Took(id: nat) | Gave(id: nat) | Did(op: Op)

  function DeedOf(s: Plan, op: Op): seq<Deed> {
    match op
    case DoAcquire => if s.pending == [] then [] else [Took(s.pending[0].id)]
    case DoRelease(id) => [Gave(id)]
    case _ => [Did(op)]
  }

  function Deeds(k: Keys, m: Machine, step: Step, i: nat): seq<Deed> {
    if step.ByWorker? && step.w == i && m.phase.Working? && i < |m.workers| then
      match WorkerStep(k, m.plan, m.control, m.options, m.workers[i], step.event)
      case None => []
      case Some(e) => if e.op.Some? then DeedOf(m.plan, e.op.value) else []
    else []
  }

  /** What one worker does over a run. */
  ghost function DeedsOver(k: Keys, m: Machine, steps: seq<Step>, i: nat): seq<Deed>
    decreases |steps|
  {
    if steps == [] then [] else Deeds(k, m, steps[0], i) + DeedsOver(k, Next(k, m, steps[0]), steps[1..], i)
  }

  /** A worker that has given up its item and will end. */
  predicate Leaving(w: Worker) { w.Calling? && w.call.GiveBack? && w.next.Ended? }

  predicate Parks(deeds: seq<Deed>, id: nat) { |deeds| == 1 && deeds[0].Did? && deeds[0].op.DoPark? && deeds[0].op.id == id }

  /** The item is given back by the time the worker ends; an exception may park it instead,
      or leave it active. */
  ghost predicate GivesBack(id: nat, deeds: seq<Deed>, ended: bool, threw: bool) {
    (deeds == [] && (!ended || threw)) || deeds == [Gave(id)] || (threw && Parks(deeds, id))
  }

  /** Nothing at all, or the item is taken and then given back. */
  ghost predicate TakesOneBack(id: nat, deeds: seq<Deed>, ended: bool, threw: bool) {
    deeds == [] || (deeds[0] == Took(id) && GivesBack(id, deeds[1..], ended, threw))
  }

  /** What a worker may still do once the session is ending, given whether it ends and
      whether an exception hits it. */
  ghost predicate WindsDown(w: Worker, deeds: seq<Deed>, ended: bool, threw: bool) {
    match w
    case Cleared => exists id :: TakesOneBack(id, deeds, ended, threw)
    case Taken(f) => GivesBack(f.id, deeds, ended, threw)
    case Calling(f, GiveBack, Ended(_), _) => GivesBack(f.id, deeds, ended, threw)
    case Ready => deeds == []
    case Alarming(_, _) => deeds == []
    case Ended(_) => deeds == []
    case _ => forall id :: Took(id) !in deeds
  }

  lemma ThrownLater(w: Worker, deeds: seq<Deed>, ended: bool, threw: bool)
    requires WindsDown(w, deeds, ended, threw)
    ensures WindsDown(w, deeds, ended, true)
  {
    if w.Cleared? {
      var id :| TakesOneBack(id, deeds, ended, threw);
      assert TakesOneBack(id, deeds, ended, true);
    }
  }

  lemma ControlStaysEnding(k: Keys, m: Machine, step: Step)
    requires Ending(m.control) && m.phase.Working?
    ensures Ending(Next(k, m, step).control)
  {
    hide Apply, Redirect, Removals, Allowed;
  }

  /** A worker that is neither about to acquire nor newly supplied does not get there. */
  lemma NeverTakes(k: Keys, s: Plan, c: Control, o: Options, w: Worker, x: Event)
    requires Ending(c) && WorkerStep(k, s, c, o, w, x).Some? && WellPlaced(w)
    requires !w.Cleared? && !w.Taken?
    ensures var e := WorkerStep(k, s, c, o, w, x).value;
      && !e.worker.Cleared? && !e.worker.Taken?
      && (e.op.Some? ==> !e.op.value.DoAcquire?)
  {
    hide Redirect, Find;
  }

  lemma NoneTaken(w: Worker, deeds: seq<Deed>, ended: bool, threw: bool)
    requires WindsDown(w, deeds, ended, threw) && !w.Cleared? && !w.Taken?
    ensures forall id :: Took(id) !in deeds
  {
  }

  lemma DeedTakes(s: Plan, op: Op, rest: seq<Deed>)
    requires !op.DoAcquire? && forall id :: Took(id) !in rest
    ensures forall id :: Took(id) !in DeedOf(s, op) + rest
  {
    forall id
      ensures Took(id) !in DeedOf(s, op) + rest
    {
      assert DeedOf(s, op) == [Gave(match op case DoRelease(i) => i case _ => 0)] || DeedOf(s, op) == [Did(op)];
    }
  }

  /** One worker's own step while the session is ending. */
  lemma EndingStep(k: Keys, s: Plan, c: Control, o: Options, w: Worker, x: Event, rest: seq<Deed>, ended: bool, threw: bool)
    requires Ending(c) && WorkerStep(k, s, c, o, w, x).Some? && WellPlaced(w) && (x.Throw? ==> threw)
    requires WindsDown(WorkerStep(k, s, c, o, w, x).value.worker, rest, ended, threw)
    ensures var e := WorkerStep(k, s, c, o, w, x).value;
      WindsDown(w, (if e.op.Some? then DeedOf(s, e.op.value) else []) + rest, ended, threw)
  {
    hide Redirect, Find, AfterAttempt, AfterRemoval;
    var e := WorkerStep(k, s, c, o, w, x).value;
    var did := if e.op.Some? then DeedOf(s, e.op.value) else [];
    assert [] + rest == rest;
    if w.Cleared? || w.Taken? {
      EarlyStep(k, s, c, o, w, x, rest, ended, threw);
    } else {
      NeverTakes(k, s, c, o, w, x);
      hide WorkerStep, DeedOf, WindsDown;
      NoneTaken(e.worker, rest, ended, threw);
      if e.op.Some? { DeedTakes(s, e.op.value, rest); }
      if Doomed(w) { LeavingStep(k, s, c, o, w, x, rest, ended, threw); }
      TakesNone(w, did + rest, ended, threw);
    }
  }

  /** A worker about to take an item, or with one just taken. */
  lemma EarlyStep(k: Keys, s: Plan, c: Control, o: Options, w: Worker, x: Event, rest: seq<Deed>, ended: bool, threw: bool)
    requires Ending(c) && WorkerStep(k, s, c, o, w, x).Some? && (w.Cleared? || w.Taken?) && (x.Throw? ==> threw)
    requires WindsDown(WorkerStep(k, s, c, o, w, x).value.worker, rest, ended, threw)
    ensures var e := WorkerStep(k, s, c, o, w, x).value;
      WindsDown(w, (if e.op.Some? then DeedOf(s, e.op.value) else []) + rest, ended, threw)
  {
    hide Redirect, Find, AfterAttempt, AfterRemoval;
    var e := WorkerStep(k, s, c, o, w, x).value;
    var did := if e.op.Some? then DeedOf(s, e.op.value) else [];
    assert [] + rest == rest;
    if w.Cleared? {
      var id := if s.pending == [] then 0 else s.pending[0].id;
      if e.op.Some? && s.pending != [] { assert (did + rest)[1..] == rest; }
      assert TakesOneBack(id, did + rest, ended, threw);
    } else {
      if did != [] && rest == [] { assert did + rest == did; }
    }
  }

  /** A worker whose remaining deeds are laid down. */
  predicate Doomed(w: Worker) { Leaving(w) || w.Ended? || w.Ready? || w.Alarming? }

  lemma TakesNone(w: Worker, deeds: seq<Deed>, ended: bool, threw: bool)
    requires !w.Cleared? && !w.Taken? && (Doomed(w) ==> WindsDown(w, deeds, ended, threw))
    requires forall id :: Took(id) !in deeds
    ensures WindsDown(w, deeds, ended, threw)
  {
  }

  lemma LeavingStep(k: Keys, s: Plan, c: Control, o: Options, w: Worker, x: Event, rest: seq<Deed>, ended: bool, threw: bool)
    requires Ending(c) && WorkerStep(k, s, c, o, w, x).Some? && WellPlaced(w) && Doomed(w) && (x.Throw? ==> threw)
    requires WindsDown(WorkerStep(k, s, c, o, w, x).value.worker, rest, ended, threw)
    ensures var e := WorkerStep(k, s, c, o, w, x).value;
      WindsDown(w, (if e.op.Some? then DeedOf(s, e.op.value) else []) + rest, ended, threw)
  {
    hide Redirect, Find, AfterAttempt, AfterRemoval;
    var e := WorkerStep(k, s, c, o, w, x).value;
    var did := if e.op.Some? then DeedOf(s, e.op.value) else [];
    assert rest == [];
    assert did + rest == did;
  }

  lemma OthersLeave(k: Keys, m: Machine, step: Step, i: nat)
    requires i < |m.workers| && m.phase.Working? && !step.ByMain? && !(step.ByWorker? && step.w == i)
    ensures var t := Next(k, m, step);
      t.workers == m.workers || (|t.workers| == |m.workers| && t.workers[i] == m.workers[i])
    ensures Deeds(k, m, step, i) == [] && Next(k, m, step).phase.Working?
  {
    hide Apply, WorkerStep, Allowed;
  }

  lemma OwnStep(k: Keys, m: Machine, step: Step, i: nat)
    requires i < |m.workers| && m.phase.Working? && step.ByWorker? && step.w == i
    ensures var t := Next(k, m, step);
      && t.phase.Working? && |t.workers| == |m.workers|
      && match WorkerStep(k, m.plan, m.control, m.options, m.workers[i], step.event)
         case None => t == m && Deeds(k, m, step, i) == []
         case Some(e) =>
           && t.workers[i] == e.worker
           && Deeds(k, m, step, i) == if e.op.Some? then DeedOf(m.plan, e.op.value) else []
  {
    hide Apply, WorkerStep, DeedOf;
  }

  /** An exception hits this worker. */
  predicate Hits(step: Step, i: nat) { Throws(step) && step.w == i }
  ghost predicate Hit(steps: seq<Step>, i: nat) { exists step :: step in steps && Hits(step, i) }

  /** Once Stop or Cancel is set a worker takes at most one more item, and returns it: one
      about to acquire takes one and gives that one back before it ends, one that has just
      taken an item returns it, and no other worker takes anything. Only an exception that
      hits the worker itself may park the item or leave it active instead. */
  lemma {:induction false} StopTakesOneMore(k: Keys, m: Machine, steps: seq<Step>, i: nat)
    requires Sound(k, m) && Trusted(m) && Ending(m.control) && m.phase.Working? && i < |m.workers|
    requires forall step :: step in steps ==> !step.ByMain?
    ensures i < |After(k, m, steps).workers|
    ensures WindsDown(m.workers[i], DeedsOver(k, m, steps, i), After(k, m, steps).workers[i].Ended?, Hit(steps, i))
    decreases |steps|
  {
    if steps != [] {
      hide Sound, Trusted, Next, Deeds, WindsDown, Hits;
      var step, t := steps[0], Next(k, m, steps[0]);
      StepTrusted(k, m, step);
      ControlStaysEnding(k, m, step);
      StaysWorking(k, m, step, i);
      StopTakesOneMore(k, t, steps[1..], i);
      var rest, ended := DeedsOver(k, t, steps[1..], i), After(k, t, steps[1..]).workers[i].Ended?;
      HitBy(steps, i);
      if Hit(steps, i) { ThrownLater(t.workers[i], rest, ended, Hit(steps[1..], i)); }
      assert WellPlaced(m.workers[i]) by { SoundParts(k, m); PlacedMember(m, i); }
      OneWindsDown(k, m, step, i, rest, ended, Hit(steps, i));
    } else {
      NothingDone(m.workers[i], Hit(steps, i));
    }
  }

  lemma HitBy(steps: seq<Step>, i: nat)
    requires steps != []
    ensures Hit(steps, i) <==> Hits(steps[0], i) || Hit(steps[1..], i)
  {
    assert steps == [steps[0]] + steps[1..];
  }

  lemma StaysWorking(k: Keys, m: Machine, step: Step, i: nat)
    requires i < |m.workers| && m.phase.Working? && !step.ByMain?
    ensures Next(k, m, step).phase.Working? && |Next(k, m, step).workers| == |m.workers|
  {
    hide Apply, WorkerStep, Allowed;
  }

  lemma OneWindsDown(k: Keys, m: Machine, step: Step, i: nat, rest: seq<Deed>, ended: bool, threw: bool)
    requires Ending(m.control) && m.phase.Working? && i < |m.workers| && WellPlaced(m.workers[i])
    requires !step.ByMain? && (Hits(step, i) ==> threw)
    requires |Next(k, m, step).workers| > i && WindsDown(Next(k, m, step).workers[i], rest, ended, threw)
    ensures WindsDown(m.workers[i], Deeds(k, m, step, i) + rest, ended, threw)
  {
    hide WindsDown, Next, Deeds;
    if step.ByWorker? && step.w == i {
      StepWindsDown(k, m, step, i, rest, ended, threw);
    } else {
      OthersLeave(k, m, step, i);
      assert [] + rest == rest;
    }
  }

  lemma NothingDone(w: Worker, threw: bool)
    ensures WindsDown(w, [], w.Ended?, threw)
  {
    assert TakesOneBack(0, [], false, threw);
  }

  lemma StepWindsDown(k: Keys, m: Machine, step: Step, i: nat, rest: seq<Deed>, ended: bool, threw: bool)
    requires Ending(m.control) && m.phase.Working? && i < |m.workers| && WellPlaced(m.workers[i])
    requires step.ByWorker? && step.w == i && (Hits(step, i) ==> threw)
    requires |Next(k, m, step).workers| > i && WindsDown(Next(k, m, step).workers[i], rest, ended, threw)
    ensures WindsDown(m.workers[i], Deeds(k, m, step, i) + rest, ended, threw)
  {
    hide WindsDown, WorkerStep, DeedOf, Next, Deeds;
    OwnStep(k, m, step, i);
    if WorkerStep(k, m.plan, m.control, m.options, m.workers[i], step.event).Some? {
      EndingStep(k, m.plan, m.control, m.options, m.workers[i], step.event, rest, ended, threw);
    } else {
      assert [] + rest == rest;
    }
  }

  // ---- sources that were kept ----

  /** The item ended as succeeded. */
  ghost predicate Succeeds(s: Plan, id: nat) {
    exists d :: d in s.done && !d.scanned && d.file.id == id && d.outcome == Succeeded
  }

  /** The worker is about to record the item as succeeded. */
  predicate Confirms(w: Worker, id: nat) {
    w.Calling? && w.file.id == id && w.call.Settle? && w.call.outcome == Succeeded
  }

  /** Every item whose source the executor deleted has ended as succeeded, or its worker or
      the retry pass is about to record that. */
  ghost predicate Accounted(m: Machine) {
    forall id :: id in m.deleted ==>
      || Succeeds(m.plan, id)
      || (exists i :: 0 <= i < |m.workers| && Confirms(m.workers[i], id))
      || (m.phase.Concluding? && m.phase.r.fileId == id && m.phase.outcome == Succeeded)
  }

  lemma SucceedsStays(s: Plan, t: Plan, id: nat)
    requires Succeeds(s, id) && s.done <= t.done
    ensures Succeeds(t, id)
  {
    var d :| d in s.done && !d.scanned && d.file.id == id && d.outcome == Succeeded;
    var j :| 0 <= j < |s.done| && s.done[j] == d;
    assert t.done[j] == d;
  }

  lemma ConfirmedNext(k: Keys, s: Plan, c: Control, o: Options, w: Worker, x: Event, id: nat)
    requires WorkerStep(k, s, c, o, w, x).Some? && (Confirms(w, id) ==> HasId(s.active, id))
    ensures var e := WorkerStep(k, s, c, o, w, x).value;
      && (e.deleted == Some(id) ==> Confirms(e.worker, id))
      && (Confirms(w, id) ==> e.op.Some? && Succeeds(Apply(k, s, e.op.value), id))
  {
    hide Redirect, Find, AfterAttempt, Apply;
    if Confirms(w, id) { ActiveSucceeds(k, s, id, w.call.hresult, w.call.preexisted); }
  }

  lemma ActiveSucceeds(k: Keys, s: Plan, id: nat, h: int, pre: bool)
    requires HasId(s.active, id)
    ensures Succeeds(Apply(k, s, DoResolveActive(id, Succeeded, h, pre)), id)
  {
    hide Wrap;
    var t := Apply(k, s, DoResolveActive(id, Succeeded, h, pre));
    assert Last(t.done) in t.done;
  }

  lemma ParkedSucceeds(k: Keys, s: Plan, id: nat, h: int, pre: bool)
    requires HasId(ParkedFiles(s.parked), id)
    ensures Succeeds(Apply(k, s, DoResolveParked(id, Succeeded, h, pre)), id)
  {
    hide Wrap;
    var t := Apply(k, s, DoResolveParked(id, Succeeded, h, pre));
    assert Last(t.done) in t.done;
  }

  lemma WorkerAccounts(k: Keys, m: Machine, i: nat, x: Event)
    requires Sound(k, m) && Accounted(m) && m.phase.Working? && i < |m.workers|
    requires WorkerStep(k, m.plan, m.control, m.options, m.workers[i], x).Some?
    ensures Accounted(Committed(k, m, i, WorkerStep(k, m.plan, m.control, m.options, m.workers[i], x).value))
  {
    hide Inv, Sound, WorkerStep, Apply, Succeeds, Confirms, IdsSound, HasId;
    var w, s := m.workers[i], m.plan;
    var e := WorkerStep(k, s, m.control, m.options, w, x).value;
    var t := Committed(k, m, i, e);
    SoundParts(k, m);
    ActiveDistinct(k, s);
    OwnedMember(m, i);
    if e.op.Some? { NextIdGrows(k, s, e.op.value); }
    forall id | id in t.deleted
      ensures Succeeds(t.plan, id) || exists j :: 0 <= j < |t.workers| && Confirms(t.workers[j], id)
    {
      if Confirms(w, id) { ConfirmedFound(s, w, id); }
      ConfirmedNext(k, s, m.control, m.options, w, x, id);
      if e.deleted == Some(id) {
        assert t.workers[i] == e.worker;
      } else if Succeeds(s, id) {
        SucceedsStays(s, t.plan, id);
      } else {
        var j :| 0 <= j < |m.workers| && Confirms(m.workers[j], id);
        if j != i { assert t.workers[j] == m.workers[j]; }
      }
    }
  }

  lemma ConfirmedFound(s: Plan, w: Worker, id: nat)
    requires Confirms(w, id) && DistinctBy(s.active, IdOf) && forall f :: f in Held(w) ==> f in s.active
    ensures HasId(s.active, id)
  {
    FoundActive(s, w.file);
  }

  /** The only call on the plan the main thread may make in a phase. */
  function MainOp(p: Phase): Op {
    match p
    case Beginning(r, _) => DoBeginRetry(r.fileId, RetrySourceRemoval)
    case Excusing(r, _, code) => DoRetryFailed(r.fileId, code)
    case Concluding(r, _, outcome, h) => DoResolveParked(r.fileId, outcome, h, r.preexisted)
    case Condemning(dirs, _, code) => DoFailUnder(if dirs == [] then "" else dirs[0].destination, code)
    case Marking(through) => DoMaterialize(through)
    case _ => DoMaterialize(0)
  }

  lemma RetryCalls(k: Keys, m: Machine, e: MainEvent)
    ensures var t := RetryStep(k, m, e);
      && (t.plan == m.plan || t.plan == Apply(k, m.plan, MainOp(m.phase)))
      && (t.deleted == m.deleted
          || (m.phase.Deleting? && t.phase == Concluding(m.phase.r, m.phase.rest, Succeeded, 0)
              && t.deleted == m.deleted + {m.phase.r.fileId}))
  {
    hide Apply, Removals;
  }

  lemma BatchCalls(k: Keys, m: Machine, e: MainEvent)
    ensures var t := BatchStep(k, m, e);
      (t.plan == m.plan || t.plan == Apply(k, m.plan, MainOp(m.phase))) && t.deleted == m.deleted
  {
    hide Apply;
  }

  lemma MainCalls(k: Keys, m: Machine, e: MainEvent)
    ensures var t := MainStep(k, m, e);
      && (t.plan == m.plan || t.plan == Apply(k, m.plan, MainOp(m.phase)))
      && (t.deleted == m.deleted
          || (m.phase.Deleting? && t.phase == Concluding(m.phase.r, m.phase.rest, Succeeded, 0)
              && t.deleted == m.deleted + {m.phase.r.fileId}))
  {
    hide Apply, RetryStep, BatchStep, MainOp;
    RetryCalls(k, m, e);
    BatchCalls(k, m, e);
  }

  lemma MainDone(k: Keys, m: Machine, e: MainEvent)
    requires IdsSound(m.plan)
    ensures m.plan.done <= MainStep(k, m, e).plan.done
  {
    hide Apply, MainStep, MainOp;
    MainCalls(k, m, e);
    NextIdGrows(k, m.plan, MainOp(m.phase));
  }

  /** Concluding as succeeded records the success, whatever else the main thread does. */
  lemma MainAccounts(k: Keys, m: Machine, e: MainEvent)
    requires Sound(k, m) && Accounted(m)
    ensures Accounted(MainStep(k, m, e))
  {
    hide Inv, Sound, Apply, Succeeds, Confirms, IdsSound, HasId, MainStep, AwaitsRemoval, Owned;
    var t := MainStep(k, m, e);
    SoundParts(k, m);
    ActiveDistinct(k, m.plan);
    MainDone(k, m, e);
    MainCalls(k, m, e);
    forall id | id in t.deleted
      ensures Succeeds(t.plan, id) || (exists j :: 0 <= j < |t.workers| && Confirms(t.workers[j], id))
              || (t.phase.Concluding? && t.phase.r.fileId == id && t.phase.outcome == Succeeded)
    {
      if id !in m.deleted {
      } else if Succeeds(m.plan, id) {
        SucceedsStays(m.plan, t.plan, id);
      } else if m.phase.Concluding? && m.phase.r.fileId == id && m.phase.outcome == Succeeded {
        Fewer(m.plan, m.phase.r, m.phase.rest);
        AwaitedIsParked(m.plan, id);
        ConcludedSucceeds(k, m, e);
      } else {
        var j :| 0 <= j < |m.workers| && Confirms(m.workers[j], id);
        StillConfirms(k, m, e, j, id);
      }
    }
  }

  lemma ConcludedSucceeds(k: Keys, m: Machine, e: MainEvent)
    requires m.phase.Concluding? && m.phase.outcome == Succeeded && HasId(ParkedFiles(m.plan.parked), m.phase.r.fileId)
    ensures Succeeds(MainStep(k, m, e).plan, m.phase.r.fileId)
  {
    hide Succeeds, Apply, HasId;
    ParkedSucceeds(k, m.plan, m.phase.r.fileId, m.phase.hresult, m.phase.r.preexisted);
  }

  /** Workers confirm only while the pass is copying, when the main thread only joins. */
  lemma StillConfirms(k: Keys, m: Machine, e: MainEvent, j: nat, id: nat)
    requires Owned(m) && j < |m.workers| && Confirms(m.workers[j], id)
    ensures MainStep(k, m, e) == m
  {
    hide Apply;
    assert m.workers[j] in m.workers;
  }

  lemma OthersAccount(k: Keys, m: Machine, op: Op)
    requires Sound(k, m) && Accounted(m) && Outside(m, op) && Allowed(m.plan, op)
    ensures Accounted(m.(plan := Apply(k, m.plan, op)))
  {
    hide Inv, Sound, Apply, Succeeds, Confirms, IdsSound;
    SoundParts(k, m);
    ActiveDistinct(k, m.plan);
    NextIdGrows(k, m.plan, op);
    forall id | id in m.deleted && Succeeds(m.plan, id)
      ensures Succeeds(Apply(k, m.plan, op), id)
    {
      SucceedsStays(m.plan, Apply(k, m.plan, op), id);
    }
  }

  lemma StepAccounts(k: Keys, m: Machine, step: Step)
    requires Sound(k, m) && Accounted(m)
    ensures Accounted(Next(k, m, step))
  {
    hide Sound, Accounted, MainStep, WorkerStep, Apply, Outside, Allowed, Committed, Requested;
    match step {
      case ByMain(e) => MainAccounts(k, m, e);
      case ByControl(r) => ControlAccounts(m, Requested(m.control, r));
      case Resume => ControlAccounts(m, INITIAL);
      case ByOthers(op) => if Outside(m, op) && Allowed(m.plan, op) { OthersAccount(k, m, op); }
      case ByWorker(i, x) =>
        if m.phase.Working? && i < |m.workers| && WorkerStep(k, m.plan, m.control, m.options, m.workers[i], x).Some? {
          WorkerAccounts(k, m, i, x);
        }
    }
  }

  lemma ControlAccounts(m: Machine, c: Control)
    requires Accounted(m)
    ensures Accounted(m.(control := c))
  {
    hide Succeeds, Confirms;
  }

  lemma {:induction false} AccountedOverRuns(k: Keys, m: Machine, steps: seq<Step>)
    requires Sound(k, m) && Trusted(m) && Accounted(m)
    ensures Accounted(After(k, m, steps)) && Sound(k, After(k, m, steps))
    decreases |steps|
  {
    if steps != [] {
      hide Sound, Trusted, Next, Accounted;
      StepTrusted(k, m, steps[0]);
      StepAccounts(k, m, steps[0]);
      AccountedOverRuns(k, Next(k, m, steps[0]), steps[1..]);
    }
  }

  /** An item has one outcome only. */
  lemma {:induction false} OneOutcome(done: seq<Done>, a: Done, b: Done)
    requires DistinctBy(Settled(done), IdOf) && a in done && b in done && !a.scanned && !b.scanned
    ensures a.file.id == b.file.id ==> a == b
  {
    var most, last := Settled(Front(done)), Last(done);
    assert Settled(done)[..|most|] == most;
    forall i, j | 0 <= i < j < |most|
      ensures IdOf(most[i]) != IdOf(most[j])
    {
      assert IdOf(Settled(done)[i]) != IdOf(Settled(done)[j]);
    }
    if a != last && b != last {
      OneOutcome(Front(done), a, b);
    } else if a != b {
      var other := if a == last then b else a;
      SettledHas(Front(done), other);
      var i :| 0 <= i < |most| && most[i] == other.file;
      assert IdOf(Settled(done)[i]) != IdOf(Settled(done)[|most|]);
    }
  }

  /** An item that ended with its source retained still has the source the executor was to
      move: the executor never deleted or renamed it. */
  lemma RetainedKeepsSource(k: Keys, m: Machine, d: Done)
    requires Sound(k, m) && Accounted(m) && d in m.plan.done && d.outcome == CopiedSourceRetained && !d.scanned
    ensures d.file.id !in m.deleted
  {
    hide Inv, Succeeds, Confirms, IdsSound, AwaitsRemoval, Owned;
    SoundParts(k, m);
    ActiveDistinct(k, m.plan);
    var id := d.file.id;
    SettledHas(m.plan.done, d);
    StatesApart(m.plan);
    assert id in IdsOf(m.plan).terminal;
    if id in m.deleted {
      if Succeeds(m.plan, id) {
        SettledDistinct(m.plan);
        TwoOutcomes(m.plan, d);
      } else if exists i :: 0 <= i < |m.workers| && Confirms(m.workers[i], id) {
        var i :| 0 <= i < |m.workers| && Confirms(m.workers[i], id);
        OwnedMember(m, i);
        ConfirmsActive(m.plan, m.workers[i], id);
      } else {
        Fewer(m.plan, m.phase.r, m.phase.rest);
        AwaitedId(m.plan, id);
      }
    }
  }

  lemma SettledDistinct(s: Plan)
    requires IdsSound(s)
    ensures DistinctBy(Settled(s.done), IdOf)
  {
    assert multiset(Settled(s.done)) <= multiset(All(s));
    DistinctSubset(All(s), Settled(s.done), IdOf);
  }

  lemma TwoOutcomes(s: Plan, d: Done)
    requires Succeeds(s, d.file.id) && DistinctBy(Settled(s.done), IdOf) && d in s.done && !d.scanned
    ensures d.outcome == Succeeded
  {
    var e :| e in s.done && !e.scanned && e.file.id == d.file.id && e.outcome == Succeeded;
    OneOutcome(s.done, d, e);
  }

  lemma ConfirmsActive(s: Plan, w: Worker, id: nat)
    requires Confirms(w, id) && forall f :: f in Held(w) ==> f in s.active
    ensures id in IdsOf(s).active
  {
    assert w.file in s.active;
  }

  lemma AwaitedId(s: Plan, id: nat)
    requires AwaitsRemoval(s, id)
    ensures id in IdsOf(s).parked
  {
    var p :| p in s.parked && p.file.id == id && p.incident.action == RetrySourceRemoval;
    var j :| 0 <= j < |s.parked| && s.parked[j] == p;
    assert ParkedFiles(s.parked)[j] in ParkedFiles(s.parked);
  }

  /** In every run from any plan, over passes that end in whatever way, exceptions included, and
      over sessions resumed after a stop or a decision: a retained source was never deleted by
      the executor. */
  lemma MoveKeepsRetainedSources(k: Keys, s: Plan, steps: seq<Step>, d: Done)
    requires Inv(k, s)
    requires d in After(k, Start(s), steps).plan.done && d.outcome == CopiedSourceRetained && !d.scanned
    ensures d.file.id !in After(k, Start(s), steps).deleted
  {
    hide Inv, After, Sound, Trusted;
    StartsSound(k, s);
    AccountedOverRuns(k, Start(s), steps);
    RetainedKeepsSource(k, After(k, Start(s), steps), d);
  }

  // ---- a pass can be checkpointed at any moment ----

  /** What others append has real paths, and the disk offers only alternatives with a key. */
  ghost predicate OrderlyStep(k: Keys, step: Step) {
    match step
    case ByOthers(op) => Orderly(k, op)
    case ByWorker(_, x) => x.Around? ==> Orderly(k, DoRedirect(0, x.world))
    case _ => true
  }

  lemma WorkerOrderly(k: Keys, s: Plan, c: Control, o: Options, w: Worker, x: Event)
    requires WorkerStep(k, s, c, o, w, x).Some? && (x.Around? ==> Orderly(k, DoRedirect(0, x.world)))
    ensures var e := WorkerStep(k, s, c, o, w, x).value; e.op.Some? ==> Orderly(k, e.op.value) && Allowed(s, e.op.value)
  {
    hide Redirect, Find, AfterAttempt;
  }

  lemma MainOrderly(k: Keys, m: Machine)
    ensures Orderly(k, MainOp(m.phase)) && Allowed(m.plan, MainOp(m.phase))
  {
    PlainOrderly(k, m.plan, MainOp(m.phase));
  }

  lemma PlainOrderly(k: Keys, s: Plan, op: Op)
    requires !op.DoAppend? && !op.DoRedirect? && !op.DoPark? && !op.DoReorder? && !op.DoRestore?
    ensures Orderly(k, op) && Allowed(s, op)
  {
  }

  lemma StepExportable(k: Keys, m: Machine, step: Step)
    requires Exportable(k, m.plan) && OrderlyStep(k, step)
    ensures Exportable(k, Next(k, m, step).plan)
  {
    hide Exportable, Orderly, MainStep, WorkerStep, Apply, Allowed;
    match step {
      case ByMain(e) =>
        MainCalls(k, m, e);
        MainOrderly(k, m);
        ExportableKept(k, m.plan, MainOp(m.phase));
      case ByControl(_) =>
      case Resume =>
      case ByOthers(op) => if Outside(m, op) && Allowed(m.plan, op) { ExportableKept(k, m.plan, op); }
      case ByWorker(i, x) =>
        if m.phase.Working? && i < |m.workers| && WorkerStep(k, m.plan, m.control, m.options, m.workers[i], x).Some? {
          WorkerOrderly(k, m.plan, m.control, m.options, m.workers[i], x);
          var e := WorkerStep(k, m.plan, m.control, m.options, m.workers[i], x).value;
          if e.op.Some? { ExportableKept(k, m.plan, e.op.value); }
        }
    }
  }

  /** At every moment of every run the checkpoint of the plan can be taken and restored. */
  lemma {:induction false} ExportableOverRuns(k: Keys, m: Machine, steps: seq<Step>)
    requires Exportable(k, m.plan) && forall step :: step in steps ==> OrderlyStep(k, step)
    ensures Exportable(k, After(k, m, steps).plan)
    decreases |steps|
  {
    if steps != [] {
      hide Next, Exportable, OrderlyStep;
      StepExportable(k, m, steps[0]);
      ExportableOverRuns(k, Next(k, m, steps[0]), steps[1..]);
    }
  }

  // ---- a checkpoint taken while a pass runs ----

  /** A retry about to be concluded found its source gone, removed it, or keeps it. */
  predicate Concludes(m: Machine) { m.phase.Concluding? ==> Successful(m.phase.outcome) }

  /** Appended paths are real, and nobody fails or skips a finished copy. */
  ghost predicate Courteous(k: Keys, m: Machine, steps: seq<Step>)
    decreases |steps|
  {
    steps != [] ==>
      && OrderlyStep(k, steps[0]) && (steps[0].ByOthers? ==> Honest(m.plan, steps[0].op))
      && Courteous(k, Next(k, m, steps[0]), steps[1..])
  }

  lemma StaysConcluding(k: Keys, m: Machine, step: Step)
    requires Concludes(m)
    ensures Concludes(Next(k, m, step))
  {
    hide Apply, WorkerStep, Removals, Allowed;
  }

  /** A step makes at most one call on the plan, and one that is in order. */
  lemma StepCalls(k: Keys, m: Machine, step: Step) returns (ops: seq<Op>)
    requires Concludes(m) && OrderlyStep(k, step) && (step.ByOthers? ==> Honest(m.plan, step.op))
    ensures |ops| <= 1 && Next(k, m, step).plan == if ops == [] then m.plan else Apply(k, m.plan, ops[0])
    ensures ops != [] ==> Allowed(m.plan, ops[0]) && Orderly(k, ops[0]) && Honest(m.plan, ops[0])
  {
    hide Orderly, MainStep, WorkerStep, Apply, Allowed, AwaitsRemoval;
    ops := [];
    match step {
      case ByMain(e) =>
        MainCalls(k, m, e);
        MainOrderly(k, m);
        if MainStep(k, m, e).plan != m.plan { ops := [MainOp(m.phase)]; }
      case ByControl(_) =>
      case Resume =>
      case ByOthers(op) => if Outside(m, op) && Allowed(m.plan, op) { ops := [op]; }
      case ByWorker(i, x) =>
        if m.phase.Working? && i < |m.workers| && WorkerStep(k, m.plan, m.control, m.options, m.workers[i], x).Some? {
          WorkerOrderly(k, m.plan, m.control, m.options, m.workers[i], x);
          WorkerHonest(k, m.plan, m.control, m.options, m.workers[i], x);
          var e := WorkerStep(k, m.plan, m.control, m.options, m.workers[i], x).value;
          if e.op.Some? { ops := [e.op.value]; }
        }
    }
  }

  lemma WorkerHonest(k: Keys, s: Plan, c: Control, o: Options, w: Worker, x: Event)
    requires WorkerStep(k, s, c, o, w, x).Some?
    ensures var e := WorkerStep(k, s, c, o, w, x).value; e.op.Some? ==> !e.op.value.DoResolveParked?
  {
    hide Redirect, Find, AfterAttempt;
  }

  /** What a run of steps does to the plan is a run of calls on it. */
  lemma {:induction false} StepsCall(k: Keys, m: Machine, steps: seq<Step>) returns (ops: seq<Op>)
    requires Concludes(m) && Courteous(k, m, steps)
    ensures UsedRun(k, m.plan, ops) && PlanRuns.Run(k, m.plan, ops) == After(k, m, steps).plan
    decreases |steps|
  {
    hide Next, Apply, Allowed, Orderly, Honest, OrderlyStep, Concludes;
    ops := [];
    if steps != [] {
      var first := StepCalls(k, m, steps[0]);
      StaysConcluding(k, m, steps[0]);
      var rest := StepsCall(k, Next(k, m, steps[0]), steps[1..]);
      ops := first + rest;
      if first == [] {
        assert ops == rest;
      } else {
        assert ops[0] == first[0] && ops[1..] == rest;
      }
    }
  }

  /** The records are read at one moment of a run of the executor and the files at a later one:
      the checkpoint opens again, with every item then unresolved exactly when no worker parked
      a finished copy in between, and besides those only finished copies settled in between. */
  lemma CheckpointDuringRun(k: Keys, m: Machine, steps: seq<Step>, p: CopyPlan, rs: seq<Recovery>)
    requires Inv(k, m.plan) && Exportable(k, m.plan) && Concludes(m) && Courteous(k, m, steps)
    requires Describes(k, p, After(k, m, steps).plan) && SameButIds(rs, Removals(m.plan.parked))
    requires Sum(Remaining(After(k, m, steps).plan), WeightOf) + RestoredWeight(Removals(m.plan.parked)) <= MAX64
    ensures Reopened(k, p, rs).Some?
    ensures var t, u := After(k, m, steps).plan, Reopened(k, p, rs).value;
      && Inv(k, u) && Exportable(k, u) && Export(u) == Described(k, p)
      && SameButIds(Removals(u.parked), Removals(m.plan.parked))
      && NothingLostIff(m.plan, t, u) && OnlySettledAdded(m.plan, t, u)
  {
    hide Inv, Exportable, Describes, Removals, Remaining, Reopened, After, PlanRuns.Run, UsedRun, Courteous, Export, Described, Concludes;
    hide NothingLostIff, OnlySettledAdded;
    var ops := StepsCall(k, m, steps);
    ReadsReturn(k, m.plan, ops, p, rs);
  }
}
