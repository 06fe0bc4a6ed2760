/** One pass of the executor over a live plan, as interleaved steps: the thread that runs
    the pass, its workers, control requests and the window's edits. A step makes at most
    one call on the plan and one on the control word. */
module Executor {
  import opened Items
  import opened Sequences
  import opened LivePlan
  import opened PlanRuns
  import opened ExecutionControls

  const MAX_WORKERS: nat := 4

  /** The result code of an operation that was asked to stop. */
  const REQUEST_ABORTED: int := -2147023661

  datatype ConflictPolicy = Prompt | ReplaceAll | SkipAll | KeepBoth | KeepBothAll

  /** The item the last conflict decision was made for, and what to do about conflicts. */
  datatype Options = Options(replaceId: nat, policy: ConflictPolicy)

  predicate KeepsBoth(o: Options, id: nat) {
    o.policy == KeepBothAll || (o.replaceId == id && o.policy == KeepBoth)
  }

  /** What ends a session early: a native code, or a plan that lost track of an item. */
  datatype SessionError = Native(code: int) | InvalidPlanState

  datatype JobResult = Success | Stopped | Cancelled | Broken(error: SessionError)

  // ---- what the world answers ----

  datatype Prints = Prints(source: Fingerprint, destination: Fingerprint)

  /** How one copy attempt comes back. */
  datatype Attempt =
    | Copied(prints: Prints)
    | Paused
    | Aborted
    | Conflict(code: int)
    | Fatal(code: int)
    | Refused(code: int)

  /** How an attempt to remove a source ends. */
  datatype Removal = Deleted | AlreadyGone | Kept(code: int)

  datatype Verdict = Verified | Changed | Gone | Unavailable

  datatype Making = Made | Unusable(code: int, fatal: bool)

  // ---- workers ----

  /** A worker's next call on the plan about the item it holds. */
  datatype Call =
    | Settle(outcome: ItemOutcome, hresult: int, preexisted: bool)
    | ParkTransfer(hresult: int, preexisted: bool)
    | ParkCopied(hresult: int, preexisted: bool, prints: Prints)
    | GiveBack

  /** Where a worker is. `own` says that a partial destination is its to discard; `next` is
      where a call leads once it has succeeded. */
  datatype Worker =
    | Ready
    | Cleared
    | Taken(file: File)
    | Chosen(file: File)
    | Starting(file: File, own: bool)
    | Copying(file: File, own: bool, skip: bool)
    | Redirecting(file: File, own: bool, code: int)
    | Finishing(file: File, own: bool, prints: Prints)
    | Removing(file: File, own: bool, prints: Prints)
    | Calling(file: File, call: Call, next: Worker, loud: bool)
    | Reporting(id: nat, transferred: bool)
    | Closing(id: nat)
    | Alarming(error: Option<SessionError>, result: JobResult)
    | Ended(result: JobResult)

  function Held(w: Worker): seq<File> {
    match w
    case Taken(f) => [f]
    case Chosen(f) => [f]
    case Starting(f, _) => [f]
    case Copying(f, _, _) => [f]
    case Redirecting(f, _, _) => [f]
    case Finishing(f, _, _) => [f]
    case Removing(f, _, _) => [f]
    case Calling(f, _, _, _) => [f]
    case _ => []
  }

  datatype Event =
    | Go
    | Probe(vacant: bool)
    | Rename(done: bool)
    | Progress(bytes: nat)
    | NoteSkip
    | Return(attempt: Attempt)
    | Around(world: Surroundings)
    | Unlink(removal: Removal)
    | Report(keepGoing: bool)
    | Throw(parks: bool, code: int)

  /** What a worker's step does. `deleted` is the item whose source it removed; `lost` is
      the item a worker that died of an exception leaves behind. */
  datatype Effect = Effect(
    op: Option<Op>, control: Control, worker: Worker,
    error: Option<SessionError>, deleted: Option<nat>, lost: Option<File>)

  function Turn(c: Control, w: Worker): Option<Effect> { Some(Effect(None, c, w, None, None, None)) }

  function Calls(c: Control, op: Op, w: Worker): Option<Effect> { Some(Effect(Some(op), c, w, None, None, None)) }

  /** Give the item back to the queue and go on to `next`. */
  function Returning(f: File, next: Worker): Worker { Calling(f, GiveBack, next, true) }

  function Settling(f: File, outcome: ItemOutcome, preexisted: bool): Worker {
    Calling(f, Settle(outcome, 0, preexisted), Reporting(f.id, outcome == Succeeded), true)
  }

  /** Give the item back, then report the code and cancel the session. */
  function Failing(f: File, code: int): Worker {
    Returning(f, Alarming(Some(Native(code)), Broken(Native(code))))
  }

  /** The call behind `Calling`. */
  function OpOf(id: nat, call: Call): Op {
    match call
    case Settle(outcome, hresult, preexisted) => DoResolveActive(id, outcome, hresult, preexisted)
    case ParkTransfer(hresult, preexisted) => DoPark(id, hresult, preexisted, RetryTransfer)
    case ParkCopied(hresult, preexisted, p) => DoParkRemoval(id, hresult, preexisted, p.source, p.destination)
    case GiveBack => DoRelease(id)
  }

  /** After a copy attempt; None while the session is paused and the worker waits. */
  function AfterAttempt(c: Control, o: Options, move: bool, f: File, own: bool, skip: bool, a: Attempt): Option<Worker> {
    if a.Copied? then
      Some(if move then Finishing(f, own, a.prints) else Settling(f, Succeeded, !own))
    else if skip then Some(Settling(f, Skipped, false))
    else
      match a
      case Copied(p) => Some(Finishing(f, own, p))
      case Paused =>
        (match c.directive
         case Pause => None
         case Cancel => Some(Returning(f, Ended(Cancelled)))
         case Stop => Some(Returning(f, Ended(Stopped)))
         case Run => Some(Copying(f, own, false)))
      case Aborted =>
        Some(Returning(f, if c.directive == Stop then Ended(Stopped) else Alarming(None, Cancelled)))
      case Conflict(code) =>
        Some(if KeepsBoth(o, f.id) then Redirecting(f, own, code)
             else if o.policy == SkipAll then Settling(f, Skipped, true)
             else Failing(f, code))
      case Fatal(code) => Some(Failing(f, code))
      case Refused(code) => Some(Calling(f, ParkTransfer(code, !own), Reporting(f.id, false), true))
  }

  function AfterRemoval(f: File, own: bool, p: Prints, r: Removal): Worker {
    match r
    case Deleted => Settling(f, Succeeded, !own)
    case AlreadyGone => Settling(f, Succeeded, !own)
    case Kept(code) =>
      if p.source.identity.None? || p.destination.identity.None? then
        Calling(f, Settle(CopiedSourceRetained, code, !own), Ready, true)
      else Calling(f, ParkCopied(code, !own, p), Reporting(f.id, false), true)
  }

  /** A worker that must look at the directive goes on, gives up, or waits out a pause. */
  function Guarded(c: Control, run: Worker, stop: Worker, cancel: Worker): Option<Effect> {
    match c.directive
    case Pause => None
    case Run => Turn(c, run)
    case Stop => Turn(c, stop)
    case Cancel => Turn(c, cancel)
  }

  /** Settling or parking an item does not throw; nothing else is left to do then. */
  predicate Nothrow(w: Worker) { w.Ended? || w.Alarming? || (w.Calling? && !w.call.GiveBack?) }

  /** An exception parks the item the worker holds, or ends the worker and the session. */
  function Thrown(s: Plan, c: Control, w: Worker, parks: bool, code: int): Option<Effect> {
    var alarm := Alarming(Some(Native(code)), Broken(Native(code)));
    if Nothrow(w) then None
    else if Held(w) == [] then Turn(c, alarm)
    else if parks && HasId(s.active, Held(w)[0].id) then
      Calls(c, DoPark(Held(w)[0].id, code, false, RetryTransfer), Ready)
    else Some(Effect(None, c, alarm, None, None, Some(Held(w)[0])))
  }

  /** One step of a worker; None when it cannot take it. */
  function WorkerStep(k: Keys, s: Plan, c: Control, o: Options, w: Worker, e: Event): Option<Effect> {
    if e.Throw? then Thrown(s, c, w, e.parks, e.code)
    else
      match w
      case Ready => Guarded(c, Cleared, Ended(Stopped), Ended(Cancelled))
      case Cleared =>
        Calls(c, DoAcquire, if s.pending == [] then Ended(Success) else Taken(s.pending[0]))
      case Taken(f) =>
        Guarded(c, Chosen(f), Returning(f, Ended(Stopped)), Returning(f, Ended(Cancelled)))
      case Chosen(f) =>
        if !e.Probe? then None
        else Turn(Consumed(c, f.id),
                  if e.vacant && f.id in c.skips then Settling(f, Skipped, false) else Starting(f, e.vacant))
      case Starting(f, own) =>
        if !e.Rename? || (e.done && s.operation != Move) then None
        else if e.done then Some(Effect(None, c, Settling(f, Succeeded, !own), None, Some(f.id), None))
        else Turn(c, Copying(f, own, false))
      case Copying(f, own, skip) =>
        (match e
         case Progress(n) => Calls(c, DoRecordBytes(f.id, n), w)
         case NoteSkip => if own && f.id in c.skips then Turn(Consumed(c, f.id), Copying(f, own, true)) else None
         case Return(a) =>
           (match AfterAttempt(c, o, s.operation == Move, f, own, skip, a)
            case None => None
            case Some(next) => Turn(c, next))
         case _ => None)
      case Redirecting(f, own, code) =>
        if !e.Around? then None
        else
          Calls(c, DoRedirect(f.id, e.world),
                match Redirect(k, s, f.id, e.world).1
                case Some(to) => Copying(f.(destination := to), true, false)
                case None => Failing(f, code))
      case Finishing(f, own, p) =>
        Guarded(c, Removing(f, own, p),
                Calling(f, ParkCopied(REQUEST_ABORTED, !own, p), Ended(Stopped), false),
                Calling(f, ParkCopied(REQUEST_ABORTED, !own, p), Ended(Cancelled), false))
      case Removing(f, own, p) =>
        if !e.Unlink? then None
        else Some(Effect(None, c, AfterRemoval(f, own, p, e.removal), None,
                         if e.removal.Deleted? then Some(f.id) else None, None))
      case Calling(f, call, next, loud) =>
        if HasId(s.active, f.id) || call.GiveBack? then Calls(c, OpOf(f.id, call), next)
        else if loud then Turn(c, Alarming(Some(InvalidPlanState), Broken(InvalidPlanState)))
        else Some(Effect(None, c, next, Some(InvalidPlanState), None, None))
      case Reporting(id, transferred) =>
        if !e.Report? then None
        else if !e.keepGoing then Turn(Requested(c, AskCancel), Ended(Cancelled))
        else Turn(c, if transferred then Closing(id) else Ready)
      case Closing(id) =>
        Turn(c, if o.replaceId == id then Ended(Success)
                else if c.directive == Stop then Ended(Stopped)
                else Ready)
      case Alarming(error, result) =>
        Some(Effect(None, Requested(c, AskCancel), Ended(result), error, None, None))
      case Ended(_) => None
  }

  // ---- the thread that runs the pass ----

  /** Where the pass is: retrying parked removals, preparing directories, then workers. */
  datatype Phase =
    | Idle
    | Opening(retry: bool)
    | Listing
    | Retrying(todo: seq<Recovery>)
    | Judging(r: Recovery, rest: seq<Recovery>)
    | Beginning(r: Recovery, rest: seq<Recovery>)
    | Rechecking(r: Recovery, rest: seq<Recovery>)
    | Deleting(r: Recovery, rest: seq<Recovery>)
    | Excusing(r: Recovery, rest: seq<Recovery>, code: int)
    | Concluding(r: Recovery, rest: seq<Recovery>, outcome: ItemOutcome, hresult: int)
    | Batching
    | Preparing(dirs: seq<Directory>, through: nat)
    | Creating(dirs: seq<Directory>, through: nat)
    | Condemning(dirs: seq<Directory>, through: nat, code: int)
    | Marking(through: nat)
    | Checking
    | Counting
    | Working
    | Sweeping
    | Surveying
    | Cleaning
    | Cleaned(code: int)
    | Finished(result: JobResult)

  datatype MainEvent =
    | Begin(retry: bool, options: Options)
    | Proceed
    | Judge(verdict: Verdict)
    | Clear(removal: Removal)
    | Make(making: Making)
    | Hire(count: nat)
    | Clean(code: int)

  /** A pass in progress. The last three fields record its history: items whose source the
      executor deleted, active items nobody holds any more, and leading directories tried. */
  datatype Machine = Machine(
    plan: Plan, control: Control, options: Options, phase: Phase, workers: seq<Worker>,
    error: Option<SessionError>, deleted: set<nat>, lost: seq<File>, tried: nat)

  /** Go on if the directive allows it, or finish the pass. */
  function Gate(m: Machine, next: Phase): Machine {
    match m.control.directive
    case Pause => m
    case Run => m.(phase := next)
    case Stop => m.(phase := Finished(Stopped))
    case Cancel => m.(phase := Finished(Cancelled))
  }

  function Pursue(rest: seq<Recovery>): Phase { if rest == [] then Batching else Retrying(rest) }

  /** A call on the plan that succeeds exactly when the item is parked for removal. */
  function CallParked(k: Keys, m: Machine, op: Op, found: bool, next: Phase): Machine {
    if found then m.(plan := Apply(k, m.plan, op), phase := next)
    else m.(phase := Finished(Broken(InvalidPlanState)))
  }

  /** The item is parked and waits for its source to be removed. */
  predicate ParkedFor(s: Plan, id: nat, action: RecoveryAction) {
    var i := Find(ParkedFiles(s.parked), id);
    i < |s.parked| && s.parked[i].incident.action == action
  }

  function Unresolved(s: Plan): nat { |s.pending| + |s.active| + |s.parked| }
  function RemainingFiles(s: Plan): nat { |s.pending| + |s.active| }

  /** Join the workers and merge their results. */
  function Merged(m: Machine): Machine {
    if m.error.Some? then m.(phase := Finished(Broken(m.error.value)))
    else if Ended(Cancelled) in m.workers then m.(phase := Finished(Cancelled))
    else if Ended(Stopped) in m.workers then m.(phase := Finished(Stopped))
    else m.(phase := Sweeping)
  }

  predicate AllEnded(workers: seq<Worker>) { forall w :: w in workers ==> w.Ended? }

  /** The retry pass over parked source removals. */
  function RetryStep(k: Keys, m: Machine, e: MainEvent): Machine {
    match m.phase
    case Listing => m.(phase := Pursue(Removals(m.plan.parked)))
    case Retrying(todo) => if todo == [] then m.(phase := Batching) else Gate(m, Judging(todo[0], todo[1..]))
    case Judging(r, rest) =>
      if !e.Judge? then m
      else m.(phase := match e.verdict
                case Unavailable => Pursue(rest)
                case Changed => Concluding(r, rest, CopiedSourceRetained, r.hresult)
                case Gone => Concluding(r, rest, Succeeded, 0)
                case Verified => Beginning(r, rest))
    case Beginning(r, rest) =>
      CallParked(k, m, DoBeginRetry(r.fileId, RetrySourceRemoval), ParkedFor(m.plan, r.fileId, RetrySourceRemoval),
                 Rechecking(r, rest))
    case Rechecking(r, rest) => Gate(m, Deleting(r, rest))
    case Deleting(r, rest) =>
      if !e.Clear? then m
      else
        (match e.removal
         case Kept(code) => m.(phase := Excusing(r, rest, code))
         case AlreadyGone => m.(phase := Concluding(r, rest, Succeeded, 0))
         case Deleted => m.(phase := Concluding(r, rest, Succeeded, 0), deleted := m.deleted + {r.fileId}))
    case Excusing(r, rest, code) =>
      CallParked(k, m, DoRetryFailed(r.fileId, code), HasId(ParkedFiles(m.plan.parked), r.fileId), Pursue(rest))
    case Concluding(r, rest, outcome, hresult) =>
      CallParked(k, m, DoResolveParked(r.fileId, outcome, hresult, r.preexisted),
                 HasId(ParkedFiles(m.plan.parked), r.fileId), Pursue(rest))
    case _ => m
  }

  /** The directory batch: a directory that cannot be used fails everything queued below. */
  function BatchStep(k: Keys, m: Machine, e: MainEvent): Machine {
    match m.phase
    case Batching =>
      var from := Min(m.plan.materialized, |m.plan.directories|);
      m.(phase := Preparing(m.plan.directories[from..], |m.plan.directories|))
    case Preparing(dirs, through) =>
      if dirs == [] then m.(phase := Marking(through)) else Gate(m, Creating(dirs, through))
    case Creating(dirs, through) =>
      if !e.Make? || dirs == [] then m
      else
        (match e.making
         case Made => m.(phase := Preparing(dirs[1..], through), tried := Max(m.tried, Monus(through + 1, |dirs|)))
         case Unusable(code, fatal) =>
           if fatal then m.(phase := Finished(Broken(Native(code))))
           else m.(phase := Condemning(dirs, through, code)))
    case Condemning(dirs, through, code) =>
      if dirs == [] then m
      else m.(plan := Apply(k, m.plan, DoFailUnder(dirs[0].destination, code)),
              phase := Preparing(dirs[1..], through), tried := Max(m.tried, Monus(through + 1, |dirs|)))
    case Marking(through) => m.(plan := Apply(k, m.plan, DoMaterialize(through)), phase := Checking)
    case _ => m
  }

  /** One step of the thread that runs the pass; the machine itself when it cannot move. */
  function MainStep(k: Keys, m: Machine, e: MainEvent): Machine {
    match m.phase
    case Idle => if e.Begin? then m.(phase := Opening(e.retry), options := e.options, error := None) else m
    case Finished(_) => if e.Begin? then m.(phase := Opening(e.retry), options := e.options, error := None) else m
    case Opening(retry) => Gate(m, if retry then Listing else Batching)
    case Checking => Gate(m, Counting)
    case Counting =>
      var n := RemainingFiles(m.plan);
      if n == 0 then m.(phase := Sweeping)
      else if e.Hire? && 1 <= e.count <= Min(n, MAX_WORKERS) then
        m.(phase := Working, workers := seq(e.count, _ => Ready))
      else m
    case Working => if AllEnded(m.workers) then Merged(m) else m
    case Sweeping => Gate(m, Surveying)
    case Surveying =>
      if m.plan.operation == Move && Unresolved(m.plan) == 0 then m.(phase := Cleaning)
      else m.(phase := Finished(Success))
    case Cleaning => if e.Clean? then m.(phase := Cleaned(e.code)) else m
    case Cleaned(code) => Gate(m, Finished(if code == 0 then Success else Broken(Native(code))))
    case Batching => BatchStep(k, m, e)
    case Preparing(_, _) => BatchStep(k, m, e)
    case Creating(_, _) => BatchStep(k, m, e)
    case Condemning(_, _, _) => BatchStep(k, m, e)
    case Marking(_) => BatchStep(k, m, e)
    case _ => RetryStep(k, m, e)
  }

  // ---- the whole machine ----

  /** No pass is under way. */
  predicate Between(m: Machine) { m.phase.Idle? || m.phase.Finished? }

  /** Calls other threads make on the plan: the window edits the queue and commits appended
      plans at any time, and decides about parked items between passes. */
  predicate Outside(m: Machine, op: Op) {
    match op
    case DoAppend(_, _, _) => true
    case DoReorder(_) => true
    case DoRemove(_) => true
    case DoUnpark(_) => Between(m)
    case DoResolveParked(_, _, _, _) => Between(m)
    case DoRestore(_) => Between(m)
    case _ => false
  }

  /** The last step gives a session that is resumed a control word of its own. */
  datatype Step =
    | ByWorker(w: nat, event: Event)
    | ByMain(main: MainEvent)
    | ByControl(request: Request)
    | ByOthers(op: Op)
    | Resume

  function Added(ids: set<nat>, id: Option<nat>): set<nat> { if id.Some? then ids + {id.value} else ids }

  function Committed(k: Keys, m: Machine, i: nat, e: Effect): Machine
    requires i < |m.workers|
  {
    m.(plan := if e.op.Some? then Apply(k, m.plan, e.op.value) else m.plan,
       control := e.control, workers := m.workers[i := e.worker],
       error := if m.error.None? then e.error else m.error,
       deleted := Added(m.deleted, e.deleted),
       lost := if e.lost.Some? then m.lost + [e.lost.value] else m.lost)
  }

  /** Any step by anyone; one that is not possible now changes nothing. */
  ghost function Next(k: Keys, m: Machine, step: Step): Machine {
    match step
    case ByMain(e) => MainStep(k, m, e)
    case ByControl(r) => m.(control := Requested(m.control, r))
    case Resume => if Between(m) then m.(control := INITIAL) else m
    case ByOthers(op) => if Outside(m, op) && Allowed(m.plan, op) then m.(plan := Apply(k, m.plan, op)) else m
    case ByWorker(i, e) =>
      if m.phase.Working? && i < |m.workers| then
        match WorkerStep(k, m.plan, m.control, m.options, m.workers[i], e)
        case None => m
        case Some(effect) => Committed(k, m, i, effect)
      else m
  }

  ghost function After(k: Keys, m: Machine, steps: seq<Step>): Machine
    decreases |steps|
  {
    if steps == [] then m else After(k, Next(k, m, steps[0]), steps[1..])
  }

  /** Before the first pass over a plan, be it new or left by an earlier session: what is active
      then was left behind, and directories marked as made were tried. */
  function Start(s: Plan): Machine {
    Machine(s, INITIAL, Options(0, Prompt), Idle, [], None, {}, s.active, s.materialized)
  }
}
