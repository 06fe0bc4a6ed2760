/** The executor and the disk together: what a Move deletes, for which item, and by right of
    which copy. Removals run step by step on a disk others change, while workers, the thread
    of the pass and the window go on. */
module MovedItems {
  import opened Items
  import opened Sequences
  import opened LivePlan
  import opened PlanInvariant
  import opened PlanOperations
  import opened PlanRuns
  import opened ExecutionControls
  import opened Executor
  import opened ExecutorOwnership
  import opened ExecutorRuns
  import Disk = MoveSafety

  /** The right to delete an item's source: the fingerprints of the source and of its copy. */
  datatype Title = Title(id: nat, source: Path, destination: Path, prints: Prints)

  function TitleOf(r: Recovery): Title {
    Title(r.fileId, r.source, r.destination, Prints(r.sourcePrint, r.destinationPrint))
  }

  /** The title a parked item carries. */
  function Carried(p: ParkedFile): Title
    requires p.recovery.Some?
  {
    TitleOf(p.recovery.value.(fileId := p.file.id))
  }

  function Owing(f: File, p: Prints): Title { Title(f.id, f.source, f.destination, p) }

  /** A completed copy: the objects it was made from and came to. */
  datatype Completed = Completed(title: Title, original: Disk.Object, copy: Disk.Object)

  predicate Recorded(c: Completed) {
    c.original.seal == c.title.prints.source && c.copy.seal == c.title.prints.destination
  }

  datatype Who = Worker(i: nat) | Pass

  /** A removal under way is an errand: its place among the disk's removals. The last three
      fields are history: copies completed, titles that came with the plan or from an
      archive, and items whose source was renamed. */
  datatype Joint = Joint(
    machine: Machine, disk: Disk.World, errands: map<Who, nat>,
    copies: set<Completed>, granted: set<Title>, renamed: set<nat>)

  function Titles(j: Joint): set<Title> { j.granted + set c | c in j.copies :: c.title }

  datatype Act =
    | Exec(step: Step)
    | Send(who: Who)
    | Advance(n: nat, answer: Disk.Answer)
    | Disturb(disk: Disk.Disk)

  // ---- steps ----

  function RecordOf(f: File, own: bool, p: Prints): Recovery {
    Recovery(f.id, 0, f.source, f.destination, !own, 1, p.source, p.destination)
  }

  /** The removal somebody has to carry out now. */
  function Due(m: Machine, who: Who): Option<Recovery> {
    match who
    case Worker(i) =>
      if m.phase.Working? && i < |m.workers| && m.workers[i].Removing? then
        Some(RecordOf(m.workers[i].file, m.workers[i].own, m.workers[i].prints))
      else None
    case Pass => if m.phase.Deleting? then Some(m.phase.r) else None
  }

  /** The removal has been carried out, with this result. */
  predicate Finished(j: Joint, who: Who, removal: Removal) {
    && who in j.errands && j.errands[who] < |j.disk.stages|
    && var s := j.disk.stages[j.errands[who]]; s.Done? && s.result == removal
  }

  /** The step whose turn it is, for a worker or for the pass, if it is one that must agree
      with the disk. */
  function ActingWorker(m: Machine, step: Step): Option<Executor.Worker> {
    if step.ByWorker? && m.phase.Working? && step.w < |m.workers| then Some(m.workers[step.w]) else None
  }

  predicate Renames(m: Machine, step: Step) {
    && ActingWorker(m, step).Some? && ActingWorker(m, step).value.Starting?
    && step.event.Rename? && step.event.done && m.plan.operation == Move
  }

  predicate Copies(m: Machine, step: Step) {
    && ActingWorker(m, step).Some? && ActingWorker(m, step).value.Copying?
    && step.event.Return? && step.event.attempt.Copied?
  }

  predicate Unlinks(m: Machine, step: Step) {
    ActingWorker(m, step).Some? && ActingWorker(m, step).value.Removing? && step.event.Unlink?
  }

  predicate Clears(m: Machine, step: Step) { m.phase.Deleting? && step.ByMain? && step.main.Clear? }

  predicate CanRename(w: Disk.World, from: Path, to: Path) {
    from in w.disk && from != to && !Disk.Pinned(w, from) && !Disk.Pinned(w, to)
  }

  /** A completed copy reports the fingerprints of the objects that are there. */
  predicate Present(w: Disk.World, f: File, p: Prints) {
    && f.source in w.disk && w.disk[f.source].seal == p.source
    && f.destination in w.disk && w.disk[f.destination].seal == p.destination
  }

  /** What the executor is told about the disk is so. Removing a source does not throw. */
  predicate Agrees(j: Joint, step: Step) {
    var m := j.machine;
    && (Unlinks(m, step) ==> Finished(j, Worker(step.w), step.event.removal))
    && (Clears(m, step) ==> Finished(j, Pass, step.main.removal))
    && (Renames(m, step) ==> CanRename(j.disk, m.workers[step.w].file.source, m.workers[step.w].file.destination))
    && (Copies(m, step) ==> Present(j.disk, m.workers[step.w].file, step.event.attempt.prints))
    && (step.ByWorker? && step.event.Throw? ==> Worker(step.w) !in j.errands)
  }

  /** The title an archived removal brings into the plan. */
  function Grants(k: Keys, m: Machine, step: Step): set<Title> {
    if step.ByOthers? && step.op.DoRestore? && CanRestore(k, m.plan, step.op.recovery) then
      {TitleOf(step.op.recovery.(fileId := m.plan.nextId))}
    else {}
  }

  function Made(j: Joint, step: Step): set<Completed>
    requires Agrees(j, step)
  {
    if Copies(j.machine, step) then
      var f := j.machine.workers[step.w].file;
      {Completed(Owing(f, step.event.attempt.prints), j.disk.disk[f.source], j.disk.disk[f.destination])}
    else {}
  }

  function Served(j: Joint, step: Step): map<Who, nat> {
    if Unlinks(j.machine, step) then j.errands - {Worker(step.w)}
    else if Clears(j.machine, step) then j.errands - {Pass}
    else j.errands
  }

  ghost function Executed(k: Keys, j: Joint, step: Step): Joint
    requires Agrees(j, step)
  {
    var m := j.machine;
    Joint(Next(k, m, step),
          if Renames(m, step) then
            Disk.Step(j.disk, Disk.Rename(m.workers[step.w].file.source, m.workers[step.w].file.destination))
          else j.disk,
          Served(j, step), j.copies + Made(j, step), j.granted + Grants(k, m, step),
          if Renames(m, step) then j.renamed + {m.workers[step.w].file.id} else j.renamed)
  }

  ghost function Turned(k: Keys, j: Joint, act: Act): Joint {
    match act
    case Exec(step) => if Agrees(j, step) then Executed(k, j, step) else j
    case Send(who) =>
      (match Due(j.machine, who)
       case None => j
       case Some(r) =>
         if who in j.errands then j
         else j.(disk := Disk.Step(j.disk, Disk.Ask(r)), errands := j.errands[who := |j.disk.stages|]))
    case Advance(n, answer) => j.(disk := Disk.Step(j.disk, Disk.Advance(n, answer)))
    case Disturb(disk) => j.(disk := Disk.Step(j.disk, Disk.Disturb(disk)))
  }

  ghost function Acted(k: Keys, j: Joint, acts: seq<Act>): Joint
    decreases |acts|
  {
    if acts == [] then j else Acted(k, Turned(k, j, acts[0]), acts[1..])
  }

  /** Before the first pass: the plan's own records are taken as they are. */
  ghost function Begun(s: Plan, disk: Disk.Disk): Joint {
    Joint(Start(s), Disk.World(disk, [], []), map[], {}, set p | p in s.parked && p.recovery.Some? :: Carried(p), {})
  }

  // ---- whoever may delete a source has a title to it ----

  ghost predicate PlanTitled(s: Plan, ts: set<Title>) {
    forall p :: p in s.parked && p.recovery.Some? ==> Carried(p) in ts
  }

  predicate WorkerTitled(w: Executor.Worker, ts: set<Title>) {
    match w
    case Finishing(f, _, p) => Owing(f, p) in ts
    case Removing(f, _, p) => Owing(f, p) in ts
    case Calling(f, ParkCopied(_, _, p), _, _) => Owing(f, p) in ts
    case _ => true
  }

  ghost predicate PassTitled(p: Phase, ts: set<Title>) { forall r :: r in Todo(p) ==> TitleOf(r) in ts }

  ghost predicate MachineTitled(m: Machine, ts: set<Title>) {
    PlanTitled(m.plan, ts) && PassTitled(m.phase, ts) && forall w :: w in m.workers ==> WorkerTitled(w, ts)
  }

  lemma SameParked(s: Plan, t: Plan, ts: set<Title>)
    requires PlanTitled(s, ts) && t.parked == s.parked
    ensures PlanTitled(t, ts)
  {
  }

  lemma FewerParked(s: Plan, t: Plan, i: nat, ts: set<Title>)
    requires PlanTitled(s, ts) && i < |s.parked| && t.parked == RemoveAt(s.parked, i)
    ensures PlanTitled(t, ts)
  {
    forall p | p in t.parked && p.recovery.Some?
      ensures Carried(p) in ts
    {
      assert p in multiset(t.parked) && p in multiset(s.parked);
    }
  }

  lemma AltParked(s: Plan, t: Plan, i: nat, ts: set<Title>)
    requires PlanTitled(s, ts) && i < |s.parked| && |t.parked| == |s.parked|
    requires t.parked == s.parked[i := t.parked[i]]
    requires t.parked[i].file == s.parked[i].file && t.parked[i].recovery == s.parked[i].recovery
    ensures PlanTitled(t, ts)
  {
    forall p | p in t.parked && p.recovery.Some?
      ensures Carried(p) in ts
    {
      var j :| 0 <= j < |t.parked| && t.parked[j] == p;
      assert s.parked[j] in s.parked;
    }
  }

  lemma MoreParked(s: Plan, t: Plan, ts: set<Title>)
    requires PlanTitled(s, ts) && |t.parked| == |s.parked| + 1 && t.parked[..|s.parked|] == s.parked
    requires Last(t.parked).recovery.Some? ==> Carried(Last(t.parked)) in ts
    ensures PlanTitled(t, ts)
  {
    assert t.parked == s.parked + [Last(t.parked)];
  }

  /** Calls on the plan bring in no title but the one of the copy they park, or of the record
      they restore. */
  lemma PlanTitledStep(k: Keys, s: Plan, op: Op, ts: set<Title>)
    requires PlanTitled(s, ts)
    requires op.DoParkRemoval? && HasId(s.active, op.id) ==>
      Owing(s.active[Find(s.active, op.id)], Prints(op.sourcePrint, op.destinationPrint)) in ts
    requires op.DoRestore? && CanRestore(k, s, op.recovery) ==> TitleOf(op.recovery.(fileId := s.nextId)) in ts
    ensures PlanTitled(Apply(k, s, op), ts)
  {
    hide PlanTitled;
    var t := Apply(k, s, op);
    match op {
      case DoUnpark(id) => UnparkTitled(s, id, ts);
      case DoResolveParked(id, o, h, pre) => ResolveTitled(k, s, id, o, h, pre, ts);
      case DoBeginRetry(id, a) => RetryTitled(s, id, a, 0, ts);
      case DoRetryFailed(id, h) => RetryTitled(s, id, RetryTransfer, h, ts);
      case DoPark(id, h, pre, a) => ParkTitled(s, id, h, pre, a, ts);
      case DoParkRemoval(id, h, pre, a, b) => ParkRemovalTitled(s, id, h, pre, a, b, ts);
      case DoRestore(r) => RestoreTitled(k, s, r, ts);
      case _ =>
        hide Apply;
        ParkedAsBefore(k, s, op);
        SameParked(s, t, ts);
    }
  }

  lemma UnparkTitled(s: Plan, id: nat, ts: set<Title>)
    requires PlanTitled(s, ts)
    ensures PlanTitled(Unpark(s, id), ts)
  {
    hide PlanTitled;
    var i := Find(ParkedFiles(s.parked), id);
    if Unpark(s, id).parked != s.parked { FewerParked(s, Unpark(s, id), i, ts); } else { SameParked(s, Unpark(s, id), ts); }
  }

  lemma ResolveTitled(k: Keys, s: Plan, id: nat, o: ItemOutcome, h: int, pre: bool, ts: set<Title>)
    requires PlanTitled(s, ts)
    ensures PlanTitled(ResolveParked(k, s, id, o, h, pre), ts)
  {
    hide PlanTitled, Wrap;
    var i, t := Find(ParkedFiles(s.parked), id), ResolveParked(k, s, id, o, h, pre);
    if i < |s.parked| { FewerParked(s, t, i, ts); } else { SameParked(s, t, ts); }
  }

  lemma RetryTitled(s: Plan, id: nat, a: RecoveryAction, h: int, ts: set<Title>)
    requires PlanTitled(s, ts)
    ensures PlanTitled(BeginRetry(s, id, a), ts) && PlanTitled(RetryFailed(s, id, h), ts)
  {
    hide PlanTitled;
    var i, t, u := Find(ParkedFiles(s.parked), id), BeginRetry(s, id, a), RetryFailed(s, id, h);
    if i < |s.parked| { AltParked(s, u, i, ts); } else { SameParked(s, u, ts); }
    if i < |s.parked| && s.parked[i].incident.action == a { AltParked(s, t, i, ts); } else { SameParked(s, t, ts); }
  }

  lemma ParkTitled(s: Plan, id: nat, h: int, pre: bool, a: RecoveryAction, ts: set<Title>)
    requires PlanTitled(s, ts)
    ensures PlanTitled(Park(s, id, h, pre, a), ts)
  {
    hide PlanTitled;
    var t := Park(s, id, h, pre, a);
    if Find(s.active, id) < |s.active| { MoreParked(s, t, ts); } else { SameParked(s, t, ts); }
  }

  lemma ParkRemovalTitled(s: Plan, id: nat, h: int, pre: bool, a: Fingerprint, b: Fingerprint, ts: set<Title>)
    requires PlanTitled(s, ts) && (HasId(s.active, id) ==> Owing(s.active[Find(s.active, id)], Prints(a, b)) in ts)
    ensures PlanTitled(ParkRemoval(s, id, h, pre, a, b), ts)
  {
    hide PlanTitled;
    var t := ParkRemoval(s, id, h, pre, a, b);
    if Find(s.active, id) < |s.active| { MoreParked(s, t, ts); } else { SameParked(s, t, ts); }
  }

  lemma RestoreTitled(k: Keys, s: Plan, r: Recovery, ts: set<Title>)
    requires PlanTitled(s, ts) && (CanRestore(k, s, r) ==> TitleOf(r.(fileId := s.nextId)) in ts)
    ensures PlanTitled(Restore(k, s, r), ts)
  {
    hide PlanTitled;
    var t := Restore(k, s, r);
    if CanRestore(k, s, r) { MoreParked(s, t, ts); } else { SameParked(s, t, ts); }
  }

  lemma ParkedAsBefore(k: Keys, s: Plan, op: Op)
    requires !op.DoUnpark? && !op.DoResolveParked? && !op.DoBeginRetry? && !op.DoRetryFailed?
    requires !op.DoPark? && !op.DoParkRemoval? && !op.DoRestore?
    ensures Apply(k, s, op).parked == s.parked
  {
    hide Wrap, Find, Append, Remove, FailUnder;
    if op.DoRemove? {
      RemoveRest(k, s, op.ids);
    } else if op.DoFailUnder? {
      FailUnderRest(k, s, op.directory, op.hresult, 0);
    } else if op.DoAppend? {
      AppendRest(k, op.now, s, op.plan, op.allowDrained);
    }
  }

  lemma {:induction false} RemovalsTitled(parked: seq<ParkedFile>, ts: set<Title>)
    requires forall p :: p in parked ==> p.incident.fileId == p.file.id && (p.recovery.Some? ==> Carried(p) in ts)
    ensures forall r :: r in Removals(parked) ==> TitleOf(r) in ts
  {
    if parked != [] {
      assert parked[0] in parked;
      RemovalsTitled(parked[1..], ts);
    }
  }

  lemma ListedTitled(k: Keys, s: Plan, ts: set<Title>)
    requires Inv(k, s) && PlanTitled(s, ts)
    ensures forall r :: r in Removals(s.parked) ==> TitleOf(r) in ts
  {
    RemovalsTitled(s.parked, ts);
  }

  lemma WorkerTitledStep(k: Keys, s: Plan, c: Control, o: Options, w: Executor.Worker, x: Event, ts: set<Title>)
    requires WorkerStep(k, s, c, o, w, x).Some? && WorkerTitled(w, ts) && WellPlaced(w)
    requires DistinctBy(s.active, IdOf) && forall f :: f in Held(w) ==> f in s.active
    requires w.Copying? && x.Return? && x.attempt.Copied? ==> Owing(w.file, x.attempt.prints) in ts
    ensures var e := WorkerStep(k, s, c, o, w, x).value;
      && WorkerTitled(e.worker, ts)
      && (e.op.Some? ==> !e.op.value.DoRestore?)
      && (e.op.Some? && e.op.value.DoParkRemoval? && HasId(s.active, e.op.value.id) ==>
            Owing(s.active[Find(s.active, e.op.value.id)], Prints(e.op.value.sourcePrint, e.op.value.destinationPrint)) in ts)
  {
    hide Redirect, Find, DistinctBy;
    if w.Calling? { FoundActive(s, w.file); }
  }

  /** The pass pursues what it listed, in order. */
  predicate Onward(m: Machine, p: Phase) {
    var todo := Todo(m.phase);
    Todo(p) == todo || Todo(p) == [] || (todo != [] && Todo(p) == todo[1..]) || (m.phase.Listing? && Todo(p) == Removals(m.plan.parked))
  }

  lemma RetryTodo(k: Keys, m: Machine, e: MainEvent)
    ensures Onward(m, RetryStep(k, m, e).phase)
  {
    hide Apply, Removals, HasId, ParkedFor;
    match m.phase {
      case Judging(r, rest) => Tail(r, rest);
      case Beginning(r, rest) =>
      case Excusing(r, rest, _) => Tail(r, rest);
      case Concluding(r, rest, _, _) => Tail(r, rest);
      case Retrying(todo) => if todo != [] { assert [todo[0]] + todo[1..] == todo; }
      case _ =>
    }
  }

  lemma Tail(r: Recovery, rest: seq<Recovery>)
    ensures ([r] + rest)[1..] == rest
  {
  }

  lemma BatchTodo(k: Keys, m: Machine, e: MainEvent)
    ensures Todo(BatchStep(k, m, e).phase) == [] || BatchStep(k, m, e) == m
  {
    hide Apply;
  }

  lemma MainTodo(k: Keys, m: Machine, e: MainEvent)
    ensures forall r :: r in Todo(MainStep(k, m, e).phase) ==>
      r in Todo(m.phase) || (m.phase.Listing? && r in Removals(m.plan.parked))
  {
    assert Onward(m, MainStep(k, m, e).phase) by {
      hide Apply, Removals, RetryStep, BatchStep;
      RetryTodo(k, m, e);
      BatchTodo(k, m, e);
    }
    hide MainStep, Removals;
  }

  lemma MainHires(k: Keys, m: Machine, e: MainEvent)
    ensures MainStep(k, m, e).workers == m.workers || forall w :: w in MainStep(k, m, e).workers ==> w.Ready?
  {
    assert RetryStep(k, m, e).workers == m.workers && BatchStep(k, m, e).workers == m.workers by { hide Apply, Removals; }
    hide RetryStep, BatchStep;
  }

  lemma MainTitled(k: Keys, m: Machine, e: MainEvent, ts: set<Title>)
    requires Inv(k, m.plan) && MachineTitled(m, ts)
    ensures MachineTitled(MainStep(k, m, e), ts)
  {
    hide Inv, Apply, MainStep, MainOp, PlanTitled, Removals;
    MainCalls(k, m, e);
    MainOpTitled(k, m, ts);
    MainTodo(k, m, e);
    MainHires(k, m, e);
    if m.phase.Listing? { ListedTitled(k, m.plan, ts); }
    var t := MainStep(k, m, e);
    forall w | w in t.workers
      ensures WorkerTitled(w, ts)
    {
    }
  }

  lemma MainOpTitled(k: Keys, m: Machine, ts: set<Title>)
    requires PlanTitled(m.plan, ts)
    ensures PlanTitled(Apply(k, m.plan, MainOp(m.phase)), ts)
  {
    hide PlanTitled, Apply;
    PlanTitledStep(k, m.plan, MainOp(m.phase), ts);
  }

  lemma WorkerKeepsTitles(k: Keys, m: Machine, i: nat, x: Event, ts: set<Title>)
    requires Sound(k, m) && MachineTitled(m, ts) && i < |m.workers|
    requires WorkerStep(k, m.plan, m.control, m.options, m.workers[i], x).Some?
    requires m.workers[i].Copying? && x.Return? && x.attempt.Copied? ==> Owing(m.workers[i].file, x.attempt.prints) in ts
    ensures MachineTitled(Committed(k, m, i, WorkerStep(k, m.plan, m.control, m.options, m.workers[i], x).value), ts)
  {
    hide Sound, Inv, WorkerStep, Apply, PlanTitled, Held, WellPlaced, Find, WorkerTitled;
    SoundParts(k, m);
    ActiveDistinct(k, m.plan);
    OwnedMember(m, i);
    PlacedMember(m, i);
    assert m.workers[i] in m.workers;
    var e := WorkerStep(k, m.plan, m.control, m.options, m.workers[i], x).value;
    WorkerTitledStep(k, m.plan, m.control, m.options, m.workers[i], x, ts);
    if e.op.Some? { PlanTitledStep(k, m.plan, e.op.value, ts); }
    forall w | w in Committed(k, m, i, e).workers
      ensures WorkerTitled(w, ts)
    {
      assert w in m.workers || w == e.worker;
    }
  }

  /** What a step lays down is enough for the titles it needs. */
  lemma NextTitled(k: Keys, m: Machine, step: Step, ts: set<Title>)
    requires Sound(k, m) && MachineTitled(m, ts) && Grants(k, m, step) <= ts
    requires Copies(m, step) ==> Owing(m.workers[step.w].file, step.event.attempt.prints) in ts
    ensures MachineTitled(Next(k, m, step), ts)
  {
    hide Sound, Inv, MainStep, WorkerStep, Apply, Requested, Outside, Allowed, PlanTitled, WorkerTitled, CanRestore;
    SoundParts(k, m);
    match step {
      case ByMain(e) => MainTitled(k, m, e, ts);
      case ByControl(r) =>
      case Resume =>
      case ByOthers(op) =>
        if Outside(m, op) {
          OutsideParks(m, op);
          PlanTitledStep(k, m.plan, op, ts);
        }
      case ByWorker(i, x) =>
        if m.phase.Working? && i < |m.workers| && WorkerStep(k, m.plan, m.control, m.options, m.workers[i], x).Some? {
          WorkerKeepsTitles(k, m, i, x, ts);
        }
    }
  }

  lemma OutsideParks(m: Machine, op: Op)
    requires Outside(m, op)
    ensures !op.DoParkRemoval?
  {
  }

  // ---- errands ----

  ghost predicate DiskTitled(w: Disk.World, ts: set<Title>) {
    forall n :: 0 <= n < |w.stages| ==> TitleOf(w.stages[n].r) in ts
  }

  /** Every errand is a removal somebody has to carry out, each its own, and no removal that
      is still going on is nobody's. */
  ghost predicate Errant(j: Joint) {
    && (forall who :: who in j.errands ==>
          j.errands[who] < |j.disk.stages| && Due(j.machine, who) == Some(j.disk.stages[j.errands[who]].r))
    && (forall a, b :: a in j.errands && b in j.errands && j.errands[a] == j.errands[b] ==> a == b)
    && (forall n :: 0 <= n < |j.disk.stages| && !j.disk.stages[n].Done? ==> Sent(j, n))
  }

  ghost predicate Sent(j: Joint, n: nat) { exists who :: who in j.errands && j.errands[who] == n }

  predicate Deletes(w: Disk.World, n: nat, id: nat) {
    n < |w.stages| && w.stages[n].Done? && w.stages[n].result == Deleted && w.stages[n].r.fileId == id
  }

  /** The executor knows of every deletion that was reported to it, and of no other. */
  ghost predicate Answered(j: Joint) {
    && (forall n, id :: Deletes(j.disk, n, id) ==> id in j.machine.deleted || Sent(j, n))
    && j.renamed <= j.machine.deleted
    && (forall id :: id in j.machine.deleted ==> id in j.renamed || exists n :: Deletes(j.disk, n, id))
  }

  ghost predicate Steady(k: Keys, j: Joint) {
    && Sound(k, j.machine) && Trusted(j.machine) && Accounted(j.machine)
    && Disk.Sane(j.disk) && Disk.SameRecovery(j.disk)
    && MachineTitled(j.machine, Titles(j)) && DiskTitled(j.disk, Titles(j))
    && Errant(j) && Answered(j)
    && forall c :: c in j.copies ==> Recorded(c)
  }

  // ---- steps of the disk ----

  lemma DueTitled(m: Machine, who: Who, ts: set<Title>)
    requires MachineTitled(m, ts) && Due(m, who).Some?
    ensures TitleOf(Due(m, who).value) in ts
  {
    hide PlanTitled;
    if who.Worker? { assert m.workers[who.i] in m.workers; } else { assert Due(m, who).value in Todo(m.phase); }
  }

  lemma SendKeeps(k: Keys, j: Joint, who: Who)
    requires Steady(k, j)
    ensures Steady(k, Turned(k, j, Send(who)))
  {
    hide Sound, Trusted, Accounted, Disk.Sane, Disk.SameRecovery, MachineTitled, Due, Answered, Errant;
    var t := Turned(k, j, Send(who));
    if Due(j.machine, who).Some? && who !in j.errands {
      var r := Due(j.machine, who).value;
      DueTitled(j.machine, who, Titles(j));
      Disk.AskSane(j.disk, r);
      Disk.SameRecoveryStep(j.disk, Disk.Ask(r));
      assert t.disk.stages == j.disk.stages + [Disk.Asked(r)];
      assert Titles(t) == Titles(j);
      SentErrant(j, t, who, r);
      SentAnswered(j, t, who, r);
    }
  }

  /** `t` is `j` with one more removal under way. */
  ghost predicate SendsOne(j: Joint, t: Joint, who: Who, r: Recovery) {
    && who !in j.errands && t.errands == j.errands[who := |j.disk.stages|]
    && t.disk.stages == j.disk.stages + [Disk.Asked(r)] && t.machine == j.machine && t.renamed == j.renamed
  }

  lemma SentErrant(j: Joint, t: Joint, who: Who, r: Recovery)
    requires Errant(j) && SendsOne(j, t, who, r) && Due(j.machine, who) == Some(r)
    ensures Errant(t)
  {
    hide Due;
    StillSent(j, t, who);
  }

  lemma SentAnswered(j: Joint, t: Joint, who: Who, r: Recovery)
    requires Errant(j) && Answered(j) && SendsOne(j, t, who, r)
    ensures Answered(t)
  {
    StillSent(j, t, who);
    hide Errant, Sent;
    forall n: nat, id | Deletes(t.disk, n, id)
      ensures id in t.machine.deleted || Sent(t, n)
    {
      assert Deletes(j.disk, n, id);
    }
    forall id | id in t.machine.deleted && id !in t.renamed
      ensures exists n :: Deletes(t.disk, n, id)
    {
      var n :| Deletes(j.disk, n, id);
      assert Deletes(t.disk, n, id);
    }
  }

  lemma StillSent(j: Joint, t: Joint, who: Who)
    requires Errant(j) && who !in j.errands && t.errands == j.errands[who := |j.disk.stages|]
    ensures forall n :: Sent(j, n) ==> Sent(t, n)
    ensures Sent(t, |j.disk.stages|)
  {
    forall n | Sent(j, n)
      ensures Sent(t, n)
    {
      var x :| x in j.errands && j.errands[x] == n;
      assert x in t.errands && t.errands[x] == n;
    }
    assert who in t.errands;
  }

  /** The disk's own steps keep every removal's record, and finish no removal twice. */
  lemma DiskSteps(w: Disk.World, move: Disk.Move)
    requires move.Advance? || move.Disturb? || move.Rename?
    ensures var t := Disk.Step(w, move);
      && |t.stages| == |w.stages|
      && forall n :: 0 <= n < |w.stages| ==> t.stages[n].r == w.stages[n].r && (w.stages[n].Done? ==> t.stages[n] == w.stages[n])
  {
    hide Disk.Pinned, Disk.Leaves, Disk.Matches, Disk.Shared;
  }

  lemma DiskKeeps(k: Keys, j: Joint, move: Disk.Move)
    requires Steady(k, j) && (move.Advance? || move.Disturb?)
    ensures Steady(k, j.(disk := Disk.Step(j.disk, move)))
  {
    hide Sound, Trusted, Accounted, Disk.Sane, Disk.SameRecovery, MachineTitled, Due, Disk.Step;
    var t := j.(disk := Disk.Step(j.disk, move));
    Disk.StepSane(j.disk, move);
    Disk.SameRecoveryStep(j.disk, move);
    DiskSteps(j.disk, move);
    SameStages(j, t);
    assert Titles(t) == Titles(j);
  }

  /** Nothing about errands and answers depends on how far the removals under way are. */
  lemma SameStages(j: Joint, t: Joint)
    requires Errant(j) && Answered(j) && t.errands == j.errands && t.machine == j.machine && t.renamed == j.renamed
    requires |t.disk.stages| == |j.disk.stages|
    requires forall n :: 0 <= n < |j.disk.stages| ==>
      t.disk.stages[n].r == j.disk.stages[n].r && (j.disk.stages[n].Done? ==> t.disk.stages[n] == j.disk.stages[n])
    ensures Errant(t) && Answered(t)
  {
    hide Due;
    forall n | Sent(j, n)
      ensures Sent(t, n)
    {
    }
    forall n: nat, id | Deletes(t.disk, n, id)
      ensures id in t.machine.deleted || Sent(t, n)
    {
      if j.disk.stages[n].Done? { assert Deletes(j.disk, n, id); } else { assert Sent(j, n); }
    }
    forall id | id in t.machine.deleted && id !in t.renamed
      ensures exists n :: Deletes(t.disk, n, id)
    {
      var n :| Deletes(j.disk, n, id);
      assert Deletes(t.disk, n, id);
    }
  }

  // ---- steps of the executor ----

  /** A removal that is due stays due until its result is reported. */
  lemma DueStays(k: Keys, m: Machine, step: Step, who: Who)
    requires Due(m, who).Some? && !(step.ByWorker? && who == Worker(step.w) && (Unlinks(m, step) || step.event.Throw?))
    requires !(who == Pass && Clears(m, step))
    ensures Due(Next(k, m, step), who) == Due(m, who)
  {
    hide Apply, Allowed, Redirect, Removals;
    if who.Pass? {
      match step {
        case ByMain(e) => assert MainStep(k, m, e) == m;
        case _ =>
      }
    } else {
      assert m.workers[who.i] in m.workers;
      match step {
        case ByMain(e) => assert MainStep(k, m, e) == m;
        case ByWorker(i, x) =>
        case _ =>
      }
    }
  }

  /** What a step adds to the deleted sources. */
  function Taken(m: Machine, step: Step): set<nat> {
    if Renames(m, step) then {m.workers[step.w].file.id}
    else if Unlinks(m, step) && step.event.removal.Deleted? then {m.workers[step.w].file.id}
    else if Clears(m, step) && step.main.removal.Deleted? then {m.phase.r.fileId}
    else {}
  }

  lemma DeletedBy(k: Keys, m: Machine, step: Step)
    ensures Next(k, m, step).deleted == m.deleted + Taken(m, step)
  {
    hide Apply, Allowed, Redirect, Removals, AfterAttempt;
    match step {
      case ByMain(e) => MainDeletes(k, m, e);
      case _ =>
    }
  }

  lemma MainDeletes(k: Keys, m: Machine, e: MainEvent)
    ensures MainStep(k, m, e).deleted == m.deleted + Taken(m, ByMain(e))
  {
    hide Apply, Removals, BatchStep;
    assert BatchStep(k, m, e).deleted == m.deleted by { BatchCalls(k, m, e); }
  }

  lemma MachineKeeps(k: Keys, j: Joint, step: Step)
    requires Steady(k, j) && Agrees(j, step)
    ensures var t := Executed(k, j, step);
      && Sound(k, t.machine) && Trusted(t.machine) && Accounted(t.machine) && MachineTitled(t.machine, Titles(t))
      && Titles(j) <= Titles(t) && forall c :: c in t.copies ==> Recorded(c)
  {
    hide Sound, Trusted, Accounted, Disk.Sane, Disk.SameRecovery, MachineTitled, Errant, Answered, Next, Disk.Step, DiskTitled;
    var t := Executed(k, j, step);
    StepTrusted(k, j.machine, step);
    StepAccounts(k, j.machine, step);
    TitlesGrow(j, t, step, Grants(k, j.machine, step));
    MoreTitled(j.machine, Titles(j), Titles(t));
    NextTitled(k, j.machine, step, Titles(t));
  }

  lemma TitlesGrow(j: Joint, t: Joint, step: Step, grants: set<Title>)
    requires Agrees(j, step) && t.copies == j.copies + Made(j, step) && t.granted == j.granted + grants
    requires forall c :: c in j.copies ==> Recorded(c)
    ensures Titles(j) <= Titles(t) && grants <= Titles(t) && forall c :: c in t.copies ==> Recorded(c)
    ensures Copies(j.machine, step) ==> Owing(j.machine.workers[step.w].file, step.event.attempt.prints) in Titles(t)
  {
    if Copies(j.machine, step) {
      var f := j.machine.workers[step.w].file;
      var c := Completed(Owing(f, step.event.attempt.prints), j.disk.disk[f.source], j.disk.disk[f.destination]);
      assert c in t.copies;
    }
  }

  lemma MoreTitled(m: Machine, ts: set<Title>, us: set<Title>)
    requires MachineTitled(m, ts) && ts <= us
    ensures MachineTitled(m, us)
  {
    assert forall w :: w in m.workers && WorkerTitled(w, ts) ==> WorkerTitled(w, us);
  }

  lemma ErrandsKept(k: Keys, j: Joint, step: Step)
    requires Errant(j) && Agrees(j, step)
    ensures var t := Executed(k, j, step); StagesKept(j, t) && Errant(t)
  {
    hide Next, Due, Disk.Step;
    var t := Executed(k, j, step);
    RenameStages(j.disk, t.disk, j.machine, step);
    forall who | who in t.errands
      ensures Due(t.machine, who) == Some(t.disk.stages[t.errands[who]].r)
    {
      assert who in j.errands && t.errands[who] == j.errands[who];
      DueStays(k, j.machine, step, who);
    }
    StillErrand(k, j, step, t);
  }

  /** The removals are the same, and the same of them are done. */
  predicate StagesKept(j: Joint, t: Joint) {
    && |t.disk.stages| == |j.disk.stages|
    && forall n :: 0 <= n < |j.disk.stages| ==>
         && t.disk.stages[n].r == j.disk.stages[n].r && (j.disk.stages[n].Done? <==> t.disk.stages[n].Done?)
         && (j.disk.stages[n].Done? ==> t.disk.stages[n] == j.disk.stages[n])
  }

  lemma StillErrand(k: Keys, j: Joint, step: Step, t: Joint)
    requires Errant(j) && Agrees(j, step) && t == Executed(k, j, step)
    ensures forall n :: 0 <= n < |t.disk.stages| && !t.disk.stages[n].Done? ==> Sent(t, n)
  {
    hide Next, Due, Disk.Step;
    RenameStages(j.disk, t.disk, j.machine, step);
    forall n | 0 <= n < |t.disk.stages| && !t.disk.stages[n].Done?
      ensures Sent(t, n)
    {
      assert Sent(j, n);
      var who :| who in j.errands && j.errands[who] == n;
      assert who in t.errands;
    }
  }

  lemma RenameStages(w: Disk.World, t: Disk.World, m: Machine, step: Step)
    requires t == if Renames(m, step) then
        Disk.Step(w, Disk.Rename(m.workers[step.w].file.source, m.workers[step.w].file.destination)) else w
    ensures t.stages == w.stages
  {
    hide Disk.Pinned;
  }

  lemma AnswersKept(k: Keys, j: Joint, step: Step)
    requires Errant(j) && Answered(j) && Agrees(j, step)
    ensures Answered(Executed(k, j, step))
  {
    var t := Executed(k, j, step);
    ErrandsKept(k, j, step);
    hide Next, Disk.Step;
    DeletedBy(k, j.machine, step);
    forall n: nat, id | Deletes(t.disk, n, id)
      ensures id in t.machine.deleted || Sent(t, n)
    {
      assert Deletes(j.disk, n, id);
      if id !in j.machine.deleted {
        var who :| who in j.errands && j.errands[who] == n;
        if who in t.errands { assert t.errands[who] == n; }
      }
    }
    AnsweredDeletes(k, j, step, t);
  }

  lemma AnsweredDeletes(k: Keys, j: Joint, step: Step, t: Joint)
    requires Errant(j) && Answered(j) && Agrees(j, step) && t == Executed(k, j, step)
    ensures forall id :: id in t.machine.deleted && id !in t.renamed ==> exists n :: Deletes(t.disk, n, id)
  {
    ErrandsKept(k, j, step);
    DeletedBy(k, j.machine, step);
    hide Next, Disk.Step, Due, Sent, Errant;
    forall id | id in t.machine.deleted && id !in t.renamed
      ensures exists n :: Deletes(t.disk, n, id)
    {
      if id in j.machine.deleted {
        var n :| Deletes(j.disk, n, id);
        assert Deletes(t.disk, n, id);
      } else {
        var who := if Unlinks(j.machine, step) then Worker(step.w) else Pass;
        assert Deletes(t.disk, j.errands[who], id);
      }
    }
  }

  lemma ExecKeeps(k: Keys, j: Joint, step: Step)
    requires Steady(k, j) && Agrees(j, step)
    ensures Steady(k, Executed(k, j, step))
  {
    hide Sound, Trusted, Accounted, Disk.Sane, Disk.SameRecovery, MachineTitled, Errant, Answered, Next, Disk.Step, Titles;
    var t, m := Executed(k, j, step), j.machine;
    MachineKeeps(k, j, step);
    ErrandsKept(k, j, step);
    AnswersKept(k, j, step);
    if Renames(m, step) {
      var move := Disk.Rename(m.workers[step.w].file.source, m.workers[step.w].file.destination);
      Disk.StepSane(j.disk, move);
      Disk.SameRecoveryStep(j.disk, move);
    }
  }

  lemma ActKeeps(k: Keys, j: Joint, act: Act)
    requires Steady(k, j)
    ensures Steady(k, Turned(k, j, act))
  {
    hide Steady, Executed, Agrees;
    match act {
      case Exec(step) => if Agrees(j, step) { ExecKeeps(k, j, step); }
      case Send(who) => SendKeeps(k, j, who);
      case Advance(n, answer) => DiskKeeps(k, j, Disk.Advance(n, answer));
      case Disturb(disk) => DiskKeeps(k, j, Disk.Disturb(disk));
    }
  }

  lemma {:induction false} SteadyOverRuns(k: Keys, j: Joint, acts: seq<Act>)
    requires Steady(k, j)
    ensures Steady(k, Acted(k, j, acts))
    decreases |acts|
  {
    if acts != [] {
      hide Steady, Turned;
      ActKeeps(k, j, acts[0]);
      SteadyOverRuns(k, Turned(k, j, acts[0]), acts[1..]);
    }
  }

  lemma BeginsSteady(k: Keys, s: Plan, disk: Disk.Disk)
    requires Inv(k, s)
    ensures Steady(k, Begun(s, disk))
  {
    hide Inv, Sound, Trusted;
    StartsSound(k, s);
  }

  // ---- what a Move deletes ----

  /** A deletion by right of a copy: it took the object the item's own copy was made from,
      while the object that copy came to stood at its destination. */
  ghost predicate ByCopy(j: Joint, e: Disk.Entry)
    requires e.Unlinked?
  {
    exists c :: c in j.copies && c.title == TitleOf(e.r) && c.original.seal == e.source.seal && c.copy.seal == e.destination.seal
  }

  /** In every run, whatever others do to the disk: each source deleted was deleted for an item
      of the plan, as the very object that item's completed copy was made from and with that
      copy pinned at its destination, or by right of a record the plan was begun with or an
      archive restored; and never for an item that ended with its source retained. */
  lemma MovesByRight(k: Keys, s: Plan, disk: Disk.Disk, acts: seq<Act>, e: Disk.Entry)
    requires Inv(k, s) && e in Acted(k, Begun(s, disk), acts).disk.log && e.Unlinked?
    ensures var j := Acted(k, Begun(s, disk), acts);
      && Disk.Warranted(e) && (TitleOf(e.r) in j.granted || ByCopy(j, e))
      && forall d :: d in j.machine.plan.done && !d.scanned && d.outcome == CopiedSourceRetained ==> d.file.id != e.r.fileId
  {
    var j := Acted(k, Begun(s, disk), acts);
    hide Inv, Acted, Begun;
    BeginsSteady(k, s, disk);
    SteadyOverRuns(k, Begun(s, disk), acts);
    LoggedTitle(k, j, e);
    forall d | d in j.machine.plan.done && !d.scanned && d.outcome == CopiedSourceRetained
      ensures d.file.id != e.r.fileId
    {
      if d.file.id == e.r.fileId { RetainedUnlogged(k, j, e, d); }
    }
  }

  lemma LoggedTitle(k: Keys, j: Joint, e: Disk.Entry)
    requires Steady(k, j) && e in j.disk.log && e.Unlinked?
    ensures Disk.Warranted(e) && (TitleOf(e.r) in j.granted || ByCopy(j, e))
    ensures Deletes(j.disk, e.thread, e.r.fileId)
  {
    hide Sound, Trusted, Accounted, MachineTitled, Errant, Answered;
    assert Disk.Logged(j.disk.log, e.thread);
    assert TitleOf(e.r) in Titles(j);
    if TitleOf(e.r) !in j.granted {
      var c :| c in j.copies && c.title == TitleOf(e.r);
      assert Recorded(c);
    }
  }

  lemma RetainedUnlogged(k: Keys, j: Joint, e: Disk.Entry, d: Done)
    requires Steady(k, j) && e.Unlinked? && Deletes(j.disk, e.thread, e.r.fileId)
    requires d in j.machine.plan.done && !d.scanned && d.outcome == CopiedSourceRetained
    ensures d.file.id != e.r.fileId
  {
    hide Disk.Sane, Disk.SameRecovery, MachineTitled, Accounted, Sound, DiskTitled;
    RetainedKeepsSource(k, j.machine, d);
    if d.file.id == e.r.fileId {
      assert Sent(j, e.thread);
      var who :| who in j.errands && j.errands[who] == e.thread;
      DueUnsettled(k, j.machine, who, d);
    }
  }

  /** The item whose source is being removed has no outcome yet. */
  lemma DueUnsettled(k: Keys, m: Machine, who: Who, d: Done)
    requires Sound(k, m) && Due(m, who).Some? && d in m.plan.done && !d.scanned
    ensures Due(m, who).value.fileId != d.file.id
  {
    hide Inv, Owned, AwaitsRemoval, IdsSound;
    SoundParts(k, m);
    ActiveDistinct(k, m.plan);
    SettledHas(m.plan.done, d);
    StatesApart(m.plan);
    assert d.file.id in IdsOf(m.plan).terminal;
    if who.Worker? {
      OwnedMember(m, who.i);
      assert m.workers[who.i].file in m.plan.active;
    } else {
      assert m.phase.r in Todo(m.phase);
      AwaitedId(m.plan, m.phase.r.fileId);
    }
  }
}
