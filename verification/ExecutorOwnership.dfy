/** Who holds what during a pass: the active list is exactly what the workers hold, every
    call about an item finds it, and nothing is active once the workers have joined. */
module ExecutorOwnership {
  import opened Items
  import opened Sequences
  import opened LivePlan
  import opened PlanInvariant
  import opened PlanOperations
  import opened PlanAdmission
  import opened PlanEntry
  import opened PlanRuns
  import opened ExecutionControls
  import opened Executor

  // ---- what the workers hold ----

  function HeldAll(workers: seq<Worker>): seq<File> {
    if workers == [] then [] else Held(workers[0]) + HeldAll(workers[1..])
  }

  lemma {:induction false} HeldSplit(ws: seq<Worker>, i: nat)
    requires i < |ws|
    ensures multiset(HeldAll(ws)) == multiset(HeldAll(ws[..i])) + multiset(Held(ws[i])) + multiset(HeldAll(ws[i + 1..]))
  {
    hide Held;
    if i == 0 {
      assert ws[..0] == [];
    } else {
      HeldSplit(ws[1..], i - 1);
      assert ws[1..][..i - 1] == ws[..i][1..] && ws[1..][i..] == ws[i + 1..];
    }
  }

  /** Changing one worker changes what all of them hold by that worker's share. */
  lemma HeldUpdate(ws: seq<Worker>, i: nat, w: Worker)
    requires i < |ws|
    ensures multiset(HeldAll(ws[i := w])) + multiset(Held(ws[i])) == multiset(HeldAll(ws)) + multiset(Held(w))
  {
    HeldSplit(ws, i);
    HeldSplit(ws[i := w], i);
    assert ws[i := w][..i] == ws[..i] && ws[i := w][i + 1..] == ws[i + 1..];
  }

  lemma HeldMember(ws: seq<Worker>, i: nat)
    requires i < |ws|
    ensures forall f :: f in Held(ws[i]) ==> f in multiset(HeldAll(ws))
  {
    HeldSplit(ws, i);
  }

  lemma {:induction false} NothingHeld(ws: seq<Worker>)
    requires forall w :: w in ws ==> Held(w) == []
    ensures HeldAll(ws) == []
  {
    if ws != [] { NothingHeld(ws[1..]); }
  }

  // ---- one worker's step ----

  /** After its call about an item a worker no longer holds it. */
  predicate WellPlaced(w: Worker) {
    w.Calling? ==> w.next.Ready? || w.next.Reporting? || w.next.Alarming? || w.next.Ended?
  }

  function Dropped(e: Effect): seq<File> { if e.lost.Some? then [e.lost.value] else [] }

  /** The active list changes by exactly what the worker takes up, lets go or drops. */
  ghost predicate Balanced(s: Plan, t: Plan, w: Worker, e: Effect) {
    multiset(t.active) + multiset(Held(w))
      == multiset(s.active) + multiset(Held(e.worker)) + multiset(Dropped(e))
  }

  lemma FoundActive(s: Plan, f: File)
    requires DistinctBy(s.active, IdOf) && f in s.active
    ensures HasId(s.active, f.id) && s.active[Find(s.active, f.id)] == f
  {
    var j :| 0 <= j < |s.active| && s.active[j] == f;
    DistinctMember(s.active, IdOf, s.active[Find(s.active, f.id)], f);
  }

  lemma TakenOutOf(xs: seq<File>, i: nat)
    requires i < |xs|
    ensures multiset(RemoveAt(xs, i)) + multiset{xs[i]} == multiset(xs)
  {
    assert xs == xs[..i] + [xs[i]] + xs[i + 1..];
  }

  lemma SwappedIn(xs: seq<File>, i: nat, g: File)
    requires i < |xs|
    ensures multiset(xs[i := g]) + multiset{xs[i]} == multiset(xs) + multiset{g}
  {
    assert xs == xs[..i] + [xs[i]] + xs[i + 1..];
    assert xs[i := g] == xs[..i] + [g] + xs[i + 1..];
  }

  lemma CallTakesOut(k: Keys, s: Plan, f: File, call: Call)
    requires HasId(s.active, f.id) && s.active[Find(s.active, f.id)] == f
    ensures multiset(Apply(k, s, OpOf(f.id, call)).active) + multiset{f} == multiset(s.active)
  {
    CallForm(k, s, f.id, call);
    TakenOutOf(s.active, Find(s.active, f.id));
  }

  lemma CallForm(k: Keys, s: Plan, id: nat, call: Call)
    requires HasId(s.active, id)
    ensures Apply(k, s, OpOf(id, call)).active == RemoveAt(s.active, Find(s.active, id))
  {
    hide Resolve, Wrap, Find;
    match call {
      case Settle(_, _, _) =>
      case ParkTransfer(_, _) =>
      case ParkCopied(_, _, _) =>
      case GiveBack =>
    }
  }

  lemma ParkTakesOut(k: Keys, s: Plan, f: File, code: int)
    requires HasId(s.active, f.id) && s.active[Find(s.active, f.id)] == f
    ensures multiset(Apply(k, s, DoPark(f.id, code, false, RetryTransfer)).active) + multiset{f} == multiset(s.active)
  {
    CallTakesOut(k, s, f, ParkTransfer(code, false));
  }

  lemma RedirectSwaps(k: Keys, s: Plan, f: File, w: Surroundings)
    requires HasId(s.active, f.id) && s.active[Find(s.active, f.id)] == f
    ensures var (t, to) := Redirect(k, s, f.id, w);
      multiset(t.active) + multiset{f} == multiset(s.active) + multiset{if to.Some? then f.(destination := to.value) else f}
  {
    var (t, to) := Redirect(k, s, f.id, w);
    if to.Some? { SwappedIn(s.active, Find(s.active, f.id), f.(destination := to.value)); }
  }

  lemma ThrownBalanced(k: Keys, s: Plan, c: Control, w: Worker, parks: bool, code: int)
    requires DistinctBy(s.active, IdOf) && (forall f :: f in Held(w) ==> f in s.active)
    requires Thrown(s, c, w, parks, code).Some?
    ensures var e := Thrown(s, c, w, parks, code).value;
      && Balanced(s, if e.op.Some? then Apply(k, s, e.op.value) else s, w, e) && WellPlaced(e.worker)
      && (e.op.Some? ==> Allowed(s, e.op.value))
  {
    hide Apply, Find, DistinctBy, Held;
    AtMostOne(w);
    if Held(w) != [] {
      var f := Held(w)[0];
      FoundActive(s, f);
      ParkTakesOut(k, s, f, code);
      assert Held(w) == [f];
    }
    assert Held(Ready) == [] && Held(Alarming(Some(Native(code)), Broken(Native(code)))) == [] by { IdleHolds(code); }
  }

  lemma AtMostOne(w: Worker)
    ensures |Held(w)| <= 1
  {
  }

  lemma IdleHolds(code: int)
    ensures Held(Ready) == [] && Held(Alarming(Some(Native(code)), Broken(Native(code)))) == []
  {
  }

  /** Without a call on the plan a worker keeps hold of its item. */
  lemma WorkerHolds(k: Keys, s: Plan, c: Control, o: Options, w: Worker, x: Event)
    requires WellPlaced(w) && !x.Throw?
    requires w.Calling? ==> HasId(s.active, w.file.id)
    requires WorkerStep(k, s, c, o, w, x).Some?
    ensures var e := WorkerStep(k, s, c, o, w, x).value;
      WellPlaced(e.worker) && e.lost.None? && (e.op.None? ==> Held(e.worker) == Held(w))
  {
    hide Redirect, Find, Apply;
  }

  lemma WorkerBalanced(k: Keys, s: Plan, c: Control, o: Options, w: Worker, x: Event)
    requires DistinctBy(s.active, IdOf) && (forall f :: f in Held(w) ==> f in s.active) && WellPlaced(w)
    requires WorkerStep(k, s, c, o, w, x).Some?
    ensures var e := WorkerStep(k, s, c, o, w, x).value;
      && Balanced(s, if e.op.Some? then Apply(k, s, e.op.value) else s, w, e) && WellPlaced(e.worker)
      && (e.op.Some? ==> Allowed(s, e.op.value))
  {
    if x.Throw? {
      hide Thrown, Apply;
      ThrownBalanced(k, s, c, w, x.parks, x.code);
    } else {
      if w.Calling? { FoundActive(s, w.file); }
      WorkerHolds(k, s, c, o, w, x);
      var e := WorkerStep(k, s, c, o, w, x).value;
      if e.op.Some? {
        WorkerConcerns(k, s, c, o, w, x);
        hide WorkerStep, Concerns, Apply, Allowed;
        ConcernAllowed(k, s, w, x, e.op.value, e.worker);
        CallLeads(k, s, w, x, e.op.value, e.worker);
        CallBalanced(k, s, w, x, e.op.value, e.worker);
      }
    }
  }

  lemma CallLeads(k: Keys, s: Plan, w: Worker, x: Event, op: Op, next: Worker)
    requires Concerns(k, s, w, x, op, next) && WellPlaced(w)
    ensures w.Calling? ==> Held(next) == []
  {
    hide Redirect;
  }

  /** The calls a worker makes: to acquire an item, or about the one it holds. */
  ghost predicate Concerns(k: Keys, s: Plan, w: Worker, x: Event, op: Op, next: Worker) {
    match w
    case Cleared => op == DoAcquire && next == if s.pending == [] then Ended(Success) else Taken(s.pending[0])
    case Calling(f, call, onward, _) => op == OpOf(f.id, call) && next == onward
    case Copying(f, _, _) => x.Progress? && op == DoRecordBytes(f.id, x.bytes) && next == w
    case Redirecting(f, _, code) =>
      && x.Around? && op == DoRedirect(f.id, x.world)
      && next == (match Redirect(k, s, f.id, x.world).1
                  case Some(to) => Copying(f.(destination := to), true, false)
                  case None => Failing(f, code))
    case _ => false
  }

  lemma WorkerConcerns(k: Keys, s: Plan, c: Control, o: Options, w: Worker, x: Event)
    requires !x.Throw? && WorkerStep(k, s, c, o, w, x).Some? && WorkerStep(k, s, c, o, w, x).value.op.Some?
    ensures var e := WorkerStep(k, s, c, o, w, x).value;
      Concerns(k, s, w, x, e.op.value, e.worker) && e.lost.None?
  {
    hide Redirect, Find, AfterAttempt;
  }

  lemma CallBalanced(k: Keys, s: Plan, w: Worker, x: Event, op: Op, next: Worker)
    requires DistinctBy(s.active, IdOf) && (forall f :: f in Held(w) ==> f in s.active)
    requires Concerns(k, s, w, x, op, next) && (w.Calling? ==> Held(next) == [])
    ensures multiset(Apply(k, s, op).active) + multiset(Held(w)) == multiset(s.active) + multiset(Held(next))
  {
    hide Redirect, Find, Apply, DistinctBy, OpOf;
    if w.Calling? {
      FoundActive(s, w.file);
      CallTakesOut(k, s, w.file, w.call);
    } else if w.Redirecting? {
      RedirectBalanced(k, s, w, x);
    } else if w.Copying? {
      RecordKeepsActive(k, s, w.file.id, x.bytes);
    } else {
      AcquireTakesUp(k, s);
    }
  }

  lemma RedirectBalanced(k: Keys, s: Plan, w: Worker, x: Event)
    requires DistinctBy(s.active, IdOf) && w.Redirecting? && x.Around? && w.file in s.active
    ensures var to := Redirect(k, s, w.file.id, x.world).1;
      multiset(Apply(k, s, DoRedirect(w.file.id, x.world)).active) + multiset{w.file}
      == multiset(s.active) + multiset{if to.Some? then w.file.(destination := to.value) else w.file}
  {
    hide Redirect, Find, Apply, DistinctBy;
    FoundActive(s, w.file);
    RedirectSwaps(k, s, w.file, x.world);
    ApplyRedirect(k, s, w.file.id, x.world);
  }

  lemma ConcernAllowed(k: Keys, s: Plan, w: Worker, x: Event, op: Op, next: Worker)
    requires Concerns(k, s, w, x, op, next)
    ensures Allowed(s, op)
  {
    hide Redirect;
  }


  lemma ApplyRedirect(k: Keys, s: Plan, id: nat, w: Surroundings)
    ensures Apply(k, s, DoRedirect(id, w)) == Redirect(k, s, id, w).0
  {
    hide Redirect;
  }

  lemma AcquireTakesUp(k: Keys, s: Plan)
    ensures Apply(k, s, DoAcquire).active == s.active + if s.pending == [] then [] else [s.pending[0]]
  {
  }

  lemma RecordKeepsActive(k: Keys, s: Plan, id: nat, n: nat)
    ensures Apply(k, s, DoRecordBytes(id, n)).active == s.active
  {
    hide Wrap, Find;
  }


  // ---- the invariant of a pass ----

  /** The active list is exactly what workers hold, apart from items lost to exceptions. */
  ghost predicate Owned(m: Machine) {
    && multiset(m.plan.active) == multiset(HeldAll(m.workers)) + multiset(m.lost)
    && (forall w :: w in m.workers ==> WellPlaced(w))
    && (!m.phase.Working? ==> AllEnded(m.workers))
  }

  /** The removals the pass still means to act on. */
  function Todo(p: Phase): seq<Recovery> {
    match p
    case Retrying(todo) => todo
    case Judging(r, rest) => [r] + rest
    case Beginning(r, rest) => [r] + rest
    case Rechecking(r, rest) => [r] + rest
    case Deleting(r, rest) => [r] + rest
    case Excusing(r, rest, _) => [r] + rest
    case Concluding(r, rest, _, _) => [r] + rest
    case _ => []
  }

  function FileIdOf(r: Recovery): nat { r.fileId }

  /** They are all still parked, each once. */
  ghost predicate Pursuing(s: Plan, todo: seq<Recovery>) {
    DistinctBy(todo, FileIdOf) && forall r :: r in todo ==> AwaitsRemoval(s, r.fileId)
  }

  /** The directories a batch has not dealt with yet, and where the batch ends. */
  function Left(p: Phase): seq<Directory> {
    match p
    case Preparing(dirs, _) => dirs
    case Creating(dirs, _) => dirs
    case Condemning(dirs, _, _) => dirs
    case _ => []
  }

  function Through(p: Phase): nat {
    match p
    case Preparing(_, n) => n
    case Creating(_, n) => n
    case Condemning(_, n, _) => n
    case Marking(n) => n
    case _ => 0
  }

  /** Only directories that were tried are marked, and a batch misses none. */
  ghost predicate BatchSound(m: Machine) {
    var left, through := Left(m.phase), Through(m.phase);
    && m.plan.materialized <= m.tried <= |m.plan.directories|
    && |left| <= through <= |m.plan.directories|
    && left == m.plan.directories[through - |left|..through]
    && through - |left| <= m.tried
    && (m.phase.Creating? || m.phase.Condemning? ==> left != [])
  }

  ghost predicate Sound(k: Keys, m: Machine) {
    && Inv(k, m.plan) && Owned(m) && Pursuing(m.plan, Todo(m.phase)) && BatchSound(m)
  }

  lemma ActiveDistinct(k: Keys, s: Plan)
    requires Inv(k, s)
    ensures DistinctBy(s.active, IdOf) && IdsSound(s)
  {
    hide IdsSound;
    StatesApart(s);
  }

  lemma OwnedMember(m: Machine, i: nat)
    requires Owned(m) && i < |m.workers|
    ensures forall f :: f in Held(m.workers[i]) ==> f in m.plan.active
  {
    HeldMember(m.workers, i);
    forall f | f in Held(m.workers[i])
      ensures f in m.plan.active
    {
      assert f in multiset(HeldAll(m.workers));
      assert f in multiset(m.plan.active);
    }
  }

  /** No item has two owners. */
  lemma OneOwner(k: Keys, m: Machine, i: nat, j: nat)
    requires Sound(k, m) && i < j < |m.workers| && Held(m.workers[i]) != [] && Held(m.workers[j]) != []
    ensures Held(m.workers[i])[0].id != Held(m.workers[j])[0].id
  {
    hide Inv;
    ActiveDistinct(k, m.plan);
    OwnedMember(m, i);
    OwnedMember(m, j);
    var f, g := Held(m.workers[i])[0], Held(m.workers[j])[0];
    HeldSplit(m.workers, i);
    HeldMember(m.workers[i + 1..], j - i - 1);
    assert m.workers[i + 1..][j - i - 1] == m.workers[j];
    assert multiset(Held(m.workers[i])) == multiset{f};
    assert multiset(HeldAll(m.workers[i + 1..]))[g] >= 1;
    DistinctOnce(m.plan.active, IdOf, g);
    assert f != g;
    DistinctMember(m.plan.active, IdOf, f, g);
  }

  /** Outside the copying phase nothing is active but what exceptions left behind. */
  lemma JoinedLeavesNothing(m: Machine)
    requires Owned(m) && !m.phase.Working?
    ensures multiset(m.plan.active) == multiset(m.lost)
    ensures m.lost == [] ==> m.plan.active == []
  {
    NothingHeld(m.workers);
    if m.lost == [] { assert |multiset(m.plan.active)| == |m.plan.active|; }
  }

  // ---- calls that leave other parts alone ----

  lemma {:induction false} DropAllRest(s: Plan, files: seq<File>)
    ensures var t := DropAll(s, files);
      t.active == s.active && t.parked == s.parked && t.directories == s.directories
      && t.materialized == s.materialized && t.operation == s.operation
    decreases files
  {
    if files != [] { DropAllRest(DropInFlight(s, files[0].id), files[1..]); }
  }

  lemma {:induction false} FailUnderRest(k: Keys, s: Plan, d: Path, h: int, n: nat)
    requires n <= |s.pending|
    ensures var t := FailUnder(k, s, d, h, n);
      t.active == s.active && t.parked == s.parked && t.directories == s.directories
      && t.materialized == s.materialized && t.operation == s.operation
    decreases |s.pending| - n
  {
    if n == |s.pending| {
    } else if Below(k, d, s.pending[n]) {
      var u := Resolve(k, s, s.pending[n], Failed, h, false).(pending := RemoveAt(s.pending, n));
      FailUnderRest(k, u, d, h, n);
    } else {
      FailUnderRest(k, s, d, h, n + 1);
    }
  }

  /** Calls that do not concern active items. */
  predicate Aside(op: Op) {
    || op.DoAppend? || op.DoReorder? || op.DoRemove? || op.DoUnpark? || op.DoResolveParked? || op.DoRestore?
    || op.DoBeginRetry? || op.DoRetryFailed? || op.DoFailUnder? || op.DoMaterialize?
  }

  lemma AsideKeepsActive(k: Keys, s: Plan, op: Op)
    requires Aside(op)
    ensures Apply(k, s, op).active == s.active
  {
    hide Wrap, Find, Append, Remove, FailUnder;
    if op.DoRemove? {
      RemoveRest(k, s, op.ids);
    } else if op.DoFailUnder? {
      FailUnderRest(k, s, op.directory, op.hresult, 0);
    } else if op.DoAppend? {
      AppendRest(k, op.now, s, op.plan, op.allowDrained);
    }
  }

  /** Directories are only ever appended, and only marking marks them. */
  lemma DirectoriesGrow(k: Keys, s: Plan, op: Op)
    ensures s.directories <= Apply(k, s, op).directories && Apply(k, s, op).operation == s.operation
    ensures !op.DoMaterialize? ==> Apply(k, s, op).materialized == s.materialized
  {
    hide Remove, FailUnder, Append, Apply;
    match op {
      case DoRemove(ids) => BulkRest(k, s, op);
      case DoFailUnder(_, _) => BulkRest(k, s, op);
      case DoAppend(_, _, _) => BulkRest(k, s, op);
      case DoResolvePending(_, _, _, _) => SettleRest(k, s, op);
      case DoResolveActive(_, _, _, _) => SettleRest(k, s, op);
      case DoResolveParked(_, _, _, _) => SettleRest(k, s, op);
      case _ => SingleRest(k, s, op);
    }
  }

  lemma BulkRest(k: Keys, s: Plan, op: Op)
    requires op.DoRemove? || op.DoFailUnder? || op.DoAppend?
    ensures var t := Apply(k, s, op);
      s.directories <= t.directories && t.operation == s.operation && t.materialized == s.materialized
  {
    hide Remove, FailUnder, Append;
    if op.DoRemove? {
      RemoveRest(k, s, op.ids);
    } else if op.DoFailUnder? {
      FailUnderRest(k, s, op.directory, op.hresult, 0);
    } else {
      AppendRest(k, op.now, s, op.plan, op.allowDrained);
    }
  }

  lemma SingleRest(k: Keys, s: Plan, op: Op)
    requires !op.DoRemove? && !op.DoFailUnder? && !op.DoAppend?
    requires !op.DoResolvePending? && !op.DoResolveActive? && !op.DoResolveParked?
    ensures var t := Apply(k, s, op);
      t.directories == s.directories && t.operation == s.operation && (!op.DoMaterialize? ==> t.materialized == s.materialized)
  {
    hide Wrap, Find, FirstFree, CanRestore, RemoveAt;
  }

  lemma SettleRest(k: Keys, s: Plan, op: Op)
    requires op.DoResolvePending? || op.DoResolveActive? || op.DoResolveParked?
    ensures var t := Apply(k, s, op);
      t.directories == s.directories && t.operation == s.operation && t.materialized == s.materialized
  {
    hide Wrap, Find;
  }

  lemma RemoveRest(k: Keys, s: Plan, ids: set<nat>)
    ensures var t := Remove(k, s, ids);
      && t.active == s.active && t.parked == s.parked && t.directories == s.directories
      && t.materialized == s.materialized && t.operation == s.operation
  {
    DropAllRest(Discounted(k, s, Selected(s.pending, ids)), Selected(s.pending, ids));
  }

  lemma AppendRest(k: Keys, now: Path -> Key, s: Plan, p: CopyPlan, allow: bool)
    ensures var t := Append(k, now, s, p, allow).0;
      && t.active == s.active && t.parked == s.parked && s.directories <= t.directories
      && t.materialized == s.materialized && t.operation == s.operation
  {
    AppendedShape(k, now, s, p, allow);
  }

  /** No call but unparking, settling or restoring changes which items are parked. */
  lemma ParkedStays(k: Keys, s: Plan, op: Op, id: nat)
    requires !op.DoUnpark? && !op.DoResolveParked? && AwaitsRemoval(s, id)
    ensures AwaitsRemoval(Apply(k, s, op), id)
  {
    hide Apply, AwaitsRemoval;
    ParkedGrows(k, s, op);
    UpdateStaysParked(s, Apply(k, s, op), id);
  }

  lemma PursuitStays(k: Keys, s: Plan, op: Op, todo: seq<Recovery>)
    requires Pursuing(s, todo) && !op.DoUnpark? && !op.DoResolveParked?
    ensures Pursuing(Apply(k, s, op), todo)
  {
    hide Apply, AwaitsRemoval;
    forall r | r in todo
      ensures AwaitsRemoval(Apply(k, s, op), r.fileId)
    {
      ParkedStays(k, s, op, r.fileId);
    }
  }

  /** Settling one parked item leaves the others parked. */
  lemma SettlingSpares(k: Keys, s: Plan, id: nat, o: ItemOutcome, h: int, pre: bool, other: nat)
    requires IdsSound(s) && AwaitsRemoval(s, other) && other != id
    ensures AwaitsRemoval(ResolveParked(k, s, id, o, h, pre), other)
  {
    hide AwaitsRemoval, IdsSound;
    var i := Find(ParkedFiles(s.parked), id);
    if i < |s.parked| { RemovalStaysParked(s, ResolveParked(k, s, id, o, h, pre), other, i); }
  }

  lemma AwaitedIsParked(s: Plan, id: nat)
    requires IdsSound(s) && AwaitsRemoval(s, id)
    ensures ParkedFor(s, id, RetrySourceRemoval) && HasId(ParkedFiles(s.parked), id)
  {
    FlightIds(s);
    var p :| p in s.parked && p.file.id == id && p.incident.action == RetrySourceRemoval;
    var j :| 0 <= j < |s.parked| && s.parked[j] == p;
    var i := Find(ParkedFiles(s.parked), id);
    assert ParkedFiles(s.parked)[j].id == id;
    ParkedOnce(s, i, j);
  }

  lemma {:induction false} RemovalIds(parked: seq<ParkedFile>)
    requires forall i, j :: 0 <= i < j < |parked| ==> parked[i].file.id != parked[j].file.id
    requires forall p :: p in parked ==> p.incident.fileId == p.file.id && (p.recovery.Some? ==> p.incident.action == RetrySourceRemoval)
    ensures DistinctBy(Removals(parked), FileIdOf)
    ensures forall r :: r in Removals(parked) ==>
      exists p :: p in parked && p.file.id == r.fileId && p.incident.action == RetrySourceRemoval
  {
    if parked != [] {
      var p, rest := parked[0], parked[1..];
      RemovalIds(rest);
      if p.recovery.Some? {
        var r := Removals(parked)[0];
        forall x | x in Removals(rest)
          ensures FileIdOf(r) != FileIdOf(x)
        {
          var q :| q in rest && q.file.id == x.fileId && q.incident.action == RetrySourceRemoval;
          var j :| 0 <= j < |rest| && rest[j] == q;
          assert parked[0].file.id != parked[j + 1].file.id;
        }
        DistinctAppend([r], Removals(rest), FileIdOf);
        assert p in parked;
      }
      assert forall q :: q in rest ==> q in parked;
    }
  }

  lemma ListedAwait(k: Keys, s: Plan)
    requires Inv(k, s)
    ensures Pursuing(s, Removals(s.parked))
  {
    FlightIds(s);
    forall i, j | 0 <= i < j < |s.parked|
      ensures s.parked[i].file.id != s.parked[j].file.id
    {
      ParkedOnce(s, i, j);
    }
    RemovalIds(s.parked);
  }

  // ---- every step keeps the invariant ----

  lemma WorkerKeeps(k: Keys, m: Machine, i: nat, x: Event)
    requires Sound(k, m) && m.phase.Working? && i < |m.workers|
    requires WorkerStep(k, m.plan, m.control, m.options, m.workers[i], x).Some?
    ensures Sound(k, Committed(k, m, i, WorkerStep(k, m.plan, m.control, m.options, m.workers[i], x).value))
  {
    hide Inv, WorkerStep, Apply, Held, WellPlaced, Owned, Balanced, AwaitsRemoval;
    var w, s := m.workers[i], m.plan;
    var e := WorkerStep(k, s, m.control, m.options, w, x).value;
    var t := Committed(k, m, i, e);
    ActiveDistinct(k, s);
    OwnedMember(m, i);
    assert WellPlaced(w) by { PlacedMember(m, i); }
    WorkerBalanced(k, s, m.control, m.options, w, x);
    assert Owned(t) by { StillOwned(k, m, i, e); }
    if e.op.Some? {
      StepKeeps(k, s, e.op.value);
      DirectoriesGrow(k, s, e.op.value);
      WorkerOps(k, s, m.control, m.options, w, x);
    }
  }

  lemma PlacedMember(m: Machine, i: nat)
    requires Owned(m) && i < |m.workers|
    ensures WellPlaced(m.workers[i])
  {
    hide WellPlaced;
  }

  lemma Rebalanced(active: multiset<File>, was: multiset<File>, held: multiset<File>, before: multiset<File>,
                   given: multiset<File>, taken: multiset<File>, lost: multiset<File>, dropped: multiset<File>)
    requires was == before + lost
    requires active + given == was + taken + dropped
    requires held + given == before + taken
    ensures active == held + (lost + dropped)
  {
    forall f: File
      ensures active[f] == (held + (lost + dropped))[f]
    {
      assert (active + given)[f] == (was + taken + dropped)[f];
      assert (held + given)[f] == (before + taken)[f];
    }
  }

  lemma StillOwned(k: Keys, m: Machine, i: nat, e: Effect)
    requires Owned(m) && m.phase.Working? && i < |m.workers| && WellPlaced(e.worker)
    requires Balanced(m.plan, if e.op.Some? then Apply(k, m.plan, e.op.value) else m.plan, m.workers[i], e)
    ensures Owned(Committed(k, m, i, e))
  {
    hide Apply, Held, WellPlaced, Dropped;
    HeldUpdate(m.workers, i, e.worker);
    var t := Committed(k, m, i, e);
    forall w | w in t.workers
      ensures WellPlaced(w)
    {
      assert w in m.workers || w == e.worker;
    }
    LostGrows(k, m, i, e);
    Rebalanced(multiset(t.plan.active), multiset(m.plan.active), multiset(HeldAll(t.workers)), multiset(HeldAll(m.workers)),
               multiset(Held(m.workers[i])), multiset(Held(e.worker)), multiset(m.lost), multiset(Dropped(e)));
  }

  lemma LostGrows(k: Keys, m: Machine, i: nat, e: Effect)
    requires i < |m.workers|
    ensures multiset(Committed(k, m, i, e).lost) == multiset(m.lost) + multiset(Dropped(e))
  {
    hide Apply;
  }

  /** Workers call only about items they hold, or to acquire one. */
  lemma WorkerOps(k: Keys, s: Plan, c: Control, o: Options, w: Worker, x: Event)
    requires WorkerStep(k, s, c, o, w, x).Some? && WorkerStep(k, s, c, o, w, x).value.op.Some?
    ensures !Aside(WorkerStep(k, s, c, o, w, x).value.op.value)
  {
    hide Redirect;
  }

  lemma OutsideKeeps(k: Keys, m: Machine, op: Op)
    requires Sound(k, m) && Outside(m, op) && Allowed(m.plan, op)
    ensures Sound(k, m.(plan := Apply(k, m.plan, op)))
  {
    hide Inv, Apply;
    StepKeeps(k, m.plan, op);
    AsideKeepsActive(k, m.plan, op);
    DirectoriesGrow(k, m.plan, op);
    if !op.DoUnpark? && !op.DoResolveParked? { PursuitStays(k, m.plan, op, Todo(m.phase)); }
  }

  lemma GateKeeps(k: Keys, m: Machine, next: Phase)
    requires Sound(k, m) && !m.phase.Working? && !next.Working?
    requires Todo(next) == Todo(m.phase) || Todo(next) == []
    requires Left(next) == Left(m.phase) && Through(next) == Through(m.phase)
    requires next.Creating? || next.Condemning? ==> Left(next) != []
    ensures Sound(k, Gate(m, next))
  {
    hide Sound;
    FinishKeeps(k, m, Stopped);
    FinishKeeps(k, m, Cancelled);
    OnwardKeeps(k, m, next);
  }

  lemma FinishKeeps(k: Keys, m: Machine, r: JobResult)
    requires Sound(k, m) && !m.phase.Working?
    ensures Sound(k, m.(phase := Finished(r)))
  {
    hide Sound;
    PlainKeeps(k, m, Finished(r));
  }

  lemma OnwardKeeps(k: Keys, m: Machine, next: Phase)
    requires Sound(k, m) && !m.phase.Working? && !next.Working?
    requires Todo(next) == Todo(m.phase) || Todo(next) == []
    requires Left(next) == Left(m.phase) && Through(next) == Through(m.phase)
    requires next.Creating? || next.Condemning? ==> Left(next) != []
    ensures Sound(k, m.(phase := next))
  {
    hide Inv, AwaitsRemoval, Todo, Left, Through, AllEnded;
  }

  /** Moving to a phase with no pursuit and no batch. */
  lemma PlainKeeps(k: Keys, m: Machine, next: Phase)
    requires Sound(k, m) && !m.phase.Working? && !next.Working?
    requires Todo(next) == [] && Left(next) == [] && Through(next) == 0 && !next.Creating? && !next.Condemning?
    ensures Sound(k, m.(phase := next))
  {
    hide Inv, BatchSound, Pursuing, Todo, Left, Through, HeldAll, AllEnded;
    JoinedKeeps(k, m, next);
  }

  /** A phase outside the batch asks nothing of it. */
  lemma PlainBatch(m: Machine, next: Phase)
    requires BatchSound(m) && Left(next) == [] && Through(next) == 0 && !next.Creating? && !next.Condemning?
    ensures BatchSound(m.(phase := next))
  {
  }

  /** A call aside from active items, with the pursuit and batch that follow it. */
  lemma AsideKeeps(k: Keys, m: Machine, op: Op, next: Phase, tried: nat)
    requires Sound(k, m) && Aside(op) && Allowed(m.plan, op) && !m.phase.Working? && !next.Working?
    requires Pursuing(Apply(k, m.plan, op), Todo(next))
    requires BatchSound(m.(plan := Apply(k, m.plan, op), phase := next, tried := tried))
    ensures Sound(k, m.(plan := Apply(k, m.plan, op), phase := next, tried := tried))
  {
    hide Inv, Apply, Pursuing, BatchSound;
    StepKeeps(k, m.plan, op);
    AsideKeepsActive(k, m.plan, op);
  }

  lemma Fewer(s: Plan, r: Recovery, rest: seq<Recovery>)
    requires Pursuing(s, [r] + rest)
    ensures Pursuing(s, rest) && AwaitsRemoval(s, r.fileId) && forall x :: x in rest ==> x.fileId != r.fileId
  {
    hide AwaitsRemoval;
    var all := [r] + rest;
    assert r in all;
    forall i, j | 0 <= i < j < |rest|
      ensures FileIdOf(rest[i]) != FileIdOf(rest[j])
    {
      assert FileIdOf(all[i + 1]) != FileIdOf(all[j + 1]);
    }
    forall x | x in rest
      ensures x in all && x.fileId != r.fileId
    {
      var j :| 0 <= j < |rest| && rest[j] == x;
      assert all[j + 1] == x && FileIdOf(all[0]) != FileIdOf(all[j + 1]);
    }
  }

  lemma ConcludingKeeps(k: Keys, m: Machine)
    requires Sound(k, m) && m.phase.Concluding?
    ensures Sound(k, RetryStep(k, m, Proceed)) && !RetryStep(k, m, Proceed).phase.Finished?
  {
    hide Inv, AwaitsRemoval, IdsSound, Pursuing, Owned;
    var r, rest := m.phase.r, m.phase.rest;
    var op := DoResolveParked(r.fileId, m.phase.outcome, m.phase.hresult, r.preexisted);
    ActiveDistinct(k, m.plan);
    Fewer(m.plan, r, rest);
    AwaitedIsParked(m.plan, r.fileId);
    var t := Apply(k, m.plan, op);
    assert Pursuing(t, rest) by { ConcludedPursuit(k, m.plan, op, rest); }
    DirectoriesGrow(k, m.plan, op);
    assert Pursuing(t, []) by { NothingPursued(t); }
    hide Apply;
    AsideKeeps(k, m, op, Pursue(rest), m.tried);
  }

  lemma NothingPursued(t: Plan)
    ensures Pursuing(t, [])
  {
  }

  lemma ConcludedPursuit(k: Keys, s: Plan, op: Op, rest: seq<Recovery>)
    requires IdsSound(s) && Pursuing(s, rest) && op.DoResolveParked? && forall x :: x in rest ==> x.fileId != op.id
    ensures Pursuing(Apply(k, s, op), rest)
  {
    hide AwaitsRemoval, IdsSound;
    forall x | x in rest
      ensures AwaitsRemoval(Apply(k, s, op), x.fileId)
    {
      SettlingSpares(k, s, op.id, op.outcome, op.hresult, op.preexisted, x.fileId);
    }
  }

  lemma PursueKeeps(k: Keys, m: Machine, rest: seq<Recovery>)
    requires Sound(k, m) && !m.phase.Working? && Pursuing(m.plan, rest) && Left(m.phase) == [] && Through(m.phase) == 0
    ensures Sound(k, m.(phase := Pursue(rest)))
  {
    hide Inv, AwaitsRemoval;
  }

  /** Neither the removals the executor made nor its options matter to the invariant. */
  lemma ForgetKeeps(k: Keys, m: Machine, deleted: set<nat>, options: Options, error: Option<SessionError>)
    requires Sound(k, m)
    ensures Sound(k, m.(deleted := deleted, options := options, error := error))
  {
    hide Inv, AwaitsRemoval;
  }

  lemma RetryKeeps(k: Keys, m: Machine, e: MainEvent)
    requires Sound(k, m) && !m.phase.Working?
    ensures Sound(k, RetryStep(k, m, e))
    ensures RetryStep(k, m, e).phase != Finished(Broken(InvalidPlanState)) || RetryStep(k, m, e) == m
  {
    hide Sound, Apply, Pursuing, AwaitsRemoval, Removals, Gate;
    if m.phase.Listing? {
      SoundParts(k, m);
      ListedAwait(k, m.plan);
      PursueKeeps(k, m, Removals(m.plan.parked));
    } else if m.phase.Retrying? {
      var todo := m.phase.todo;
      if todo == [] {
        PlainKeeps(k, m, Batching);
      } else {
        assert [todo[0]] + todo[1..] == todo;
        GateKeeps(k, m, Judging(todo[0], todo[1..]));
        GateFinishes(m, Judging(todo[0], todo[1..]));
      }
    } else if m.phase.Concluding? {
      ConcludingKeeps(k, m);
    } else if m.phase.Judging? || m.phase.Beginning? || m.phase.Rechecking? || m.phase.Deleting? || m.phase.Excusing? {
      AttemptKeeps(k, m, e);
    }
  }

  lemma SoundParts(k: Keys, m: Machine)
    requires Sound(k, m)
    ensures Inv(k, m.plan) && Owned(m) && Pursuing(m.plan, Todo(m.phase)) && BatchSound(m)
  {
    hide Inv, Owned, Pursuing, BatchSound;
  }

  lemma GateFinishes(m: Machine, next: Phase)
    requires m.phase != Finished(Broken(InvalidPlanState)) && next != Finished(Broken(InvalidPlanState))
    ensures Gate(m, next).phase != Finished(Broken(InvalidPlanState))
  {
  }

  /** One parked removal, from its verdict to its outcome. */
  lemma AttemptKeeps(k: Keys, m: Machine, e: MainEvent)
    requires Sound(k, m)
    requires m.phase.Judging? || m.phase.Beginning? || m.phase.Rechecking? || m.phase.Deleting? || m.phase.Excusing?
    ensures Sound(k, RetryStep(k, m, e)) && RetryStep(k, m, e).phase != Finished(Broken(InvalidPlanState))
  {
    hide Sound, Pursuing, AwaitsRemoval, RetryStep, ParkedFor;
    var r, rest := m.phase.r, m.phase.rest;
    SoundParts(k, m);
    ActiveDistinct(k, m.plan);
    Fewer(m.plan, r, rest);
    AwaitedIsParked(m.plan, r.fileId);
    if m.phase.Judging? {
      JudgedKeeps(k, m, e);
    } else if m.phase.Rechecking? {
      RecheckedKeeps(k, m, e);
    } else if m.phase.Deleting? {
      DeletedKeeps(k, m, e);
    } else {
      CallKeeps(k, m, e);
    }
  }

  lemma JudgedKeeps(k: Keys, m: Machine, e: MainEvent)
    requires Sound(k, m) && m.phase.Judging? && Pursuing(m.plan, m.phase.rest)
    ensures Sound(k, RetryStep(k, m, e)) && RetryStep(k, m, e).phase != Finished(Broken(InvalidPlanState))
  {
    hide Sound, Pursuing;
    var r, rest := m.phase.r, m.phase.rest;
    PursueKeeps(k, m, rest);
    OnwardKeeps(k, m, Concluding(r, rest, CopiedSourceRetained, r.hresult));
    OnwardKeeps(k, m, Concluding(r, rest, Succeeded, 0));
    OnwardKeeps(k, m, Beginning(r, rest));
  }

  lemma RecheckedKeeps(k: Keys, m: Machine, e: MainEvent)
    requires Sound(k, m) && m.phase.Rechecking?
    ensures Sound(k, RetryStep(k, m, e)) && RetryStep(k, m, e).phase != Finished(Broken(InvalidPlanState))
  {
    hide Sound, Gate;
    GateKeeps(k, m, Deleting(m.phase.r, m.phase.rest));
    GateFinishes(m, Deleting(m.phase.r, m.phase.rest));
  }

  lemma DeletedKeeps(k: Keys, m: Machine, e: MainEvent)
    requires Sound(k, m) && m.phase.Deleting?
    ensures Sound(k, RetryStep(k, m, e)) && RetryStep(k, m, e).phase != Finished(Broken(InvalidPlanState))
  {
    hide Sound;
    var r, rest := m.phase.r, m.phase.rest;
    var t := m.(phase := Concluding(r, rest, Succeeded, 0));
    OnwardKeeps(k, m, t.phase);
    ForgetKeeps(k, t, m.deleted + {r.fileId}, t.options, t.error);
    if e.Clear? && e.removal.Kept? { OnwardKeeps(k, m, Excusing(r, rest, e.removal.code)); }
  }

  lemma CallKeeps(k: Keys, m: Machine, e: MainEvent)
    requires Sound(k, m) && (m.phase.Beginning? || m.phase.Excusing?)
    requires ParkedFor(m.plan, m.phase.r.fileId, RetrySourceRemoval)
    requires HasId(ParkedFiles(m.plan.parked), m.phase.r.fileId) && Pursuing(m.plan, m.phase.rest)
    ensures Sound(k, RetryStep(k, m, e)) && RetryStep(k, m, e).phase != Finished(Broken(InvalidPlanState))
  {
    hide Sound, Apply, Pursuing, ParkedFor, BatchSound, HasId, Pursue;
    var r, rest := m.phase.r, m.phase.rest;
    if m.phase.Beginning? {
      assert Pursuing(m.plan, [r] + rest) by { SoundParts(k, m); }
      ParkedCallKeeps(k, m, DoBeginRetry(r.fileId, RetrySourceRemoval), Rechecking(r, rest));
    } else {
      PursueForm(rest);
      ParkedCallKeeps(k, m, DoRetryFailed(r.fileId, m.phase.code), Pursue(rest));
    }
  }

  lemma PursueForm(rest: seq<Recovery>)
    ensures var p := Pursue(rest);
      Todo(p) == rest && Left(p) == [] && Through(p) == 0 && (p.Batching? || p.Retrying?)
  {
  }

  lemma ParkedCallKeeps(k: Keys, m: Machine, op: Op, next: Phase)
    requires Sound(k, m) && !m.phase.Working? && !next.Working? && (op.DoBeginRetry? || op.DoRetryFailed?)
    requires Pursuing(m.plan, Todo(next))
    requires Left(next) == [] && Through(next) == 0 && !next.Creating? && !next.Condemning?
    ensures Sound(k, m.(plan := Apply(k, m.plan, op), phase := next))
  {
    hide Sound, Apply, Pursuing, BatchSound;
    SoundParts(k, m);
    PursuitStays(k, m.plan, op, Todo(next));
    BatchStays(k, m, op, next);
    AsideKeeps(k, m, op, next, m.tried);
  }

  /** Outside a batch, calls that mark nothing leave the batch invariant alone. */
  lemma BatchStays(k: Keys, m: Machine, op: Op, next: Phase)
    requires BatchSound(m) && !op.DoMaterialize?
    requires Left(next) == [] && Through(next) == 0 && !next.Creating? && !next.Condemning?
    ensures BatchSound(m.(plan := Apply(k, m.plan, op), phase := next))
  {
    hide Apply;
    DirectoriesGrow(k, m.plan, op);
  }

  lemma BatchKeeps(k: Keys, m: Machine, e: MainEvent)
    requires Sound(k, m) && (m.phase.Batching? || m.phase.Preparing? || m.phase.Creating? || m.phase.Condemning? || m.phase.Marking?)
    ensures Sound(k, BatchStep(k, m, e)) && BatchStep(k, m, e).phase != Finished(Broken(InvalidPlanState))
  {
    hide Sound, BatchStep;
    if m.phase.Condemning? {
      CondemnedKeeps(k, m, e);
    } else if m.phase.Marking? {
      MarkedKeeps(k, m, e);
    } else if m.phase.Preparing? && m.phase.dirs != [] {
      PreparedKeeps(k, m, e);
    } else {
      BatchMoves(k, m, e);
    }
  }

  lemma PreparedKeeps(k: Keys, m: Machine, e: MainEvent)
    requires Sound(k, m) && m.phase.Preparing? && m.phase.dirs != []
    ensures Sound(k, BatchStep(k, m, e)) && BatchStep(k, m, e).phase != Finished(Broken(InvalidPlanState))
  {
    hide Sound, Gate;
    GateKeeps(k, m, Creating(m.phase.dirs, m.phase.through));
    GateFinishes(m, Creating(m.phase.dirs, m.phase.through));
  }

  lemma BatchMoves(k: Keys, m: Machine, e: MainEvent)
    requires Sound(k, m) && (m.phase.Batching? || m.phase.Preparing? || m.phase.Creating?)
    requires m.phase.Preparing? ==> m.phase.dirs == []
    ensures Sound(k, BatchStep(k, m, e)) && BatchStep(k, m, e).phase != Finished(Broken(InvalidPlanState))
  {
    hide Inv, Pursuing, Owned, Sound, BatchSound;
    NothingPursued(m.plan);
    SoundParts(k, m);
    var t := BatchStep(k, m, e);
    assert t == m.(phase := t.phase, tried := t.tried);
    PhaseOwned(m, t.phase, t.tried);
    if m.phase.Creating? { CreatedSound(k, m, e); } else { BatchOpens(k, m, e); }
    Assembled(k, t);
  }

  lemma Assembled(k: Keys, m: Machine)
    requires Inv(k, m.plan) && Owned(m) && Pursuing(m.plan, Todo(m.phase)) && BatchSound(m)
    ensures Sound(k, m)
  {
    hide Inv, Owned, Pursuing, BatchSound;
  }

  lemma BatchOpens(k: Keys, m: Machine, e: MainEvent)
    requires BatchSound(m) && (m.phase.Batching? || (m.phase.Preparing? && m.phase.dirs == []))
    ensures BatchSound(BatchStep(k, m, e))
  {
    hide Apply, Gate;
    var all := m.plan.directories;
    if m.phase.Batching? {
      var from := Min(m.plan.materialized, |all|);
      assert BatchStep(k, m, e) == m.(phase := Preparing(all[from..], |all|));
      Suffix(all, from);
    } else {
      assert BatchStep(k, m, e) == m.(phase := Marking(m.phase.through));
    }
    hide BatchStep;
  }

  lemma Suffix(all: seq<Directory>, from: nat)
    requires from <= |all|
    ensures |all[from..]| == |all| - from && all[from..] == all[|all| - |all[from..]|..|all|]
  {
  }

  lemma CreatedSound(k: Keys, m: Machine, e: MainEvent)
    requires BatchSound(m) && m.phase.Creating?
    ensures BatchSound(BatchStep(k, m, e))
  {
    hide Apply;
    FirstTried(m.plan.directories, m.phase.dirs, m.phase.through);
  }

  lemma FirstTried(all: seq<Directory>, left: seq<Directory>, through: nat)
    requires |left| <= through <= |all| && left != [] && left == all[through - |left|..through]
    ensures left[1..] == all[through - |left| + 1..through]
  {
  }

  lemma CondemnedKeeps(k: Keys, m: Machine, e: MainEvent)
    requires Sound(k, m) && m.phase.Condemning?
    ensures Sound(k, BatchStep(k, m, e)) && BatchStep(k, m, e).phase != Finished(Broken(InvalidPlanState))
  {
    hide Inv, Apply, Pursuing, Owned;
    var op := DoFailUnder(m.phase.dirs[0].destination, m.phase.code);
    var tried := Max(m.tried, Monus(m.phase.through + 1, |m.phase.dirs|));
    var next := Preparing(m.phase.dirs[1..], m.phase.through);
    NothingPursued(Apply(k, m.plan, op));
    DirectoriesGrow(k, m.plan, op);
    var t := m.(plan := Apply(k, m.plan, op), phase := next, tried := tried);
    assert BatchSound(t);
    hide BatchSound, Sound;
    AsideKeeps(k, m, op, next, tried);
  }

  lemma MarkedKeeps(k: Keys, m: Machine, e: MainEvent)
    requires Sound(k, m) && m.phase.Marking?
    ensures Sound(k, BatchStep(k, m, e)) && BatchStep(k, m, e).phase != Finished(Broken(InvalidPlanState))
  {
    hide Inv, Apply, Pursuing, Owned;
    var op := DoMaterialize(m.phase.through);
    NothingPursued(Apply(k, m.plan, op));
    MarkedUpTo(k, m.plan, m.phase.through);
    var t := m.(plan := Apply(k, m.plan, op), phase := Checking, tried := m.tried);
    assert BatchSound(t);
    hide BatchSound, Sound;
    AsideKeeps(k, m, op, Checking, m.tried);
  }

  lemma MarkedUpTo(k: Keys, s: Plan, through: nat)
    ensures Apply(k, s, DoMaterialize(through)).materialized <= Max(s.materialized, through)
    ensures Apply(k, s, DoMaterialize(through)).directories == s.directories
  {
  }

  lemma PhaseOwned(m: Machine, next: Phase, tried: nat)
    requires Owned(m) && !m.phase.Working?
    ensures Owned(m.(phase := next, tried := tried))
  {
  }

  lemma HiredKeeps(k: Keys, m: Machine, n: nat)
    requires Sound(k, m) && m.phase.Counting?
    ensures Sound(k, m.(phase := Working, workers := seq(n, _ => Ready)))
  {
    hide Inv, Pursuing, Owned, BatchSound;
    SoundParts(k, m);
    var t := m.(phase := Working, workers := seq(n, _ => Ready));
    HiredOwned(m, n);
    NothingPursued(m.plan);
    PlainBatch(m, Working);
    SameBatch(m.(phase := Working), t);
    Assembled(k, t);
  }

  lemma HiredOwned(m: Machine, n: nat)
    requires Owned(m) && !m.phase.Working?
    ensures Owned(m.(phase := Working, workers := seq(n, _ => Ready)))
  {
    JoinedLeavesNothing(m);
    NothingHeld(seq(n, _ => Ready));
  }

  lemma SameBatch(m: Machine, t: Machine)
    requires BatchSound(m) && t.phase == m.phase && t.plan == m.plan && t.tried == m.tried
    ensures BatchSound(t)
  {
  }

  lemma MergedKeeps(k: Keys, m: Machine)
    requires Sound(k, m) && m.phase.Working? && AllEnded(m.workers) && m.error != Some(InvalidPlanState)
    ensures Sound(k, Merged(m)) && Merged(m).phase != Finished(Broken(InvalidPlanState))
  {
    hide Inv, Pursuing, Owned, BatchSound, Merged, AllEnded, Sound, Todo, Left, Through;
    MergedPhase(m);
    JoinedKeeps(k, m, Merged(m).phase);
  }

  lemma JoinedKeeps(k: Keys, m: Machine, p: Phase)
    requires Sound(k, m) && AllEnded(m.workers) && !p.Working? && !p.Creating? && !p.Condemning?
    requires Todo(p) == [] && Left(p) == [] && Through(p) == 0
    ensures Sound(k, m.(phase := p))
  {
    hide Inv, Pursuing, Owned, BatchSound, AllEnded, Sound, Todo, Left, Through;
    SoundParts(k, m);
    NothingPursued(m.plan);
    RestsOwned(m, p);
    PlainBatch(m, p);
    Assembled(k, m.(phase := p));
  }

  lemma MergedPhase(m: Machine)
    requires m.error != Some(InvalidPlanState)
    ensures var p := Merged(m).phase;
      && Merged(m) == m.(phase := p) && !p.Working? && !p.Creating? && !p.Condemning?
      && Todo(p) == [] && Left(p) == [] && Through(p) == 0 && p != Finished(Broken(InvalidPlanState))
  {
  }

  /** Joined workers stay joined, whatever the pass goes on to. */
  lemma RestsOwned(m: Machine, p: Phase)
    requires Owned(m) && AllEnded(m.workers) && !p.Working?
    ensures Owned(m.(phase := p))
  {
    hide WellPlaced, HeldAll, AllEnded;
  }

  lemma MainKeeps(k: Keys, m: Machine, e: MainEvent)
    requires Sound(k, m) && m.error != Some(InvalidPlanState)
    ensures Sound(k, MainStep(k, m, e))
    ensures MainStep(k, m, e).phase != Finished(Broken(InvalidPlanState)) || m.phase == Finished(Broken(InvalidPlanState))
  {
    hide Sound, RetryStep, BatchStep, Merged, Gate, AllEnded;
    var p := m.phase;
    if p.Batching? || p.Preparing? || p.Creating? || p.Condemning? || p.Marking? {
      BatchKeeps(k, m, e);
    } else if p.Working? {
      if AllEnded(m.workers) { MergedKeeps(k, m); }
    } else if p.Counting? {
      PlainKeeps(k, m, Sweeping);
      if e.Hire? { HiredKeeps(k, m, e.count); }
    } else if p.Idle? || p.Finished? {
      if e.Begin? {
        PlainKeeps(k, m, Opening(e.retry));
        ForgetKeeps(k, m.(phase := Opening(e.retry)), m.deleted, e.options, None);
      }
    } else if p.Opening? || p.Checking? || p.Sweeping? || p.Surveying? || p.Cleaning? || p.Cleaned? {
      StageKeeps(k, m, e);
    } else {
      RetryKeeps(k, m, e);
    }
  }

  lemma StageKeeps(k: Keys, m: Machine, e: MainEvent)
    requires Sound(k, m)
    requires m.phase.Opening? || m.phase.Checking? || m.phase.Sweeping? || m.phase.Surveying? || m.phase.Cleaning? || m.phase.Cleaned?
    ensures Sound(k, MainStep(k, m, e)) && MainStep(k, m, e).phase != Finished(Broken(InvalidPlanState))
  {
    hide Sound, RetryStep, BatchStep, Merged, Gate;
    var p := m.phase;
    if p.Surveying? {
      PlainKeeps(k, m, Cleaning);
      FinishKeeps(k, m, Success);
    } else if p.Cleaning? {
      if e.Clean? { PlainKeeps(k, m, Cleaned(e.code)); }
    } else {
      var next := match p
        case Opening(retry) => if retry then Listing else Batching
        case Checking => Counting
        case Sweeping => Surveying
        case Cleaned(code) => Finished(if code == 0 then Success else Broken(Native(code)))
        case _ => Idle;
      GateKeeps(k, m, next);
      GateFinishes(m, next);
    }
  }

  // ---- no call ever misses its item ----

  predicate Trusting(w: Worker) {
    match w
    case Alarming(error, _) => error != Some(InvalidPlanState)
    case Calling(_, _, next, _) => !next.Alarming? || next.error != Some(InvalidPlanState)
    case _ => true
  }

  /** Nobody has found, or is about to report, that the plan lost track of an item. */
  ghost predicate Trusted(m: Machine) {
    && m.error != Some(InvalidPlanState) && m.phase != Finished(Broken(InvalidPlanState))
    && forall w :: w in m.workers ==> Trusting(w)
  }

  lemma WorkerTrusts(k: Keys, s: Plan, c: Control, o: Options, w: Worker, x: Event)
    requires DistinctBy(s.active, IdOf) && (forall f :: f in Held(w) ==> f in s.active) && Trusting(w) && WellPlaced(w)
    requires WorkerStep(k, s, c, o, w, x).Some?
    ensures var e := WorkerStep(k, s, c, o, w, x).value; Trusting(e.worker) && e.error != Some(InvalidPlanState)
  {
    hide Redirect, Find, DistinctBy;
    if w.Calling? { FoundActive(s, w.file); }
  }

  lemma StepTrusted(k: Keys, m: Machine, step: Step)
    requires Sound(k, m) && Trusted(m)
    ensures Sound(k, Next(k, m, step)) && Trusted(Next(k, m, step))
  {
    hide Sound, Inv, MainStep, WorkerStep, Apply, Requested, Outside, Allowed, Trusting, Held, WellPlaced;
    SoundParts(k, m);
    match step {
      case ByMain(e) =>
        MainKeeps(k, m, e);
        MainTrusts(k, m, e);
      case ByControl(r) => ControlKeeps(k, m, Requested(m.control, r));
      case Resume => ControlKeeps(k, m, INITIAL);
      case ByOthers(op) =>
        if Outside(m, op) && Allowed(m.plan, op) { OutsideKeeps(k, m, op); }
      case ByWorker(i, x) =>
        if m.phase.Working? && i < |m.workers| && WorkerStep(k, m.plan, m.control, m.options, m.workers[i], x).Some? {
          WorkerKeeps(k, m, i, x);
          ActiveDistinct(k, m.plan);
          OwnedMember(m, i);
          PlacedMember(m, i);
          WorkerTrusts(k, m.plan, m.control, m.options, m.workers[i], x);
          TrustedUpdate(k, m, i, WorkerStep(k, m.plan, m.control, m.options, m.workers[i], x).value);
        }
    }
  }

  lemma TrustedUpdate(k: Keys, m: Machine, i: nat, e: Effect)
    requires Trusted(m) && i < |m.workers| && Trusting(e.worker) && e.error != Some(InvalidPlanState)
    requires m.phase.Working?
    ensures Trusted(Committed(k, m, i, e))
  {
    hide Apply, Trusting;
    forall w | w in Committed(k, m, i, e).workers
      ensures Trusting(w)
    {
      assert w in m.workers || w == e.worker;
    }
  }

  lemma ControlKeeps(k: Keys, m: Machine, c: Control)
    requires Sound(k, m)
    ensures Sound(k, m.(control := c))
  {
    hide Inv, AwaitsRemoval;
  }

  lemma MainTrusts(k: Keys, m: Machine, e: MainEvent)
    requires Trusted(m)
    ensures var t := MainStep(k, m, e);
      && (t.error == m.error || t.error == None) && (forall w :: w in t.workers ==> Trusting(w))
  {
    hide RetryStep, BatchStep;
    RetryTrusts(k, m, e);
    BatchTrusts(k, m, e);
  }

  lemma RetryTrusts(k: Keys, m: Machine, e: MainEvent)
    ensures RetryStep(k, m, e).error == m.error && RetryStep(k, m, e).workers == m.workers
  {
    hide Apply, Removals, HasId, ParkedFor;
  }

  lemma BatchTrusts(k: Keys, m: Machine, e: MainEvent)
    ensures BatchStep(k, m, e).error == m.error && BatchStep(k, m, e).workers == m.workers
  {
    hide Apply;
  }

  /** Over any run of a pass, from a sound machine: the plan's invariant holds, the active
      list is exactly what the workers hold, and no call ever misses its item. */
  lemma {:induction false} OwnershipOverRuns(k: Keys, m: Machine, steps: seq<Step>)
    requires Sound(k, m) && Trusted(m)
    ensures Sound(k, After(k, m, steps)) && Trusted(After(k, m, steps))
    decreases |steps|
  {
    if steps != [] {
      hide Sound, Trusted, Next;
      StepTrusted(k, m, steps[0]);
      OwnershipOverRuns(k, Next(k, m, steps[0]), steps[1..]);
    }
  }

  lemma StartsSound(k: Keys, s: Plan)
    requires Inv(k, s)
    ensures Sound(k, Start(s)) && Trusted(Start(s))
  {
    hide Inv;
    assert s.materialized <= |s.directories| by { MarkedWithin(k, s); }
  }

  lemma MarkedWithin(k: Keys, s: Plan)
    requires Inv(k, s)
    ensures s.materialized <= |s.directories|
  {
  }

  // ---- runs without exceptions lose nothing ----

  predicate Throws(step: Step) { step.ByWorker? && step.event.Throw? }

  lemma NothingLostBy(k: Keys, m: Machine, step: Step)
    requires !Throws(step)
    ensures Next(k, m, step).lost == m.lost
  {
    hide Apply, Redirect, AfterAttempt, Removals, Allowed;
  }

  lemma {:induction false} NothingLost(k: Keys, m: Machine, steps: seq<Step>)
    requires forall step :: step in steps ==> !Throws(step)
    ensures After(k, m, steps).lost == m.lost
    decreases |steps|
  {
    if steps != [] {
      hide Next;
      NothingLostBy(k, m, steps[0]);
      NothingLost(k, Next(k, m, steps[0]), steps[1..]);
    }
  }

  /** From any plan, over any number of passes, stops and resumes: once the workers have joined,
      what is active is what was active before the first pass or exceptions left behind. So
      nothing is, in a run without exceptions from a plan nobody works on, however the run
      interleaved and however its passes ended. */
  lemma NothingActiveAfterJoin(k: Keys, s: Plan, steps: seq<Step>)
    requires Inv(k, s)
    ensures var m := After(k, Start(s), steps);
      && Inv(k, m.plan)
      && multiset(m.plan.active) == multiset(HeldAll(m.workers)) + multiset(m.lost)
      && (!m.phase.Working? ==> multiset(m.plan.active) == multiset(m.lost))
      && ((forall step :: step in steps ==> !Throws(step)) ==>
            m.lost == s.active && (!m.phase.Working? && s.active == [] ==> m.plan.active == []))
      && m.phase != Finished(Broken(InvalidPlanState))
  {
    var m := After(k, Start(s), steps);
    hide Inv, After;
    StartsSound(k, s);
    OwnershipOverRuns(k, Start(s), steps);
    if forall step :: step in steps ==> !Throws(step) { NothingLost(k, Start(s), steps); }
    if !m.phase.Working? { JoinedLeavesNothing(m); }
  }
}
