/** Whole runs of a live plan: the invariant, item lifecycles and visible progress over
    any sequence of operations. */
module PlanRuns {
  import opened Items
  import opened Sequences
  import opened LivePlan
  import opened PlanInvariant
  import opened PlanOperations
  import opened PlanAdmission
  import opened PlanEntry

  datatype Op =
    | DoAppend(now: Path -> Key, plan: CopyPlan, allowDrained: bool)
    | DoReorder(order: seq<File>)
    | DoRemove(ids: set<nat>)
    | DoAcquire
    | DoRelease(id: nat)
    | DoRedirect(id: nat, around: Surroundings)
    | DoRecordBytes(id: nat, bytes: nat)
    | DoPark(id: nat, hresult: int, preexisted: bool, action: RecoveryAction)
    | DoParkRemoval(id: nat, hresult: int, preexisted: bool, sourcePrint: Fingerprint, destinationPrint: Fingerprint)
    | DoRestore(recovery: Recovery)
    | DoUnpark(id: nat)
    | DoBeginRetry(id: nat, action: RecoveryAction)
    | DoRetryFailed(id: nat, hresult: int)
    | DoResolvePending(id: nat, outcome: ItemOutcome, hresult: int, preexisted: bool)
    | DoResolveActive(id: nat, outcome: ItemOutcome, hresult: int, preexisted: bool)
    | DoResolveParked(id: nat, outcome: ItemOutcome, hresult: int, preexisted: bool)
    | DoFailUnder(directory: Path, hresult: int)
    | DoComplete(id: nat)
    | DoSkip(id: nat)
    | DoMaterialize(through: nat)

  function Apply(k: Keys, s: Plan, op: Op): Plan {
    match op
    case DoAppend(now, p, allow) => Append(k, now, s, p, allow).0
    case DoReorder(order) => s.(pending := order)
    case DoRemove(ids) => Remove(k, s, ids)
    case DoAcquire => Acquire(s)
    case DoRelease(id) => Release(s, id)
    case DoRedirect(id, w) => Redirect(k, s, id, w).0
    case DoRecordBytes(id, n) => RecordBytes(s, id, n)
    case DoPark(id, h, pre, a) => Park(s, id, h, pre, a)
    case DoParkRemoval(id, h, pre, a, b) => ParkRemoval(s, id, h, pre, a, b)
    case DoRestore(r) => Restore(k, s, r)
    case DoUnpark(id) => Unpark(s, id)
    case DoBeginRetry(id, a) => BeginRetry(s, id, a)
    case DoRetryFailed(id, h) => RetryFailed(s, id, h)
    case DoResolvePending(id, o, h, pre) => ResolvePending(k, s, id, o, h, pre)
    case DoResolveActive(id, o, h, pre) => ResolveActive(k, s, id, o, h, pre)
    case DoResolveParked(id, o, h, pre) => ResolveParked(k, s, id, o, h, pre)
    case DoFailUnder(d, h) => FailUnder(k, s, d, h, 0)
    case DoComplete(id) => Complete(s, id)
    case DoSkip(id) => Skip(k, s, id)
    case DoMaterialize(n) => MarkMaterialized(s, n)
  }

  /** Every call is allowed at any time. Reorderings permute the queue; an appended plan
      declares its bytes and fits 64 bits; archived attempt numbers fit 32 bits. */
  ghost predicate Allowed(s: Plan, op: Op) {
    match op
    case DoAppend(_, p, _) => Declared(p) && s.counters.total + Incoming(p) <= MAX64
    case DoReorder(order) => multiset(order) == multiset(s.pending)
    case DoRestore(r) => r.attempts <= MAX32
    case _ => true
  }

  function Run(k: Keys, s: Plan, ops: seq<Op>): Plan
    decreases |ops|
  {
    if ops == [] then s else Run(k, Apply(k, s, ops[0]), ops[1..])
  }

  ghost predicate AllowedRun(k: Keys, s: Plan, ops: seq<Op>)
    decreases |ops|
  {
    ops != [] ==> Allowed(s, ops[0]) && AllowedRun(k, Apply(k, s, ops[0]), ops[1..])
  }

  // ---- the invariant, group by group ----

  lemma EntryKeeps(k: Keys, s: Plan, op: Op)
    requires Inv(k, s) && Allowed(s, op) && (op.DoAppend? || op.DoReorder? || op.DoRemove? || op.DoRestore? || op.DoSkip?)
    ensures Inv(k, Apply(k, s, op))
  {
    hide Inv, Append, Remove, Restore, Skip, Declared, Incoming, Selected, WeightOf, SizeOf, MarkOf;
    match op {
      case DoAppend(now, p, allow) => AppendKeepsIff(k, now, s, p, allow);
      case DoReorder(order) => ReorderKeeps(k, s, order);
      case DoRemove(ids) => RemoveKeeps(k, s, ids);
      case DoRestore(r) => RestoreKeeps(k, s, r);
      case DoSkip(id) => SkipKeeps(k, s, id);
    }
  }

  lemma WorkKeeps(k: Keys, s: Plan, op: Op)
    requires Inv(k, s)
    requires op.DoAcquire? || op.DoRelease? || op.DoRedirect? || op.DoRecordBytes? || op.DoMaterialize?
    ensures Inv(k, Apply(k, s, op))
  {
    hide Inv, Acquire, Release, Redirect, RecordBytes, MarkMaterialized;
    match op {
      case DoAcquire => AcquireKeeps(k, s);
      case DoRelease(id) => ReleaseKeeps(k, s, id);
      case DoRedirect(id, w) => RedirectKeeps(k, s, id, w);
      case DoRecordBytes(id, n) => RecordBytesKeeps(k, s, id, n);
      case DoMaterialize(n) => MarkMaterializedKeeps(k, s, n);
    }
  }

  lemma ParkingKeeps(k: Keys, s: Plan, op: Op)
    requires Inv(k, s)
    requires op.DoPark? || op.DoParkRemoval? || op.DoUnpark? || op.DoBeginRetry? || op.DoRetryFailed?
    ensures Inv(k, Apply(k, s, op))
  {
    hide Inv, Park, ParkRemoval, Unpark, BeginRetry, RetryFailed;
    match op {
      case DoPark(id, h, pre, a) => ParkKeeps(k, s, id, h, pre, a);
      case DoParkRemoval(id, h, pre, a, b) => ParkRemovalKeeps(k, s, id, h, pre, a, b);
      case DoUnpark(id) => UnparkKeeps(k, s, id);
      case DoBeginRetry(id, a) => BeginRetryKeeps(k, s, id, a);
      case DoRetryFailed(id, h) => RetryFailedKeeps(k, s, id, h);
    }
  }

  lemma SettlingKeeps(k: Keys, s: Plan, op: Op)
    requires Inv(k, s)
    requires op.DoResolvePending? || op.DoResolveActive? || op.DoResolveParked? || op.DoFailUnder? || op.DoComplete?
    ensures Inv(k, Apply(k, s, op))
  {
    hide Inv, ResolvePending, ResolveActive, ResolveParked, FailUnder, Complete;
    match op {
      case DoResolvePending(id, o, h, pre) => ResolveQueuedKeeps(k, s, id, o, h, pre);
      case DoResolveActive(id, o, h, pre) => ResolveActiveKeeps(k, s, id, o, h, pre);
      case DoResolveParked(id, o, h, pre) => ResolveParkedKeeps(k, s, id, o, h, pre);
      case DoFailUnder(d, h) => FailUnderKeeps(k, s, d, h, 0);
      case DoComplete(id) => CompleteKeeps(k, s, id);
    }
  }

  lemma StepKeeps(k: Keys, s: Plan, op: Op)
    requires Inv(k, s) && Allowed(s, op)
    ensures Inv(k, Apply(k, s, op))
  {
    hide Inv, Apply, Allowed;
    if op.DoAppend? || op.DoReorder? || op.DoRemove? || op.DoRestore? || op.DoSkip? {
      EntryKeeps(k, s, op);
    } else if op.DoAcquire? || op.DoRelease? || op.DoRedirect? || op.DoRecordBytes? || op.DoMaterialize? {
      WorkKeeps(k, s, op);
    } else if op.DoPark? || op.DoParkRemoval? || op.DoUnpark? || op.DoBeginRetry? || op.DoRetryFailed? {
      ParkingKeeps(k, s, op);
    } else {
      SettlingKeeps(k, s, op);
    }
  }

  /** Conservation of ids, keys, weights, bytes, marks, attempts and outcomes in every
      state reachable by any sequence of operations. */
  lemma {:induction false} RunKeeps(k: Keys, s: Plan, ops: seq<Op>)
    requires Inv(k, s) && AllowedRun(k, s, ops)
    ensures Inv(k, Run(k, s, ops))
    decreases |ops|
  {
    hide Inv, Apply;
    if ops != [] {
      StepKeeps(k, s, ops[0]);
      RunKeeps(k, Apply(k, s, ops[0]), ops[1..]);
    }
  }

  // ---- lifecycles ----

  datatype Ids = Ids(pending: set<nat>, active: set<nat>, parked: set<nat>, terminal: set<nat>)

  function IdsOf(s: Plan): Ids {
    Ids(IdSet(s.pending), IdSet(s.active), IdSet(ParkedFiles(s.parked)), IdSet(Settled(s.done)))
  }

  function StateOf(i: Ids, id: nat): Option<ItemState> {
    if id in i.pending then Some(Pending)
    else if id in i.active then Some(Active)
    else if id in i.parked then Some(Parked)
    else if id in i.terminal then Some(Terminal)
    else None
  }

  predicate Apart(i: Ids) {
    && i.pending !! i.active && i.pending !! i.parked && i.pending !! i.terminal
    && i.active !! i.parked && i.active !! i.terminal && i.parked !! i.terminal
  }

  lemma MembersDiffer(xs: seq<File>, ys: seq<File>)
    requires DistinctBy(xs + ys, IdOf)
    ensures IdSet(xs) !! IdSet(ys)
  {
    forall x, y | x in xs && y in ys
      ensures x.id != y.id
    {
      var i :| 0 <= i < |xs| && xs[i] == x;
      var j :| 0 <= j < |ys| && ys[j] == y;
      assert IdOf((xs + ys)[i]) != IdOf((xs + ys)[|xs| + j]);
    }
  }

  /** No item is in two states. */
  lemma StatesApart(s: Plan)
    requires IdsSound(s)
    ensures Apart(IdsOf(s))
    ensures DistinctBy(s.pending, IdOf) && DistinctBy(s.active, IdOf) && DistinctBy(ParkedFiles(s.parked), IdOf)
  {
    var p, a, q, d := s.pending, s.active, ParkedFiles(s.parked), Settled(s.done);
    assert All(s) == p + a + q + d;
    DistinctSubset(All(s), p + a, IdOf);
    DistinctSubset(All(s), p + q, IdOf);
    DistinctSubset(All(s), p + d, IdOf);
    DistinctSubset(All(s), a + q, IdOf);
    DistinctSubset(All(s), a + d, IdOf);
    DistinctSubset(All(s), q + d, IdOf);
    DistinctSubset(All(s), p, IdOf);
    DistinctSubset(All(s), a, IdOf);
    DistinctSubset(All(s), q, IdOf);
    MembersDiffer(p, a);
    MembersDiffer(p, q);
    MembersDiffer(p, d);
    MembersDiffer(a, q);
    MembersDiffer(a, d);
    MembersDiffer(q, d);
  }

  lemma IdSetWithout(xs: seq<File>, i: nat)
    requires DistinctBy(xs, IdOf) && i < |xs|
    ensures IdSet(RemoveAt(xs, i)) == IdSet(xs) - {xs[i].id}
    ensures xs[i].id in IdSet(xs)
  {
    OneLess(xs, RemoveAt(xs, i), xs[i], IdOf);
    assert forall x: File :: IdOf(x) == x.id;
  }

  lemma IdSetSnoc(xs: seq<File>, f: File)
    ensures IdSet(xs + [f]) == IdSet(xs) + {f.id} && IdSet([f] + xs) == IdSet(xs) + {f.id}
  {
  }

  lemma SettledIds(done: seq<Done>, d: Done)
    requires !d.scanned
    ensures IdSet(Settled(done + [d])) == IdSet(Settled(done)) + {d.file.id}
  {
    DoneSnoc(done, d);
    IdSetSnoc(Settled(done), d.file);
  }

  /** What an operation may do to one item: the contract's transitions, entering through
      append or restore under a new id, or leaving by removal or the older skip. */
  predicate Lawful(s: Plan, op: Op, id: nat, from: Option<ItemState>, to: Option<ItemState>) {
    match (from, to)
    case (None, None) => true
    case (Some(a), Some(b)) => a == b || ValidTransition(a, b)
    case (None, Some(b)) =>
      && s.nextId != 0 && id >= s.nextId
      && ((op.DoAppend? && b == Pending) || (op.DoRestore? && b == Parked))
    case (Some(a), None) => (op.DoRemove? && a == Pending && id in op.ids) || (op.DoSkip? && a == Active && id == op.id)
  }

  ghost predicate LawfulStep(s: Plan, op: Op, i: Ids, j: Ids) {
    forall id :: Lawful(s, op, id, StateOf(i, id), StateOf(j, id))
  }

  /** How one item's id passes from one set to another, the rest unmoved. */
  predicate Passes(i: Ids, j: Ids, id: nat, to: ItemState) {
    var cleared := Ids(i.pending - {id}, i.active - {id}, i.parked - {id}, i.terminal);
    j == match to
      case Pending => cleared.(pending := cleared.pending + {id})
      case Active => cleared.(active := cleared.active + {id})
      case Parked => cleared.(parked := cleared.parked + {id})
      case Terminal => cleared.(terminal := cleared.terminal + {id})
  }

  lemma PassLawful(s: Plan, op: Op, i: Ids, j: Ids, id: nat, from: ItemState, to: ItemState)
    requires Apart(i) && StateOf(i, id) == Some(from) && ValidTransition(from, to) && Passes(i, j, id, to)
    ensures LawfulStep(s, op, i, j)
  {
    forall x
      ensures Lawful(s, op, x, StateOf(i, x), StateOf(j, x))
    {
      if x != id { assert StateOf(j, x) == StateOf(i, x); }
    }
  }

  lemma PassActive(i: Ids, j: Ids, id: nat)
    requires Apart(i) && id in i.pending
    requires j == i.(pending := i.pending - {id}, active := i.active + {id})
    ensures Passes(i, j, id, Active)
  {
  }

  lemma AcquirePasses(s: Plan)
    requires IdsSound(s) && s.pending != []
    ensures Passes(IdsOf(s), IdsOf(Acquire(s)), s.pending[0].id, Active)
    ensures s.pending[0].id in IdsOf(s).pending
  {
    hide IdsSound, Settled;
    StatesApart(s);
    IdSetWithout(s.pending, 0);
    assert RemoveAt(s.pending, 0) == s.pending[1..];
    IdSetSnoc(s.active, s.pending[0]);
    PassActive(IdsOf(s), IdsOf(Acquire(s)), s.pending[0].id);
  }

  lemma ReleasePasses(s: Plan, id: nat)
    requires IdsSound(s) && HasId(s.active, id)
    ensures Passes(IdsOf(s), IdsOf(Release(s, id)), id, Pending)
    ensures id in IdsOf(s).active
  {
    hide IdsSound;
    StatesApart(s);
    IdSetWithout(s.active, Find(s.active, id));
    IdSetSnoc(s.pending, s.active[Find(s.active, id)]);
  }

  lemma ParkPasses(s: Plan, id: nat, t: Plan)
    requires IdsSound(s) && HasId(s.active, id)
    requires t.pending == s.pending && t.active == RemoveAt(s.active, Find(s.active, id)) && t.done == s.done
    requires |t.parked| == |s.parked| + 1 && t.parked[..|s.parked|] == s.parked
    requires Last(t.parked).file == s.active[Find(s.active, id)]
    ensures Passes(IdsOf(s), IdsOf(t), id, Parked)
    ensures id in IdsOf(s).active
  {
    hide IdsSound;
    StatesApart(s);
    IdSetWithout(s.active, Find(s.active, id));
    assert t.parked == s.parked + [Last(t.parked)];
    ParkedFilesSnoc(s.parked, Last(t.parked));
    IdSetSnoc(ParkedFiles(s.parked), Last(t.parked).file);
  }

  lemma UnparkPasses(s: Plan, id: nat)
    requires IdsSound(s) && HasId(ParkedFiles(s.parked), id)
    requires s.parked[Find(ParkedFiles(s.parked), id)].incident.action == RetryTransfer
    ensures Passes(IdsOf(s), IdsOf(Unpark(s, id)), id, Pending)
    ensures id in IdsOf(s).parked
  {
    hide IdsSound;
    StatesApart(s);
    var i := Find(ParkedFiles(s.parked), id);
    IdSetWithout(ParkedFiles(s.parked), i);
    ParkedFilesRemove(s.parked, i);
    IdSetSnoc(s.pending, s.parked[i].file);
  }

  lemma PendingSettles(s: Plan, t: Plan, i: nat, d: Done)
    requires IdsSound(s) && i < |s.pending| && d.file == s.pending[i] && !d.scanned
    requires t.pending == RemoveAt(s.pending, i) && t.active == s.active && t.parked == s.parked
    requires t.done == s.done + [d]
    ensures Passes(IdsOf(s), IdsOf(t), d.file.id, Terminal) && d.file.id in IdsOf(s).pending
  {
    hide IdsSound;
    StatesApart(s);
    SettledIds(s.done, d);
    IdSetWithout(s.pending, i);
  }

  lemma ActiveSettles(s: Plan, t: Plan, i: nat, d: Done)
    requires IdsSound(s) && i < |s.active| && d.file == s.active[i] && !d.scanned
    requires t.pending == s.pending && t.active == RemoveAt(s.active, i) && t.parked == s.parked
    requires t.done == s.done + [d]
    ensures Passes(IdsOf(s), IdsOf(t), d.file.id, Terminal) && d.file.id in IdsOf(s).active
  {
    hide IdsSound;
    StatesApart(s);
    SettledIds(s.done, d);
    IdSetWithout(s.active, i);
  }

  lemma ParkedSettles(s: Plan, t: Plan, i: nat, d: Done)
    requires IdsSound(s) && i < |s.parked| && d.file == s.parked[i].file && !d.scanned
    requires t.pending == s.pending && t.active == s.active && t.parked == RemoveAt(s.parked, i)
    requires t.done == s.done + [d]
    ensures Passes(IdsOf(s), IdsOf(t), d.file.id, Terminal) && d.file.id in IdsOf(s).parked
  {
    hide IdsSound;
    StatesApart(s);
    SettledIds(s.done, d);
    IdSetWithout(ParkedFiles(s.parked), i);
    ParkedFilesRemove(s.parked, i);
  }

  lemma {:induction false} FailUnderIds(k: Keys, s: Plan, directory: Path, hresult: int, n: nat)
    requires Inv(k, s) && n <= |s.pending|
    ensures var t := FailUnder(k, s, directory, hresult, n);
      && t.active == s.active && t.parked == s.parked
      && IdsOf(t).pending <= IdsOf(s).pending
      && IdsOf(t).terminal == IdsOf(s).terminal + (IdsOf(s).pending - IdsOf(t).pending)
    decreases |s.pending| - n
  {
    hide Inv, Settled;
    if n == |s.pending| {
    } else if Below(k, directory, s.pending[n]) {
      var u := Resolve(k, s, s.pending[n], Failed, hresult, false).(pending := RemoveAt(s.pending, n));
      ResolvePendingKeeps(k, s, n, Failed, hresult, false);
      InvIds(k, s);
      PendingSettles(s, u, n, Done(s.pending[n], Failed, hresult, false, false));
      FailUnderIds(k, u, directory, hresult, n);
    } else {
      FailUnderIds(k, s, directory, hresult, n + 1);
    }
  }

  lemma InvIds(k: Keys, s: Plan)
    requires Inv(k, s)
    ensures IdsSound(s) && Apart(IdsOf(s))
    ensures WeightsConserved(s) && KeysExact(k, s)
  {
    hide IdsSound, WeightsConserved, KeysExact;
    StatesApart(s);
  }

  lemma MoveIds(k: Keys, s: Plan, op: Op)
    requires IdsSound(s) && (op.DoAcquire? || op.DoRelease? || op.DoPark? || op.DoParkRemoval? || op.DoUnpark?)
    ensures LawfulStep(s, op, IdsOf(s), IdsOf(Apply(k, s, op)))
  {
    hide IdsSound, IdsOf, LawfulStep;
    StatesApart(s);
    SameLawful(s, op, IdsOf(s));
    var i := IdsOf(s);
    if op.DoAcquire? {
      if s.pending != [] {
        AcquirePasses(s);
        PassLawful(s, op, i, IdsOf(Acquire(s)), s.pending[0].id, Pending, Active);
      }
    } else if op.DoUnpark? {
      var n := Find(ParkedFiles(s.parked), op.id);
      if n < |s.parked| && s.parked[n].incident.action == RetryTransfer {
        UnparkPasses(s, op.id);
        PassLawful(s, op, i, IdsOf(Unpark(s, op.id)), op.id, Parked, Pending);
      }
    } else if HasId(s.active, op.id) {
      if op.DoRelease? {
        ReleasePasses(s, op.id);
        PassLawful(s, op, i, IdsOf(Release(s, op.id)), op.id, Active, Pending);
      } else {
        ParkPasses(s, op.id, Apply(k, s, op));
        PassLawful(s, op, i, IdsOf(Apply(k, s, op)), op.id, Active, Parked);
      }
    }
  }

  lemma SameLawful(s: Plan, op: Op, i: Ids)
    ensures LawfulStep(s, op, i, i)
  {
  }

  lemma SettleIds(k: Keys, s: Plan, op: Op)
    requires IdsSound(s) && (op.DoResolvePending? || op.DoResolveActive? || op.DoResolveParked? || op.DoComplete?)
    ensures LawfulStep(s, op, IdsOf(s), IdsOf(Apply(k, s, op)))
  {
    hide IdsSound, IdsOf, LawfulStep;
    StatesApart(s);
    SameLawful(s, op, IdsOf(s));
    var t := Apply(k, s, op);
    if op.DoResolvePending? {
      if HasId(s.pending, op.id) {
        PendingSettles(s, t, Find(s.pending, op.id), Last(t.done));
        PassLawful(s, op, IdsOf(s), IdsOf(t), op.id, Pending, Terminal);
      }
    } else if op.DoResolveParked? {
      if HasId(ParkedFiles(s.parked), op.id) {
        ParkedSettles(s, t, Find(ParkedFiles(s.parked), op.id), Last(t.done));
        PassLawful(s, op, IdsOf(s), IdsOf(t), op.id, Parked, Terminal);
      }
    } else if HasId(s.active, op.id) {
      ActiveSettles(s, t, Find(s.active, op.id), Last(t.done));
      PassLawful(s, op, IdsOf(s), IdsOf(t), op.id, Active, Terminal);
    }
  }

  lemma AppendIds(k: Keys, s: Plan, op: Op)
    requires IdsSound(s) && op.DoAppend?
    ensures LawfulStep(s, op, IdsOf(s), IdsOf(Apply(k, s, op)))
  {
    StatesApart(s);
    AppendedShape(k, op.now, s, op.plan, op.allowDrained);
    var t := Apply(k, s, op);
    if Append(k, op.now, s, op.plan, op.allowDrained).1 == Appended {
      var r := Screen(k, op.now, op.plan.files, s.reserved);
      AppendedIds(s, op, t, Numbered(r.files, s.nextId));
    } else {
      SameLawful(s, op, IdsOf(s));
    }
  }

  lemma AppendedIds(s: Plan, op: Op, t: Plan, added: seq<File>)
    requires IdsSound(s) && op.DoAppend?
    requires t.pending == s.pending + added && t.active == s.active && t.parked == s.parked
    requires t.done == s.done + ScanDones(op.plan.failures)
    requires forall f :: f in added ==> s.nextId != 0 && f.id >= s.nextId
    ensures LawfulStep(s, op, IdsOf(s), IdsOf(t))
  {
    hide Settled;
    StatesApart(s);
    DoneScans(s.done, op.plan.failures);
    assert IdSet(t.pending) == IdSet(s.pending) + IdSet(added);
    assert forall f :: f in s.active || f in ParkedFiles(s.parked) || f in Settled(s.done) ==> f in All(s);
  }

  lemma RemoveIds(k: Keys, s: Plan, ids: set<nat>)
    requires IdsSound(s) && WeightsConserved(s)
    ensures IdsOf(Remove(k, s, ids)) == IdsOf(s).(pending := IdsOf(s).pending - ids)
  {
    hide IdsSound, WeightsConserved;
    SplitSelected(s.pending, ids);
    assert IdSet(Kept(s.pending, ids)) == IdSet(s.pending) - ids;
    if Selected(s.pending, ids) != [] {
      RemoveMarks(s, ids);
      RemoveForm(k, s, ids);
    } else {
      assert forall f :: f in s.pending ==> f.id !in ids;
    }
  }

  lemma SkipIds(k: Keys, s: Plan, id: nat)
    requires IdsSound(s) && HasId(s.active, id)
    ensures IdsOf(Skip(k, s, id)) == IdsOf(s).(active := IdsOf(s).active - {id})
  {
    hide IdsSound;
    StatesApart(s);
    IdSetWithout(s.active, Find(s.active, id));
  }

  lemma LeaveIds(k: Keys, s: Plan, op: Op)
    requires IdsSound(s) && WeightsConserved(s) && (op.DoRemove? || op.DoSkip?)
    ensures LawfulStep(s, op, IdsOf(s), IdsOf(Apply(k, s, op)))
  {
    hide IdsSound, WeightsConserved, IdsOf, Remove, Skip;
    StatesApart(s);
    if op.DoRemove? {
      RemoveIds(k, s, op.ids);
    } else if HasId(s.active, op.id) {
      SkipIds(k, s, op.id);
    } else {
      SkipMissing(k, s, op.id);
    }
  }

  lemma SkipMissing(k: Keys, s: Plan, id: nat)
    ensures !HasId(s.active, id) ==> Skip(k, s, id) == s
  {
  }

  lemma RestoreSets(k: Keys, s: Plan, op: Op)
    requires IdsSound(s) && op.DoRestore?
    ensures LawfulStep(s, op, IdsOf(s), IdsOf(Apply(k, s, op)))
  {
    if CanRestore(k, s, op.recovery) {
      RestoredSets(k, s, op.recovery);
      NewIdLawful(s, op, IdsOf(s), IdsOf(Restore(k, s, op.recovery)));
    } else {
      SameLawful(s, op, IdsOf(s));
    }
  }

  lemma RestoredSets(k: Keys, s: Plan, r: Recovery)
    requires IdsSound(s) && CanRestore(k, s, r)
    ensures var i := IdsOf(s);
      && IdsOf(Restore(k, s, r)) == i.(parked := i.parked + {s.nextId})
      && s.nextId !in i.pending && s.nextId !in i.active && s.nextId !in i.terminal
  {
    var p := Last(Restore(k, s, r).parked);
    ParkedFilesSnoc(s.parked, p);
    IdSetSnoc(ParkedFiles(s.parked), p.file);
    assert forall f :: f in s.pending || f in s.active || f in Settled(s.done) ==> f in All(s);
  }

  lemma NewIdLawful(s: Plan, op: Op, i: Ids, j: Ids)
    requires op.DoRestore? && s.nextId != 0 && j == i.(parked := i.parked + {s.nextId})
    requires s.nextId !in i.pending && s.nextId !in i.active && s.nextId !in i.terminal
    ensures LawfulStep(s, op, i, j)
  {
  }

  lemma FailUnderSets(k: Keys, s: Plan, op: Op)
    requires Inv(k, s) && op.DoFailUnder?
    ensures LawfulStep(s, op, IdsOf(s), IdsOf(Apply(k, s, op)))
  {
    hide Inv, IdsSound, WeightsConserved, KeysExact, FailUnder;
    InvIds(k, s);
    FailUnderIds(k, s, op.directory, op.hresult, 0);
  }

  lemma RedirectIdsSame(k: Keys, s: Plan, id: nat, w: Surroundings)
    ensures IdsOf(Redirect(k, s, id, w).0) == IdsOf(s)
  {
    var i, t := Find(s.active, id), Redirect(k, s, id, w).0;
    if Redirect(k, s, id, w).1.Some? { SwapMembers(s.active, i, t.active[i]); }
  }

  lemma RetryIdsSame(s: Plan, t: Plan)
    requires t == s.(parked := t.parked, attemptCounts := t.attemptCounts, begun := t.begun)
    requires |t.parked| == |s.parked| && forall i :: 0 <= i < |s.parked| ==> t.parked[i].file == s.parked[i].file
    ensures IdsOf(t) == IdsOf(s)
  {
    assert ParkedFiles(t.parked) == ParkedFiles(s.parked);
  }

  lemma InPlaceIds(k: Keys, s: Plan, op: Op)
    requires Allowed(s, op)
    requires op.DoReorder? || op.DoRedirect? || op.DoRecordBytes? || op.DoBeginRetry? || op.DoRetryFailed? || op.DoMaterialize?
    ensures IdsOf(Apply(k, s, op)) == IdsOf(s)
  {
    hide Redirect, RecordBytes, BeginRetry, RetryFailed, Settled, IdsOf;
    match op {
      case DoReorder(order) => ReorderIdsSame(s, order);
      case DoRedirect(id, w) => RedirectIdsSame(k, s, id, w);
      case DoRecordBytes(id, n) => RecordIdsSame(s, id, n);
      case DoBeginRetry(id, action) => BeginRetryIdsSame(s, id, action);
      case DoRetryFailed(id, h) => RetryFailedIdsSame(s, id, h);
      case DoMaterialize(n) => MarkIdsSame(s, n);
    }
  }

  lemma ReorderIdsSame(s: Plan, order: seq<File>)
    requires multiset(order) == multiset(s.pending)
    ensures IdsOf(s.(pending := order)) == IdsOf(s)
  {
    SameMembers(s.pending, order);
  }

  lemma RecordIdsSame(s: Plan, id: nat, n: nat)
    ensures IdsOf(RecordBytes(s, id, n)) == IdsOf(s)
  {
  }

  lemma MarkIdsSame(s: Plan, n: nat)
    ensures IdsOf(MarkMaterialized(s, n)) == IdsOf(s)
  {
  }

  lemma BeginRetryIdsSame(s: Plan, id: nat, action: RecoveryAction)
    ensures IdsOf(BeginRetry(s, id, action)) == IdsOf(s)
  {
    hide IdsOf;
    RetryIdsSame(s, BeginRetry(s, id, action));
  }

  lemma RetryFailedIdsSame(s: Plan, id: nat, hresult: int)
    ensures IdsOf(RetryFailed(s, id, hresult)) == IdsOf(s)
  {
    hide IdsOf;
    RetryIdsSame(s, RetryFailed(s, id, hresult));
  }

  /** Every step of every item follows the item contract. */
  lemma StepLawful(k: Keys, s: Plan, op: Op)
    requires Inv(k, s) && Allowed(s, op)
    ensures LawfulStep(s, op, IdsOf(s), IdsOf(Apply(k, s, op)))
  {
    hide Inv, IdsSound, WeightsConserved, KeysExact, Apply, LawfulStep, IdsOf;
    InvIds(k, s);
    match op {
      case DoAcquire => MoveIds(k, s, op);
      case DoRelease(_) => MoveIds(k, s, op);
      case DoPark(_, _, _, _) => MoveIds(k, s, op);
      case DoParkRemoval(_, _, _, _, _) => MoveIds(k, s, op);
      case DoUnpark(_) => MoveIds(k, s, op);
      case DoResolvePending(_, _, _, _) => SettleIds(k, s, op);
      case DoResolveActive(_, _, _, _) => SettleIds(k, s, op);
      case DoResolveParked(_, _, _, _) => SettleIds(k, s, op);
      case DoComplete(_) => SettleIds(k, s, op);
      case DoAppend(_, _, _) => AppendIds(k, s, op);
      case DoRemove(_) => LeaveIds(k, s, op);
      case DoSkip(_) => LeaveIds(k, s, op);
      case DoFailUnder(_, _) => FailUnderSets(k, s, op);
      case DoRestore(_) => RestoreSets(k, s, op);
      case _ =>
        InPlaceIds(k, s, op);
        SameLawful(s, op, IdsOf(s));
    }
  }

  /** Steps reach as far as runs: an id once given out and now out of the plan, or terminal,
      stays so for ever, and the log of outcomes only grows. */
  ghost predicate Departed(s: Plan, id: nat) {
    StateOf(IdsOf(s), id) == None && (s.nextId == 0 || id < s.nextId)
  }

  lemma NextIdGrows(k: Keys, s: Plan, op: Op)
    requires IdsSound(s)
    ensures var t := Apply(k, s, op); t.nextId == 0 || (s.nextId != 0 && s.nextId <= t.nextId)
    ensures s.done <= Apply(k, s, op).done
  {
    hide IdsSound, Settled, Remove, FailUnder, Append, Apply;
    match op {
      case DoAppend(_, _, _) => EntryGrows(k, s, op);
      case DoRestore(_) => EntryGrows(k, s, op);
      case DoRemove(_) => BulkGrows(k, s, op);
      case DoFailUnder(_, _) => BulkGrows(k, s, op);
      case _ => OneGrows(k, s, op);
    }
  }

  lemma EntryGrows(k: Keys, s: Plan, op: Op)
    requires IdsSound(s) && (op.DoAppend? || op.DoRestore?)
    ensures var t := Apply(k, s, op); (t.nextId == 0 || (s.nextId != 0 && s.nextId <= t.nextId)) && s.done <= t.done
  {
    hide IdsSound, Append;
    if op.DoAppend? { AppendDone(k, op.now, s, op.plan, op.allowDrained); }
  }

  lemma BulkGrows(k: Keys, s: Plan, op: Op)
    requires op.DoRemove? || op.DoFailUnder?
    ensures var t := Apply(k, s, op); t.nextId == s.nextId && s.done <= t.done
  {
    hide Remove, FailUnder;
    if op.DoRemove? { RemoveDone(k, s, op.ids); } else { FailUnderDone(k, s, op.directory, op.hresult, 0); }
  }

  lemma OneGrows(k: Keys, s: Plan, op: Op)
    requires !op.DoAppend? && !op.DoRestore? && !op.DoRemove? && !op.DoFailUnder?
    ensures var t := Apply(k, s, op); t.nextId == s.nextId && s.done <= t.done
  {
    hide Wrap, Find, FirstFree, RemoveAt, CountOutcome;
    if op.DoResolvePending? || op.DoResolveActive? || op.DoResolveParked? || op.DoComplete? {
      OneSettles(k, s, op);
    } else {
      hide Resolve;
    }
  }

  lemma OneSettles(k: Keys, s: Plan, op: Op)
    requires op.DoResolvePending? || op.DoResolveActive? || op.DoResolveParked? || op.DoComplete?
    ensures var t := Apply(k, s, op); t.nextId == s.nextId && s.done <= t.done
  {
    hide Wrap, Find, RemoveAt, CountOutcome;
  }

  lemma AppendDone(k: Keys, now: Path -> Key, s: Plan, p: CopyPlan, allow: bool)
    ensures var t := Append(k, now, s, p, allow).0;
      (t.nextId == 0 || (s.nextId != 0 && s.nextId <= t.nextId)) && s.done <= t.done
  {
    hide Screen, Wrap;
  }

  lemma {:induction false} DropAllDone(s: Plan, files: seq<File>)
    ensures DropAll(s, files).done == s.done && DropAll(s, files).nextId == s.nextId
    ensures DropAll(s, files).parked == s.parked
    decreases files
  {
    if files != [] { DropAllDone(DropInFlight(s, files[0].id), files[1..]); }
  }

  lemma RemoveDone(k: Keys, s: Plan, ids: set<nat>)
    ensures var t := Remove(k, s, ids); t.done == s.done && t.nextId == s.nextId && t.parked == s.parked
  {
    DropAllDone(Discounted(k, s, Selected(s.pending, ids)), Selected(s.pending, ids));
  }

  lemma {:induction false} FailUnderDone(k: Keys, s: Plan, directory: Path, hresult: int, n: nat)
    requires n <= |s.pending|
    ensures var t := FailUnder(k, s, directory, hresult, n);
      s.done <= t.done && t.nextId == s.nextId && t.parked == s.parked
    decreases |s.pending| - n
  {
    if n == |s.pending| {
    } else if Below(k, directory, s.pending[n]) {
      FailUnderDone(k, Resolve(k, s, s.pending[n], Failed, hresult, false).(pending := RemoveAt(s.pending, n)),
                    directory, hresult, n);
    } else {
      FailUnderDone(k, s, directory, hresult, n + 1);
    }
  }

  lemma SettledByStep(k: Keys, s: Plan, op: Op, id: nat)
    requires Inv(k, s) && Allowed(s, op)
    ensures var t := Apply(k, s, op);
      && s.done <= t.done && (Departed(s, id) ==> Departed(t, id))
      && (StateOf(IdsOf(s), id) == Some(Terminal) ==> StateOf(IdsOf(t), id) == Some(Terminal))
  {
    hide Inv, IdsSound, IdsOf, Apply, WeightsConserved, KeysExact;
    InvIds(k, s);
    StepLawful(k, s, op);
    NextIdGrows(k, s, op);
    assert Lawful(s, op, id, StateOf(IdsOf(s), id), StateOf(IdsOf(Apply(k, s, op)), id));
  }

  lemma {:induction false} SettledForEver(k: Keys, s: Plan, ops: seq<Op>, id: nat)
    requires Inv(k, s) && AllowedRun(k, s, ops)
    ensures s.done <= Run(k, s, ops).done
    ensures Departed(s, id) ==> Departed(Run(k, s, ops), id)
    ensures StateOf(IdsOf(s), id) == Some(Terminal) ==> StateOf(IdsOf(Run(k, s, ops)), id) == Some(Terminal)
    decreases |ops|
  {
    if ops != [] {
      hide Inv, IdsOf, Apply, Departed, StateOf;
      StepKeeps(k, s, ops[0]);
      SettledByStep(k, s, ops[0], id);
      SettledForEver(k, Apply(k, s, ops[0]), ops[1..], id);
    }
  }

  // ---- parked source removals ----

  /** An item parked for source removal: its copy is complete. */
  ghost predicate AwaitsRemoval(s: Plan, id: nat) {
    exists p :: p in s.parked && p.file.id == id && p.incident.action == RetrySourceRemoval
  }

  lemma RemovalStaysParked(s: Plan, t: Plan, id: nat, i: nat)
    requires IdsSound(s) && AwaitsRemoval(s, id) && i < |s.parked| && t.parked == RemoveAt(s.parked, i)
    ensures AwaitsRemoval(t, id) || s.parked[i].file.id == id
  {
    var p :| p in s.parked && p.file.id == id && p.incident.action == RetrySourceRemoval;
    var j :| 0 <= j < |s.parked| && s.parked[j] == p;
    if j != i { assert t.parked[if j < i then j else j - 1] == p; }
  }

  lemma UpdateStaysParked(s: Plan, t: Plan, id: nat)
    requires AwaitsRemoval(s, id) && |s.parked| <= |t.parked|
    requires forall i :: 0 <= i < |s.parked| ==>
      t.parked[i].file == s.parked[i].file && t.parked[i].incident.action == s.parked[i].incident.action
    ensures AwaitsRemoval(t, id)
  {
    var p :| p in s.parked && p.file.id == id && p.incident.action == RetrySourceRemoval;
    var j :| 0 <= j < |s.parked| && s.parked[j] == p;
    assert t.parked[j] in t.parked;
  }

  lemma UnparkSpares(s: Plan, id: nat, other: nat)
    requires IdsSound(s) && AwaitsRemoval(s, id)
    ensures AwaitsRemoval(Unpark(s, other), id)
  {
    var n := Find(ParkedFiles(s.parked), other);
    if n < |s.parked| && s.parked[n].incident.action == RetryTransfer {
      RemovalStaysParked(s, Unpark(s, other), id, n);
      var p :| p in s.parked && p.file.id == id && p.incident.action == RetrySourceRemoval;
      var j :| 0 <= j < |s.parked| && s.parked[j] == p;
      FlightIds(s);
      ParkedOnce(s, n, j);
    }
  }

  /** The calls that can touch parked entries, apart from unparking and settling them,
      append entries or rewrite incidents. */
  lemma ParkedGrows(k: Keys, s: Plan, op: Op)
    requires !op.DoUnpark? && !op.DoResolveParked?
    ensures var t := Apply(k, s, op);
      && |s.parked| <= |t.parked|
      && forall i :: 0 <= i < |s.parked| ==>
        t.parked[i].file == s.parked[i].file && t.parked[i].incident.action == s.parked[i].incident.action
  {
    if op.DoRemove? {
      hide Remove;
      RemoveDone(k, s, op.ids);
    } else if op.DoFailUnder? {
      hide FailUnder;
      FailUnderDone(k, s, op.directory, op.hresult, 0);
    } else if op.DoAppend? {
      AppendedShape(k, op.now, s, op.plan, op.allowDrained);
    }
  }

  /** A finished copy never becomes transfer work again: it waits, or it is settled. */
  lemma RemovalStep(k: Keys, s: Plan, op: Op, id: nat)
    requires Inv(k, s) && Allowed(s, op) && AwaitsRemoval(s, id)
    ensures AwaitsRemoval(Apply(k, s, op), id) || StateOf(IdsOf(Apply(k, s, op)), id) == Some(Terminal)
  {
    hide Inv, IdsSound, WeightsConserved, KeysExact, AwaitsRemoval, Settled;
    InvIds(k, s);
    if op.DoUnpark? {
      UnparkSpares(s, id, op.id);
    } else if op.DoResolveParked? {
      RemovalResolved(k, s, op, id);
    } else {
      hide Apply;
      ParkedGrows(k, s, op);
      UpdateStaysParked(s, Apply(k, s, op), id);
    }
  }

  lemma RemovalResolved(k: Keys, s: Plan, op: Op, id: nat)
    requires Inv(k, s) && op.DoResolveParked? && AwaitsRemoval(s, id)
    ensures AwaitsRemoval(Apply(k, s, op), id) || StateOf(IdsOf(Apply(k, s, op)), id) == Some(Terminal)
  {
    hide Inv, IdsSound, WeightsConserved, KeysExact, AwaitsRemoval, Settled;
    InvIds(k, s);
    var n, t := Find(ParkedFiles(s.parked), op.id), Apply(k, s, op);
    if n < |s.parked| {
      RemovalStaysParked(s, t, id, n);
      ParkedSettles(s, t, n, Last(t.done));
      StepKeeps(k, s, op);
      InvIds(k, t);
    }
  }

  lemma {:induction false} RemovalNeverTransfers(k: Keys, s: Plan, ops: seq<Op>, id: nat)
    requires Inv(k, s) && AllowedRun(k, s, ops) && AwaitsRemoval(s, id)
    ensures var t := Run(k, s, ops); AwaitsRemoval(t, id) || StateOf(IdsOf(t), id) == Some(Terminal)
    decreases |ops|
  {
    if ops != [] {
      hide Inv, IdsOf, Apply, AwaitsRemoval;
      var t := Apply(k, s, ops[0]);
      RemovalStep(k, s, ops[0], id);
      StepKeeps(k, s, ops[0]);
      if AwaitsRemoval(t, id) {
        RemovalNeverTransfers(k, t, ops[1..], id);
      } else {
        SettledForEver(k, t, ops[1..], id);
      }
    }
  }

  // ---- visible progress ----

  lemma SettledGains(k: Keys, s: Plan, t: Plan, d: Done)
    requires Inv(k, s) && Settles(k, s, t, d)
    ensures t.counters.weight >= s.counters.weight
  {
    hide Inv, Settles;
    Retired(k, s, t, d);
    SettledMark(k, s, t, d);
  }

  lemma SettledMark(k: Keys, s: Plan, t: Plan, d: Done)
    requires Inv(k, s) && Settles(k, s, t, d)
    ensures Get(s.highWater, d.file.id, 0) <= Weight(d.file.size)
  {
  }

  lemma {:induction false} FailUnderGains(k: Keys, s: Plan, directory: Path, hresult: int, n: nat)
    requires Inv(k, s) && n <= |s.pending|
    ensures FailUnder(k, s, directory, hresult, n).counters.weight >= s.counters.weight
    decreases |s.pending| - n
  {
    hide Inv, Resolve;
    if n == |s.pending| {
    } else if Below(k, directory, s.pending[n]) {
      PendingGains(k, s, n, Failed, hresult, false);
      ResolvePendingKeeps(k, s, n, Failed, hresult, false);
      var t := Resolve(k, s, s.pending[n], Failed, hresult, false).(pending := RemoveAt(s.pending, n));
      PendingShrinks(k, s, n, hresult);
      FailUnderGains(k, t, directory, hresult, n);
    } else {
      FailUnderGains(k, s, directory, hresult, n + 1);
    }
  }

  lemma PendingShrinks(k: Keys, s: Plan, n: nat, hresult: int)
    requires n < |s.pending|
    ensures n <= |Resolve(k, s, s.pending[n], Failed, hresult, false).(pending := RemoveAt(s.pending, n)).pending|
  {
  }

  lemma PendingGains(k: Keys, s: Plan, n: nat, o: ItemOutcome, hresult: int, pre: bool)
    requires Inv(k, s) && n < |s.pending|
    ensures Resolve(k, s, s.pending[n], o, hresult, pre).(pending := RemoveAt(s.pending, n)).counters.weight
            >= s.counters.weight
  {
    hide Inv;
    var t := Resolve(k, s, s.pending[n], o, hresult, pre).(pending := RemoveAt(s.pending, n));
    var d := Done(s.pending[n], o, hresult, pre, false);
    PendingMember(s, n);
    ResolveSettles(k, s, t, d);
    SettledGains(k, s, t, d);
  }

  lemma RecordGains(k: Keys, s: Plan, id: nat, n: nat)
    requires Inv(k, s)
    ensures RecordBytes(s, id, n).counters.weight >= s.counters.weight
  {
    if HasId(s.active, id) { RecordBytesMarks(s, id, n); }
  }

  lemma AppendGains(k: Keys, now: Path -> Key, s: Plan, p: CopyPlan, allow: bool)
    requires Inv(k, s) && s.counters.total + Incoming(p) <= MAX64
    ensures Append(k, now, s, p, allow).0.counters.weight >= s.counters.weight
  {
    ResolvedAtMostTotal(k, s);
    hide Inv;
    AppendedShape(k, now, s, p, allow);
  }

  lemma SettlingGains(k: Keys, s: Plan, op: Op)
    requires Inv(k, s) && (op.DoResolvePending? || op.DoFailUnder? || op.DoComplete?)
    ensures Apply(k, s, op).counters.weight >= s.counters.weight
  {
    hide Inv, FailUnder, Resolve, Settles, Complete;
    if op.DoResolvePending? {
      if HasId(s.pending, op.id) { PendingGains(k, s, Find(s.pending, op.id), op.outcome, op.hresult, op.preexisted); }
    } else if op.DoFailUnder? {
      FailUnderGains(k, s, op.directory, op.hresult, 0);
    } else if HasId(s.active, op.id) {
      CompleteSettles(k, s, op.id);
      SettledGains(k, s, Complete(s, op.id), Done(s.active[Find(s.active, op.id)], Succeeded, 0, false, false));
    } else {
      CompleteMissing(s, op.id);
    }
  }

  lemma CompleteMissing(s: Plan, id: nat)
    requires !HasId(s.active, id)
    ensures Complete(s, id) == s
  {
  }

  lemma ResolvingGains(k: Keys, s: Plan, op: Op)
    requires Inv(k, s) && (op.DoResolveActive? || op.DoResolveParked?)
    ensures Apply(k, s, op).counters.weight >= s.counters.weight
  {
    hide Inv, Resolve, Settles;
    var t := Apply(k, s, op);
    if op.DoResolveActive? {
      if HasId(s.active, op.id) {
        ResolveActiveSettles(k, s, op.id, op.outcome, op.hresult, op.preexisted);
        SettledGains(k, s, t, Done(s.active[Find(s.active, op.id)], op.outcome, op.hresult, op.preexisted, false));
      }
    } else if HasId(ParkedFiles(s.parked), op.id) {
      var f := s.parked[Find(ParkedFiles(s.parked), op.id)].file;
      ResolveParkedSettles(k, s, op.id, op.outcome, op.hresult, op.preexisted);
      SettledGains(k, s, t, Done(f, op.outcome, op.hresult, op.preexisted, false));
    }
  }

  /** Calls that move items between lists, or restore one as already copied. */
  lemma MovingGains(k: Keys, s: Plan, op: Op)
    requires op.DoReorder? || op.DoAcquire? || op.DoRelease? || op.DoRedirect? || op.DoPark? || op.DoParkRemoval?
      || op.DoRestore? || op.DoUnpark? || op.DoBeginRetry? || op.DoRetryFailed? || op.DoMaterialize?
    ensures Apply(k, s, op).counters.weight >= s.counters.weight
  {
    hide Find, FirstFree, RemoveAt, CanRestore;
  }

  /** Resolved weight never goes back, whether attempts restart, park, retry or are
      released; only removing items from the plan takes weight out. */
  lemma ProgressMonotone(k: Keys, s: Plan, op: Op)
    requires Inv(k, s) && Allowed(s, op) && !op.DoRemove? && !op.DoSkip?
    ensures Apply(k, s, op).counters.weight >= s.counters.weight
  {
    hide Inv, Append, RecordBytes, Apply;
    if op.DoAppend? || op.DoRecordBytes? {
      EntryGains(k, s, op);
    } else if op.DoResolvePending? || op.DoFailUnder? || op.DoComplete? {
      SettlingGains(k, s, op);
    } else if op.DoResolveActive? || op.DoResolveParked? {
      ResolvingGains(k, s, op);
    } else {
      MovingGains(k, s, op);
    }
  }

  lemma EntryGains(k: Keys, s: Plan, op: Op)
    requires Inv(k, s) && Allowed(s, op) && (op.DoAppend? || op.DoRecordBytes?)
    ensures Apply(k, s, op).counters.weight >= s.counters.weight
  {
    hide Inv, Append, RecordBytes;
    if op.DoAppend? {
      AppendGains(k, op.now, s, op.plan, op.allowDrained);
    } else {
      RecordGains(k, s, op.id, op.bytes);
    }
  }

  lemma {:induction false} ProgressOverRuns(k: Keys, s: Plan, ops: seq<Op>)
    requires Inv(k, s) && AllowedRun(k, s, ops)
    requires forall op :: op in ops ==> !op.DoRemove? && !op.DoSkip?
    ensures Run(k, s, ops).counters.weight >= s.counters.weight
    decreases |ops|
  {
    if ops != [] {
      hide Inv, Apply;
      StepKeeps(k, s, ops[0]);
      ProgressMonotone(k, s, ops[0]);
      ProgressOverRuns(k, Apply(k, s, ops[0]), ops[1..]);
    }
  }

  // ---- physical writes bound the marks ----

  function Fresh(files: seq<File>, restored: set<nat>): seq<File> {
    if files == [] then []
    else (if files[0].id in restored then [] else [files[0]]) + Fresh(files[1..], restored)
  }

  function Others(writes: seq<Write>, id: nat): seq<Write> {
    if writes == [] then []
    else (if writes[0].id == id then [] else [writes[0]]) + Others(writes[1..], id)
  }

  lemma {:induction false} SplitWrites(writes: seq<Write>, id: nat, x: nat)
    ensures Sum(writes, BytesOf) == Written(writes, id) + Sum(Others(writes, id), BytesOf)
    ensures x != id ==> Written(Others(writes, id), x) == Written(writes, x)
  {
    if writes != [] {
      var rest := Others(writes[1..], id);
      SplitWrites(writes[1..], id, x);
      SumConcat(if writes[0].id == id then [] else [writes[0]], rest, BytesOf);
      SumConcat(if writes[0].id == id then [] else [writes[0]], rest, BytesTo(x));
    }
  }

  lemma {:induction false} MarksWithinWrites(files: seq<File>, restored: set<nat>, marks: map<nat, nat>, writes: seq<Write>)
    requires DistinctBy(files, IdOf)
    requires forall f :: f in files && f.id !in restored ==> Get(marks, f.id, 0) <= Written(writes, f.id)
    ensures Sum(Fresh(files, restored), MarkOf(marks)) <= Sum(writes, BytesOf)
  {
    if files != [] {
      var f, rest := files[0], files[1..];
      forall i, j | 0 <= i < j < |rest|
        ensures IdOf(rest[i]) != IdOf(rest[j])
      {
        assert IdOf(files[i + 1]) != IdOf(files[j + 1]);
      }
      if f.id in restored {
        MarksWithinWrites(rest, restored, marks, writes);
        assert Fresh(files, restored) == Fresh(rest, restored);
      } else {
        forall g | g in rest && g.id !in restored
          ensures Get(marks, g.id, 0) <= Written(Others(writes, f.id), g.id)
        {
          var j :| 0 <= j < |rest| && rest[j] == g;
          assert IdOf(files[0]) != IdOf(files[j + 1]);
          SplitWrites(writes, f.id, g.id);
        }
        MarksWithinWrites(rest, restored, marks, Others(writes, f.id));
        SplitWrites(writes, f.id, f.id);
        SumConcat([f], Fresh(rest, restored), MarkOf(marks));
      }
    }
  }

  /** The bytes physically written bound the marks of all items not restored from an
      archive; the reported counter is that number of bytes modulo 2^64. */
  lemma PhysicalBoundsMarks(k: Keys, s: Plan)
    requires Inv(k, s)
    ensures Sum(Fresh(InFlight(s), s.restored), MarkOf(s.highWater)) <= Sum(s.writes, BytesOf)
    ensures s.counters.physical == Wrap(Sum(s.writes, BytesOf))
  {
    FlightIds(s);
    MarksWithinWrites(InFlight(s), s.restored, s.highWater, s.writes);
  }
}
