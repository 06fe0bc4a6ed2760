/** Checkpoints: exporting the remaining work and rebuilding the plan from it. */
module Checkpoint {
  import opened Items
  import opened Sequences
  import opened LivePlan
  import opened PlanInvariant
  import opened PlanOperations
  import opened PlanAdmission
  import opened PlanEntry
  import opened PlanRuns
  import opened LiveCopyPlans

  /** Parked items whose transfer is to be retried. */
  function Transfers(parked: seq<ParkedFile>): seq<File> {
    if parked == [] then []
    else (if parked[0].incident.action == RetryTransfer then [parked[0].file] else []) + Transfers(parked[1..])
  }

  /** Active work first, then parked transfers, then the queue. */
  function Remaining(s: Plan): seq<File> { s.active + Transfers(s.parked) + s.pending }

  function Export(s: Plan): CopyPlan {
    var files := Remaining(s);
    CopyPlan(s.directories, Numbered(files, 1), s.roots, s.root, s.operation, Sum(files, SizeOf), Largest(files), [])
  }

  /** Every record is restored, or none of it counts. */
  function RestoreAll(k: Keys, s: Plan, rs: seq<Recovery>): Option<Plan>
    decreases |rs|
  {
    if rs == [] then Some(s)
    else if !CanRestore(k, s, rs[0]) then None
    else RestoreAll(k, Restore(k, s, rs[0]), rs[1..])
  }

  /** The plan a session starts with, given a plan and records that were saved. */
  function Reopened(k: Keys, p: CopyPlan, rs: seq<Recovery>): Option<Plan> {
    match Create(k, p)
    case None => None
    case Some(s) => RestoreAll(k, s, rs)
  }

  // ---- the export loop ----

  /** An export with further files numbered on behind it. */
  function Extended(from: CopyPlan, files: seq<File>, firstId: nat): CopyPlan {
    from.(files := from.files + Numbered(files, firstId), totalBytes := from.totalBytes + Sum(files, SizeOf),
          largest := Max(from.largest, Largest(files)))
  }

  /** Copies files behind an export in order, numbering them on; None on byte overflow. */
  method AppendFiles(files: seq<File>, from: CopyPlan, firstId: nat) returns (r: Option<CopyPlan>, nextId: nat)
    requires firstId == |from.files| + 1 && from.totalBytes <= MAX64
    ensures r.Some? <==> from.totalBytes + Sum(files, SizeOf) <= MAX64
    ensures r.Some? ==> nextId == firstId + |files|
    ensures r.Some? ==> r.value == Extended(from, files, firstId)
  {
    var plan := from;
    nextId := firstId;
    assert from.files + Numbered([], firstId) == from.files;
    for i := 0 to |files|
      invariant nextId == firstId + i && plan.totalBytes <= MAX64
      invariant plan == Extended(from, files[..i], firstId)
    {
      var size := files[i].size;
      assert files[..i + 1] == files[..i] + [files[i]] && files == files[..i + 1] + files[i + 1..];
      SumSnoc(files[..i], files[i], SizeOf);
      SumConcat(files[..i + 1], files[i + 1..], SizeOf);
      LargestSnoc(files[..i], files[i]);
      if MAX64 - plan.totalBytes < size { return None, nextId; }
      assert Numbered(files[..i + 1], firstId) == Numbered(files[..i], firstId) + [files[i].(id := nextId)];
      plan := plan.(files := plan.files + [files[i].(id := nextId)], totalBytes := plan.totalBytes + size,
                    largest := Max(plan.largest, size));
      nextId := nextId + 1;
    }
    assert files[..|files|] == files;
    r := Some(plan);
  }

  method RetriedTransfers(parked: seq<ParkedFile>) returns (files: seq<File>)
    ensures files == Transfers(parked)
  {
    files := [];
    for i := 0 to |parked|
      invariant Transfers(parked) == files + Transfers(parked[i..])
    {
      assert parked[i..][0] == parked[i] && parked[i..][1..] == parked[i + 1..];
      if parked[i].incident.action == RetryTransfer { files := files + [parked[i].file]; }
    }
    assert parked[|parked|..] == [];
  }

  /** The export of a live plan; its byte total cannot overflow. */
  method ExportRemainingPlan(plan: LiveCopyPlan) returns (r: Option<CopyPlan>)
    requires plan.Valid()
    ensures r == Some(Export(plan.Value()))
  {
    RemainingFits(plan.keys, plan.Value());
    hide Inv, Export;
    var start := CopyPlan(plan.directories, [], plan.roots, plan.root, plan.operation, 0, 0, []);
    r := ExportLists(start, plan.active, plan.parked, plan.pending, plan.Value());
  }

  method ExportLists(start: CopyPlan, active: seq<File>, parked: seq<ParkedFile>, pending: seq<File>, ghost s: Plan)
    returns (r: Option<CopyPlan>)
    requires start == CopyPlan(s.directories, [], s.roots, s.root, s.operation, 0, 0, [])
    requires active == s.active && parked == s.parked && pending == s.pending
    requires Sum(Remaining(s), SizeOf) <= MAX64
    ensures r == Some(Export(s))
  {
    ExportParts(s, start);
    hide Remaining, Export;
    var retried := RetriedTransfers(parked);
    var a, n := AppendFiles(active, start, 1);
    var b, m := AppendFiles(retried, a.value, n);
    var c, _ := AppendFiles(pending, b.value, m);
    r := c;
  }

  lemma ExportParts(s: Plan, start: CopyPlan)
    requires start == CopyPlan(s.directories, [], s.roots, s.root, s.operation, 0, 0, [])
    ensures var a := Extended(start, s.active, 1);
      var b := Extended(a, Transfers(s.parked), 1 + |s.active|);
      && |a.files| == |s.active| && |b.files| == |s.active| + |Transfers(s.parked)|
      && a.totalBytes == Sum(s.active, SizeOf) && b.totalBytes == Sum(s.active, SizeOf) + Sum(Transfers(s.parked), SizeOf)
      && b.totalBytes + Sum(s.pending, SizeOf) == Sum(Remaining(s), SizeOf)
      && Extended(b, s.pending, 1 + |s.active| + |Transfers(s.parked)|) == Export(s)
  {
    ThreeParts(s.active, Transfers(s.parked), s.pending);
    assert [] + Numbered(s.active, 1) == Numbered(s.active, 1);
  }

  lemma ThreeParts(a: seq<File>, b: seq<File>, c: seq<File>)
    ensures Sum(a + b + c, SizeOf) == Sum(a, SizeOf) + Sum(b, SizeOf) + Sum(c, SizeOf)
    ensures Largest(a + b + c) == Max(Max(Largest(a), Largest(b)), Largest(c))
    ensures Numbered(a + b + c, 1) == Numbered(a, 1) + Numbered(b, 1 + |a|) + Numbered(c, 1 + |a| + |b|)
  {
    SumConcat(a + b, c, SizeOf);
    SumConcat(a, b, SizeOf);
    LargestConcat(a + b, c);
    LargestConcat(a, b);
  }

  lemma {:induction false} LargestConcat(a: seq<File>, b: seq<File>)
    ensures Largest(a + b) == Max(Largest(a), Largest(b))
  {
    if a == [] {
      assert a + b == b;
    } else {
      assert (a + b)[1..] == a[1..] + b;
      LargestConcat(a[1..], b);
    }
  }

  // ---- the start from a loaded checkpoint ----

  /** Construction, then every record in turn; the first that is refused ends the attempt. */
  method Reopen(k: Keys, p: CopyPlan, rs: seq<Recovery>) returns (r: Option<LiveCopyPlan>)
    requires Identified(p) && Declared(p) && Incoming(p) <= MAX64
    requires forall x :: x in rs ==> x.attempts <= MAX32
    ensures r.Some? <==> Reopened(k, p, rs).Some?
    ensures r.Some? ==> fresh(r.value) && r.value.Valid() && Reopened(k, p, rs) == Some(r.value.Value())
  {
    hide Inv, Create, CanRestore, Restore, Identified, Declared, Incoming, Placeable;
    CreateKeepsIff(k, p);
    var built := LiveCopyPlan.Build(k, p);
    if built.None? { return None; }
    var plan := built.value;
    assert rs[0..] == rs;
    for i := 0 to |rs|
      invariant fresh(plan) && plan.Valid() && plan.keys == k
      invariant RestoreAll(k, plan.Value(), rs[i..]) == Reopened(k, p, rs)
    {
      assert rs[i..][0] == rs[i] && rs[i..][1..] == rs[i + 1..];
      var ok := plan.RestoreParkedSourceRemoval(rs[i]);
      if !ok { return None; }
    }
    assert rs[|rs|..] == [];
    r := Some(plan);
  }

  // ---- every unresolved item is exported or archived as a removal ----

  function Removed(parked: seq<ParkedFile>): seq<File> {
    if parked == [] then []
    else (if parked[0].recovery.Some? then [parked[0].file] else []) + Removed(parked[1..])
  }

  predicate Recoverable(p: ParkedFile) { p.incident.action == RetrySourceRemoval <==> p.recovery.Some? }

  lemma ParkedFilesCons(parked: seq<ParkedFile>)
    requires parked != []
    ensures multiset(ParkedFiles(parked)) == multiset{parked[0].file} + multiset(ParkedFiles(parked[1..]))
  {
    assert ParkedFiles(parked) == [parked[0].file] + ParkedFiles(parked[1..]);
  }

  lemma {:induction false} ParkedSplit(parked: seq<ParkedFile>)
    requires forall p :: p in parked ==> Recoverable(p)
    ensures multiset(Transfers(parked)) + multiset(Removed(parked)) == multiset(ParkedFiles(parked))
  {
    hide ParkedFiles;
    if parked != [] {
      var p := parked[0];
      assert p in parked && Recoverable(p);
      ParkedSplit(parked[1..]);
      ParkedFilesCons(parked);
    } else {
      assert |ParkedFiles(parked)| == 0;
    }
  }

  lemma {:induction false} RemovalCount(parked: seq<ParkedFile>)
    ensures |Removals(parked)| == |Removed(parked)|
  {
    if parked != [] { RemovalCount(parked[1..]); }
  }

  lemma {:induction false} SplitCount(parked: seq<ParkedFile>)
    requires forall p :: p in parked && p.recovery.Some? ==> p.incident.action == RetrySourceRemoval
    ensures |Transfers(parked)| + |Removals(parked)| <= |parked|
    ensures |Transfers(parked)| + |Removals(parked)| == |parked| <==> forall p :: p in parked ==> Recoverable(p)
  {
    if parked != [] {
      assert forall p :: p in parked <==> p == parked[0] || p in parked[1..];
      SplitCount(parked[1..]);
    }
  }

  /** A checkpoint covers every unresolved item exactly when each item parked for source
      removal carries its recovery record; one parked without it would be dropped. */
  lemma CheckpointCoversIff(k: Keys, s: Plan)
    requires Inv(k, s)
    ensures |Export(s).files| + |Removals(s.parked)| == |InFlight(s)| <==> forall p :: p in s.parked ==> Recoverable(p)
  {
    SplitCount(s.parked);
  }

  const ONE := CopyPlan([], [File(1, "s", "d\\a", 1, Some(false))], [], "d", Move, 1, 1, [])

  /** Such an item: the only file of a plan, parked for source removal without a record. The
      plan is sound, and its checkpoint empty. */
  lemma DroppedExample(k: Keys)
    requires k.key("d\\a") != []
    ensures Create(k, ONE).Some?
    ensures var s := Run(k, Create(k, ONE).value, [DoAcquire, DoPark(1, 5, false, RetrySourceRemoval)]);
      Inv(k, s) && |InFlight(s)| == 1 && Export(s).files == [] && Removals(s.parked) == []
  {
    hide Inv, Create, Allowed, Apply, Export, Removals, InFlight;
    OneCreated(k);
    var s := Create(k, ONE).value;
    OneParked(k, s);
    var acquire, park := DoAcquire, DoPark(1, 5, false, RetrySourceRemoval);
    var t := Apply(k, s, acquire);
    assert [acquire, park][1..] == [park] && [park][1..] == [];
    assert AllowedRun(k, Apply(k, t, park), []) && AllowedRun(k, t, [park]) && AllowedRun(k, s, [acquire, park]);
    assert Run(k, Apply(k, t, park), []) == Apply(k, t, park) && Run(k, s, [acquire, park]) == Run(k, t, [park]);
    RunKeeps(k, s, [acquire, park]);
  }

  lemma OneParked(k: Keys, s: Plan)
    requires s.pending == ONE.files && s.active == [] && s.parked == []
    ensures Allowed(s, DoAcquire) && Allowed(Apply(k, s, DoAcquire), DoPark(1, 5, false, RetrySourceRemoval))
    ensures var t := Apply(k, Apply(k, s, DoAcquire), DoPark(1, 5, false, RetrySourceRemoval));
      |InFlight(t)| == 1 && Export(t).files == [] && Removals(t.parked) == []
  {
    var t := Apply(k, s, DoAcquire);
    assert t.active == [ONE.files[0]] && t.pending == [] && t.parked == [];
    assert Find(t.active, 1) == 0 && t.active[0].id == 1;
    var u := Apply(k, t, DoPark(1, 5, false, RetrySourceRemoval));
    assert u.active == [] && u.pending == [] && |u.parked| == 1;
    assert u.parked[1..] == [] && u.parked[0].recovery == None && u.parked[0].incident.action == RetrySourceRemoval;
    assert Removals(u.parked[1..]) == [] && Transfers(u.parked[1..]) == [];
  }

  lemma OneCreated(k: Keys)
    requires k.key("d\\a") != []
    ensures Create(k, ONE).Some? && Inv(k, Create(k, ONE).value)
    ensures var s := Create(k, ONE).value; s.pending == ONE.files && s.active == [] && s.parked == []
  {
    hide Inv;
    assert ONE.files[1..] == [];
    SumOne(ONE.files[0], WeightOf);
    SumOne(ONE.files[0], SizeOf);
    ScreenExact(k, k.key, ONE.files, {});
    CreateKeepsIff(k, ONE);
  }

  lemma RemainingSplit(s: Plan)
    requires forall p :: p in s.parked ==> Recoverable(p)
    ensures multiset(Remaining(s)) + multiset(Removed(s.parked)) == multiset(InFlight(s))
  {
    ParkedSplit(s.parked);
  }

  lemma {:induction false} TransfersWithin(parked: seq<ParkedFile>)
    ensures multiset(Transfers(parked)) <= multiset(ParkedFiles(parked))
  {
    if parked != [] {
      TransfersWithin(parked[1..]);
      assert ParkedFiles(parked) == [parked[0].file] + ParkedFiles(parked[1..]);
    }
  }

  lemma SumWithin(xs: seq<File>, ys: seq<File>, f: File -> nat)
    requires multiset(xs) <= multiset(ys)
    ensures Sum(xs, f) <= Sum(ys, f)
    decreases |xs|
  {
    if xs != [] {
      assert xs == [xs[0]] + xs[1..] && xs[0] in multiset(ys);
      var i :| 0 <= i < |ys| && ys[i] == xs[0];
      SumRemoveAt(ys, i, f);
      SumWithin(xs[1..], RemoveAt(ys, i), f);
    }
  }

  lemma RemainingFits(k: Keys, s: Plan)
    requires Inv(k, s)
    ensures multiset(Remaining(s)) <= multiset(InFlight(s))
    ensures Sum(Remaining(s), SizeOf) <= s.totalBytes <= MAX64
  {
    TransfersWithin(s.parked);
    SumWithin(Remaining(s), InFlight(s), SizeOf);
    Bounded(k, s);
  }

  // ---- what executor runs keep, so that a checkpoint can be restored ----

  ghost predicate Sendable(k: Keys, f: File) {
    f.source != "" && f.destination != "" && k.key(f.destination) != [] && f.sensitive.Some?
  }

  ghost predicate Archivable(k: Keys, p: ParkedFile) {
    && Recoverable(p)
    && p.file.source != "" && p.file.destination != "" && k.key(p.file.destination) != []
    && (p.incident.action == RetryTransfer ==> p.file.sensitive.Some?)
  }

  ghost predicate Exportable(k: Keys, s: Plan) {
    && (forall f :: f in s.pending ==> Sendable(k, f))
    && (forall f :: f in s.active ==> Sendable(k, f))
    && (forall p :: p in s.parked ==> Archivable(k, p))
  }

  /** How the executor and the window use the plan: they append files with real paths, park
      transfers as transfers, and the disk offers only alternatives that have a key. */
  ghost predicate Orderly(k: Keys, op: Op) {
    match op
    case DoAppend(_, p, _) => forall f :: f in p.files ==> f.source != "" && f.destination != ""
    case DoRedirect(_, w) => forall d, n :: w.probe(w.alternate(d, n)) == Free ==>
      w.alternate(d, n) != "" && k.key(w.alternate(d, n)) != []
    case DoPark(_, _, _, action) => action == RetryTransfer
    case _ => true
  }

  lemma Within<T>(xs: seq<T>, i: nat)
    requires i < |xs|
    ensures forall x :: x in RemoveAt(xs, i) ==> x in xs
  {
  }

  lemma {:induction false} FailUnderWithin(k: Keys, s: Plan, directory: Path, hresult: int, n: nat)
    requires n <= |s.pending|
    ensures var t := FailUnder(k, s, directory, hresult, n);
      t.active == s.active && t.parked == s.parked && forall f :: f in t.pending ==> f in s.pending
    decreases |s.pending| - n
  {
    hide Resolve;
    if n == |s.pending| {
    } else if Below(k, directory, s.pending[n]) {
      Within(s.pending, n);
      ResolveLists(k, s, s.pending[n], Failed, hresult);
      FailUnderWithin(k, Resolve(k, s, s.pending[n], Failed, hresult, false).(pending := RemoveAt(s.pending, n)),
                      directory, hresult, n);
    } else {
      FailUnderWithin(k, s, directory, hresult, n + 1);
    }
  }

  lemma ResolveLists(k: Keys, s: Plan, f: File, o: ItemOutcome, hresult: int)
    ensures var t := Resolve(k, s, f, o, hresult, false);
      t.pending == s.pending && t.active == s.active && t.parked == s.parked
  {
  }

  lemma AppendExportable(k: Keys, now: Path -> Key, s: Plan, p: CopyPlan, allow: bool)
    requires Exportable(k, s) && forall f :: f in p.files ==> f.source != "" && f.destination != ""
    ensures Exportable(k, Append(k, now, s, p, allow).0)
  {
    AppendedShape(k, now, s, p, allow);
    if Append(k, now, s, p, allow).1 == Appended {
      var r := Screen(k, now, p.files, s.reserved);
      ScreenAccepts(k, now, p.files, s.reserved);
      var added := Numbered(r.files, s.nextId);
      forall f | f in added
        ensures Sendable(k, f)
      {
        var i :| 0 <= i < |added| && added[i] == f;
        assert r.files[i] in r.files && p.files[i] in p.files;
      }
    }
  }

  lemma RedirectExportable(k: Keys, s: Plan, id: nat, w: Surroundings)
    requires Exportable(k, s) && Orderly(k, DoRedirect(id, w))
    ensures Exportable(k, Redirect(k, s, id, w).0)
  {
    var i := Find(s.active, id);
    var (t, to) := Redirect(k, s, id, w);
    if to.Some? {
      FirstFreeIsAlternate(k, s, w, s.active[i].destination, 2);
      forall f | f in t.active
        ensures Sendable(k, f)
      {
        var j :| 0 <= j < |t.active| && t.active[j] == f;
        assert s.active[j] in s.active;
      }
    }
  }

  lemma {:induction false} FirstFreeIsAlternate(k: Keys, s: Plan, w: Surroundings, d: Path, n: nat)
    requires FirstFree(k, s, w, d, n).Some?
    ensures exists m :: FirstFree(k, s, w, d, n).value == w.alternate(d, m) && w.probe(w.alternate(d, m)) == Free
    decreases LAST_ALTERNATE + 1 - n
  {
    if k.key(w.alternate(d, n)) in s.reserved || w.probe(w.alternate(d, n)) != Free {
      FirstFreeIsAlternate(k, s, w, d, n + 1);
    }
  }

  lemma ParkExportable(k: Keys, s: Plan, t: Plan, i: nat, p: ParkedFile)
    requires Exportable(k, s) && i < |s.active| && p.file == s.active[i] && Recoverable(p)
    requires t.pending == s.pending && t.active == RemoveAt(s.active, i) && t.parked == s.parked + [p]
    ensures Exportable(k, t)
  {
    Within(s.active, i);
    assert s.active[i] in s.active;
  }

  lemma UnparkExportable(k: Keys, s: Plan, t: Plan, i: nat)
    requires Exportable(k, s) && i < |s.parked| && s.parked[i].incident.action == RetryTransfer
    requires t.pending == [s.parked[i].file] + s.pending && t.active == s.active && t.parked == RemoveAt(s.parked, i)
    ensures Exportable(k, t)
  {
    Within(s.parked, i);
    assert s.parked[i] in s.parked;
  }

  lemma RetryExportable(k: Keys, s: Plan, t: Plan)
    requires Exportable(k, s) && t.pending == s.pending && t.active == s.active && |t.parked| == |s.parked|
    requires forall i :: 0 <= i < |s.parked| ==>
      && t.parked[i].file == s.parked[i].file && t.parked[i].recovery == s.parked[i].recovery
      && t.parked[i].incident.action == s.parked[i].incident.action
    ensures Exportable(k, t)
  {
    forall p | p in t.parked
      ensures Archivable(k, p)
    {
      var j :| 0 <= j < |t.parked| && t.parked[j] == p;
      assert s.parked[j] in s.parked;
    }
  }

  lemma RestoreExportable(k: Keys, s: Plan, r: Recovery)
    requires Exportable(k, s)
    ensures Exportable(k, Restore(k, s, r))
  {
  }

  lemma ParkingExportable(k: Keys, s: Plan, op: Op)
    requires Exportable(k, s) && (op.DoPark? || op.DoParkRemoval?) && (op.DoPark? ==> op.action == RetryTransfer)
    ensures Exportable(k, Apply(k, s, op))
  {
    hide Exportable;
    var t := Apply(k, s, op);
    if HasId(s.active, op.id) { ParkExportable(k, s, t, Find(s.active, op.id), t.parked[|s.parked|]); }
  }

  lemma UnparkingExportable(k: Keys, s: Plan, id: nat)
    requires Exportable(k, s)
    ensures Exportable(k, Unpark(s, id))
  {
    hide Exportable;
    var i := Find(ParkedFiles(s.parked), id);
    if i < |s.parked| && s.parked[i].incident.action == RetryTransfer { UnparkExportable(k, s, Unpark(s, id), i); }
  }

  lemma BeginRetryExportable(k: Keys, s: Plan, id: nat, action: RecoveryAction)
    requires Exportable(k, s)
    ensures Exportable(k, BeginRetry(s, id, action))
  {
    hide Exportable, Find;
    RetryExportable(k, s, BeginRetry(s, id, action));
  }

  lemma RetryFailedExportable(k: Keys, s: Plan, id: nat, hresult: int)
    requires Exportable(k, s)
    ensures Exportable(k, RetryFailed(s, id, hresult))
  {
    hide Exportable, Find;
    RetryExportable(k, s, RetryFailed(s, id, hresult));
  }

  lemma SettledExportable(k: Keys, s: Plan, op: Op)
    requires Exportable(k, s)
    requires op.DoResolvePending? || op.DoResolveActive? || op.DoResolveParked? || op.DoComplete? || op.DoSkip?
    ensures Exportable(k, Apply(k, s, op))
  {
    hide Exportable;
    var t := Apply(k, s, op);
    if op.DoResolvePending? {
      if HasId(s.pending, op.id) { Within(s.pending, Find(s.pending, op.id)); }
    } else if op.DoResolveParked? {
      if HasId(ParkedFiles(s.parked), op.id) { Within(s.parked, Find(ParkedFiles(s.parked), op.id)); }
    } else if HasId(s.active, op.id) {
      Within(s.active, Find(s.active, op.id));
    }
    FewerExportable(k, s, t);
  }

  lemma FewerExportable(k: Keys, s: Plan, t: Plan)
    requires Exportable(k, s)
    requires forall f :: f in t.pending ==> f in s.pending || f in s.active
    requires forall f :: f in t.active ==> f in s.active || f in s.pending
    requires forall p :: p in t.parked ==> p in s.parked
    ensures Exportable(k, t)
  {
  }

  /** Every use the executor and the window make of the plan keeps it exportable. */
  lemma ExportableKept(k: Keys, s: Plan, op: Op)
    requires Exportable(k, s) && Allowed(s, op) && Orderly(k, op)
    ensures Exportable(k, Apply(k, s, op))
  {
    hide Exportable, Orderly;
    UseOrderly(k, op);
    if op.DoAppend? {
      AppendExportable(k, op.now, s, op.plan, op.allowDrained);
    } else if op.DoRedirect? {
      RedirectExportable(k, s, op.id, op.around);
    } else if op.DoPark? || op.DoParkRemoval? {
      ParkingExportable(k, s, op);
    } else if op.DoRestore? {
      RestoreExportable(k, s, op.recovery);
    } else if op.DoUnpark? {
      UnparkingExportable(k, s, op.id);
    } else if op.DoBeginRetry? {
      BeginRetryExportable(k, s, op.id, op.action);
    } else if op.DoRetryFailed? {
      RetryFailedExportable(k, s, op.id, op.hresult);
    } else if op.DoResolvePending? || op.DoResolveActive? || op.DoResolveParked? || op.DoComplete? || op.DoSkip? {
      SettledExportable(k, s, op);
    } else {
      OtherExportable(k, s, op);
    }
  }

  lemma UseOrderly(k: Keys, op: Op)
    requires Orderly(k, op)
    ensures op.DoAppend? ==> forall f :: f in op.plan.files ==> f.source != "" && f.destination != ""
    ensures op.DoPark? ==> op.action == RetryTransfer
  {
  }

  lemma OtherExportable(k: Keys, s: Plan, op: Op)
    requires Exportable(k, s) && Allowed(s, op)
    requires op.DoReorder? || op.DoRemove? || op.DoAcquire? || op.DoRelease? || op.DoRecordBytes? || op.DoFailUnder?
      || op.DoMaterialize?
    ensures Exportable(k, Apply(k, s, op))
  {
    hide Exportable;
    if op.DoReorder? {
      SameMembers(op.order, s.pending);
    } else if op.DoRemove? {
      hide Remove;
      RemoveDone(k, s, op.ids);
      RemoveLists(k, s, op.ids);
    } else if op.DoFailUnder? {
      hide FailUnder;
      FailUnderWithin(k, s, op.directory, op.hresult, 0);
    } else if op.DoRelease? {
      var i := Find(s.active, op.id);
      if i < |s.active| { Within(s.active, i); }
    }
    FewerExportable(k, s, Apply(k, s, op));
  }

  lemma {:induction false} DropAllLists(s: Plan, files: seq<File>)
    ensures DropAll(s, files).active == s.active
    decreases files
  {
    if files != [] { DropAllLists(DropInFlight(s, files[0].id), files[1..]); }
  }

  lemma RemoveLists(k: Keys, s: Plan, ids: set<nat>)
    ensures var t := Remove(k, s, ids); t.active == s.active && forall f :: f in t.pending ==> f in s.pending
  {
    SplitSelected(s.pending, ids);
    RemoveShape(k, s, ids);
    hide Remove, Selected, Kept;
    DropAllLists(Discounted(k, s, Selected(s.pending, ids)), Selected(s.pending, ids));
  }

  /** The weights the rebuilt plan will carry. */
  function RestoredWeight(rs: seq<Recovery>): nat {
    if rs == [] then 0 else Weight(rs[0].sourcePrint.size) + RestoredWeight(rs[1..])
  }

  // ---- restoring ----

  ghost predicate Fit(k: Keys, r: Recovery) {
    r.source != "" && r.destination != "" && k.key(r.destination) != [] && 1 <= r.attempts <= MAX32
  }

  function DestinationKey(k: Keys): Recovery -> Key { (r: Recovery) => k.key(r.destination) }

  ghost predicate Restorable(k: Keys, s: Plan, rs: seq<Recovery>) {
    && DistinctBy(rs, DestinationKey(k))
    && (forall r :: r in rs ==> Fit(k, r) && k.key(r.destination) !in s.reserved)
    && s.counters.weight <= s.counters.total && s.counters.total + RestoredWeight(rs) <= MAX64
    && s.totalBytes <= s.counters.total && s.totalFiles <= s.counters.total
    && (rs != [] ==> s.nextId != 0 && s.nextId + |rs| - 1 <= MAX64)
  }

  /** Two archives agree up to the ids of their items. */
  ghost predicate SameButIds(a: seq<Recovery>, b: seq<Recovery>) {
    |a| == |b| && forall i :: 0 <= i < |a| ==> a[i] == b[i].(fileId := a[i].fileId)
  }

  lemma {:induction false} RemovalsSnoc(parked: seq<ParkedFile>, p: ParkedFile)
    requires p.recovery.Some?
    ensures Removals(parked + [p]) == Removals(parked)
      + [p.recovery.value.(fileId := p.incident.fileId, hresult := p.incident.hresult, attempts := p.incident.attempts)]
    ensures Transfers(parked + [p]) == Transfers(parked) + if p.incident.action == RetryTransfer then [p.file] else []
  {
    if parked == [] {
      assert parked + [p] == [p] && [p][1..] == [];
      assert Removals([]) == [] && Transfers([]) == [];
    } else {
      assert (parked + [p])[1..] == parked[1..] + [p];
      RemovalsSnoc(parked[1..], p);
    }
  }

  lemma RestoreOne(k: Keys, s: Plan, rs: seq<Recovery>)
    requires Restorable(k, s, rs) && rs != []
    ensures CanRestore(k, s, rs[0])
    ensures var t := Restore(k, s, rs[0]);
      && Restorable(k, t, rs[1..])
      && t.pending == s.pending && t.active == s.active && t.directories == s.directories && t.roots == s.roots
      && t.root == s.root && t.operation == s.operation
      && |t.parked| == |s.parked| + 1
      && Transfers(t.parked) == Transfers(s.parked)
      && |Removals(t.parked)| == |Removals(s.parked)| + 1
      && (forall i :: 0 <= i < |Removals(s.parked)| ==> Removals(t.parked)[i] == Removals(s.parked)[i])
      && Last(Removals(t.parked)) == rs[0].(fileId := s.nextId)
  {
    var r, t := rs[0], Restore(k, s, rs[0]);
    assert r in rs;
    RemovalsSnoc(s.parked, Last(t.parked));
    forall x | x in rs[1..]
      ensures Fit(k, x) && k.key(x.destination) !in t.reserved
    {
      var j :| 0 <= j < |rs[1..]| && rs[1..][j] == x;
      assert rs[j + 1] in rs;
      assert DestinationKey(k)(rs[0]) != DestinationKey(k)(rs[j + 1]);
    }
    forall i, j | 0 <= i < j < |rs[1..]|
      ensures DestinationKey(k)(rs[1..][i]) != DestinationKey(k)(rs[1..][j])
    {
      assert DestinationKey(k)(rs[i + 1]) != DestinationKey(k)(rs[j + 1]);
    }
  }

  lemma {:induction false} RestoresAll(k: Keys, s: Plan, rs: seq<Recovery>)
    requires Inv(k, s) && Restorable(k, s, rs)
    ensures RestoreAll(k, s, rs).Some?
    ensures var t := RestoreAll(k, s, rs).value;
      && Inv(k, t)
      && t.pending == s.pending && t.active == s.active && t.directories == s.directories && t.roots == s.roots
      && t.root == s.root && t.operation == s.operation
      && |t.parked| == |s.parked| + |rs|
      && Transfers(t.parked) == Transfers(s.parked)
      && |Removals(t.parked)| == |Removals(s.parked)| + |rs|
      && (forall i :: 0 <= i < |Removals(s.parked)| ==> Removals(t.parked)[i] == Removals(s.parked)[i])
      && SameButIds(Removals(t.parked)[|Removals(s.parked)|..], rs)
    decreases |rs|
  {
    hide Inv, Restorable, Transfers, Removals, Restore;
    if rs != [] {
      RestoreOne(k, s, rs);
      var u := Restore(k, s, rs[0]);
      FitsNow(k, s, rs);
      RestoreKeeps(k, s, rs[0]);
      RestoresAll(k, u, rs[1..]);
      var t, n := RestoreAll(k, s, rs).value, |Removals(s.parked)|;
      var got := Removals(t.parked)[n..];
      assert got[0] == Last(Removals(u.parked)) && got[1..] == Removals(t.parked)[n + 1..];
      forall i | 0 <= i < |rs|
        ensures got[i] == rs[i].(fileId := got[i].fileId)
      {
        if i > 0 { assert got[i] == got[1..][i - 1] && rs[i] == rs[1..][i - 1]; }
      }
    }
  }

  /** A record whose destination is taken spoils the restoration. */
  lemma {:induction false} RestoreClash(k: Keys, s: Plan, rs: seq<Recovery>, r: Recovery)
    requires r in rs && k.key(r.destination) in s.reserved
    ensures RestoreAll(k, s, rs) == None
    decreases |rs|
  {
    if CanRestore(k, s, rs[0]) { RestoreClash(k, Restore(k, s, rs[0]), rs[1..], r); }
  }

  lemma {:induction false} RestoresExportable(k: Keys, s: Plan, rs: seq<Recovery>)
    requires Exportable(k, s) && RestoreAll(k, s, rs).Some?
    ensures Exportable(k, RestoreAll(k, s, rs).value)
    decreases |rs|
  {
    hide Exportable, Restore, CanRestore;
    if rs != [] {
      RestoreExportable(k, s, rs[0]);
      RestoresExportable(k, Restore(k, s, rs[0]), rs[1..]);
    }
  }

  lemma FitsNow(k: Keys, s: Plan, rs: seq<Recovery>)
    requires Restorable(k, s, rs) && rs != []
    ensures rs[0].attempts <= MAX32
  {
    assert rs[0] in rs;
  }

  // ---- the round trip ----

  lemma {:induction false} NumberedNext(files: seq<File>, next: nat, at: nat)
    requires 1 <= at == next && at + |files| - 1 <= MAX64
    ensures NextId(Numbered(files, next), at) == IdAfter(next, |files|)
  {
    var xs := Numbered(files, next);
    if files != [] {
      assert xs[1..] == Numbered(files[1..], next + 1);
      if xs[0].id == MAX64 {
        assert xs[1..] == [];
      } else {
        NumberedNext(files[1..], next + 1, next + 1);
      }
    }
  }

  /** The files with the policies their directories have, where none was recorded. */
  function Decided(k: Keys, files: seq<File>): seq<File>
    requires forall f :: f in files ==> WithPolicy(k, f).Some?
  {
    seq(|files|, i requires 0 <= i < |files| => assert files[i] in files; WithPolicy(k, files[i]).value)
  }

  lemma {:induction false} ScreenDecides(k: Keys, now: Path -> Key, files: seq<File>, taken: set<Key>)
    requires Screen(k, now, files, taken).Accepted? && forall f :: f in files ==> WithPolicy(k, f).Some?
    ensures Screen(k, now, files, taken).files == Decided(k, files)
  {
    if files != [] {
      assert files[0] in files;
      ScreenDecides(k, now, files[1..], taken + {k.key(files[0].destination)});
      assert Decided(k, files) == [WithPolicy(k, files[0]).value] + Decided(k, files[1..]);
    }
  }

  /** A plan that describes the work remaining in another one: as its export does, or without
      the policies and the source folders that a queue file does not keep. */
  ghost predicate Describes(k: Keys, p: CopyPlan, s: Plan) {
    var e := Export(s);
    && |p.files| == |e.files|
    && (forall i :: 0 <= i < |p.files| ==> p.files[i] == e.files[i].(sensitive := p.files[i].sensitive))
    && (forall f :: f in p.files ==> WithPolicy(k, f).Some?)
    && |p.directories| == |e.directories|
    && (forall i :: 0 <= i < |p.directories| ==> p.directories[i].destination == e.directories[i].destination)
    && p.(files := e.files, directories := e.directories) == e
  }

  /** The export of a plan rebuilt from that description. */
  function Described(k: Keys, p: CopyPlan): CopyPlan
    requires forall f :: f in p.files ==> WithPolicy(k, f).Some?
  {
    p.(files := Decided(k, p.files))
  }

  lemma RemainingKeys(k: Keys, s: Plan)
    requires Inv(k, s)
    ensures DistinctBy(Remaining(s), KeyOf(k))
  {
    RemainingFits(k, s);
    assert multiset(Remaining(s)) <= multiset(Holders(s));
    DistinctSubset(Holders(s), Remaining(s), KeyOf(k));
  }

  lemma ExportedFiles(k: Keys, s: Plan)
    requires Inv(k, s) && Exportable(k, s)
    ensures var files := Export(s).files;
      && DistinctBy(files, IdOf) && DistinctBy(files, KeyOf(k)) && KeysOf(k, files) == KeysOf(k, Remaining(s))
      && Sum(files, WeightOf) == Sum(Remaining(s), WeightOf) && Sum(files, SizeOf) == Sum(Remaining(s), SizeOf)
      && (forall f :: f in files ==> Sendable(k, f) && 1 <= f.id <= |files|)
  {
    var fs, files := Remaining(s), Export(s).files;
    RemainingKeys(k, s);
    hide Inv;
    NumberedLike(k, fs, 1);
    TransfersSendable(k, s.parked);
    forall f | f in files
      ensures Sendable(k, f)
    {
      var i :| 0 <= i < |files| && files[i] == f;
      assert fs[i] in fs && Sendable(k, fs[i]);
    }
  }

  lemma {:induction false} TransfersSendable(k: Keys, parked: seq<ParkedFile>)
    requires forall p :: p in parked ==> Archivable(k, p)
    ensures forall f :: f in Transfers(parked) ==> Sendable(k, f)
  {
    if parked != [] {
      assert parked[0] in parked;
      TransfersSendable(k, parked[1..]);
    }
  }

  lemma {:induction false} RemovalsFit(k: Keys, parked: seq<ParkedFile>)
    requires forall p :: p in parked ==> Archivable(k, p) && 1 <= p.incident.attempts <= MAX32
    requires forall p :: p in parked && p.recovery.Some? ==>
      p.recovery.value.source == p.file.source && p.recovery.value.destination == p.file.destination
    ensures var rs, fs := Removals(parked), Removed(parked);
      && |rs| == |fs|
      && forall i :: 0 <= i < |rs| ==> Fit(k, rs[i]) && rs[i].destination == fs[i].destination
  {
    if parked != [] {
      assert parked[0] in parked;
      RemovalsFit(k, parked[1..]);
    }
  }

  lemma RemovalsUsable(k: Keys, s: Plan)
    requires Inv(k, s) && Exportable(k, s)
    ensures var rs, fs := Removals(s.parked), Removed(s.parked);
      && |rs| == |fs|
      && forall i :: 0 <= i < |rs| ==> Fit(k, rs[i]) && rs[i].destination == fs[i].destination
  {
    forall p | p in s.parked
      ensures 1 <= p.incident.attempts <= MAX32
    {
      var i :| 0 <= i < |s.parked| && s.parked[i] == p;
      ParkedMember(s, i);
    }
    RemovalsFit(k, s.parked);
  }

  lemma UnresolvedKeys(k: Keys, s: Plan)
    requires Inv(k, s) && Exportable(k, s)
    ensures DistinctBy(Remaining(s) + Removed(s.parked), KeyOf(k))
  {
    RemainingSplit(s);
    var all := Remaining(s) + Removed(s.parked);
    assert multiset(all) == multiset(InFlight(s));
    assert multiset(all) <= multiset(Holders(s));
    DistinctSubset(Holders(s), all, KeyOf(k));
  }

  lemma SecondKeys(k: Keys, left: seq<File>, fs: seq<File>, rs: seq<Recovery>)
    requires DistinctBy(left + fs, KeyOf(k)) && |rs| == |fs|
    requires forall i :: 0 <= i < |rs| ==> rs[i].destination == fs[i].destination
    ensures DistinctBy(rs, DestinationKey(k))
    ensures forall r :: r in rs ==> k.key(r.destination) !in KeysOf(k, left)
  {
    var all := left + fs;
    forall i, j | 0 <= i < j < |rs|
      ensures DestinationKey(k)(rs[i]) != DestinationKey(k)(rs[j])
    {
      assert KeyOf(k)(all[|left| + i]) != KeyOf(k)(all[|left| + j]);
    }
    forall r, f | r in rs && f in left
      ensures k.key(f.destination) != k.key(r.destination)
    {
      var j :| 0 <= j < |rs| && rs[j] == r;
      var i :| 0 <= i < |left| && left[i] == f;
      assert KeyOf(k)(all[i]) != KeyOf(k)(all[|left| + j]);
    }
  }

  /** The keys of the removals are new to a plan rebuilt from the exported files. */
  lemma RemovalKeys(k: Keys, s: Plan)
    requires Inv(k, s) && Exportable(k, s)
    ensures DistinctBy(Removals(s.parked), DestinationKey(k)) && Unclashing(k, s, s)
    ensures forall r :: r in Removals(s.parked) ==> Fit(k, r)
  {
    hide Inv, Exportable;
    RemovalsUsable(k, s);
    UnresolvedKeys(k, s);
    SecondKeys(k, Remaining(s), Removed(s.parked), Removals(s.parked));
  }

  lemma {:induction false} WeightAtLeastCount(rs: seq<Recovery>)
    ensures |rs| <= RestoredWeight(rs)
  {
    if rs != [] { WeightAtLeastCount(rs[1..]); }
  }

  /** Every export declares its own byte total and numbers its files. */
  lemma ExportDeclared(k: Keys, s: Plan)
    requires Inv(k, s)
    ensures Declared(Export(s)) && Identified(Export(s))
  {
    CountFits(k, s);
    RemainingKeys(k, s);
    hide Inv, Remaining, DistinctBy;
    NumberedLike(k, Remaining(s), 1);
    NumberedIds(Remaining(s));
  }

  lemma NumberedIds(files: seq<File>)
    ensures DistinctBy(Numbered(files, 1), IdOf) && forall f :: f in Numbered(files, 1) ==> 1 <= f.id <= |files|
  {
  }

  lemma CountFits(k: Keys, s: Plan)
    requires Inv(k, s)
    ensures |Remaining(s)| <= MAX64
  {
    RemainingFits(k, s);
    assert |Remaining(s)| == |multiset(Remaining(s))| && |InFlight(s)| == |multiset(InFlight(s))|;
    WithinCount(multiset(Remaining(s)), multiset(InFlight(s)));
    SizeAtMostWeight(InFlight(s));
    Bounded(k, s);
  }

  lemma WithinCount(a: multiset<File>, b: multiset<File>)
    requires a <= b
    ensures |a| <= |b|
  {
    assert b == a + (b - a);
  }

  lemma DescribedFiles(k: Keys, s: Plan, p: CopyPlan)
    requires Inv(k, s) && Exportable(k, s) && Describes(k, p, s)
    ensures DistinctBy(p.files, IdOf) && DistinctBy(p.files, KeyOf(k)) && KeysOf(k, p.files) == KeysOf(k, Remaining(s))
    ensures Sum(p.files, WeightOf) == Sum(Remaining(s), WeightOf) && Sum(p.files, SizeOf) == Sum(Remaining(s), SizeOf)
    ensures forall f :: f in p.files ==> k.key(f.destination) != [] && 1 <= f.id <= |p.files|
  {
    hide Inv, Exportable, Remaining, Describes, Export, DistinctBy, KeysOf, Sendable;
    ExportedFiles(k, s);
    DescribedEach(k, p, s);
    var files := Export(s).files;
    assert forall f :: f in files ==> k.key(f.destination) != [] by { AllHaveKeys(k, files); }
    SameFields(k, p.files, files);
    SameKeys(k, p.files, files);
    SumPointwise(p.files, files, WeightOf);
    SumPointwise(p.files, files, SizeOf);
  }

  lemma DescribedEach(k: Keys, p: CopyPlan, s: Plan)
    requires Describes(k, p, s)
    ensures |p.files| == |Export(s).files|
    ensures forall i :: 0 <= i < |p.files| ==> p.files[i] == Export(s).files[i].(sensitive := p.files[i].sensitive)
  {
    hide Remaining;
  }

  lemma AllHaveKeys(k: Keys, files: seq<File>)
    requires forall f :: f in files ==> Sendable(k, f)
    ensures forall f :: f in files ==> k.key(f.destination) != []
  {
  }

  lemma SameKeys(k: Keys, xs: seq<File>, ys: seq<File>)
    requires |xs| == |ys| && forall i :: 0 <= i < |xs| ==> xs[i].destination == ys[i].destination
    ensures KeysOf(k, xs) == KeysOf(k, ys)
  {
    forall f | f in xs
      ensures k.key(f.destination) in KeysOf(k, ys)
    {
      var i :| 0 <= i < |xs| && xs[i] == f;
      assert ys[i] in ys;
    }
    forall f | f in ys
      ensures k.key(f.destination) in KeysOf(k, xs)
    {
      var i :| 0 <= i < |ys| && ys[i] == f;
      assert xs[i] in xs;
    }
  }

  lemma SameFields(k: Keys, xs: seq<File>, ys: seq<File>)
    requires |xs| == |ys| && forall i :: 0 <= i < |xs| ==> xs[i] == ys[i].(sensitive := xs[i].sensitive)
    requires DistinctBy(ys, IdOf) && DistinctBy(ys, KeyOf(k))
    requires forall f :: f in ys ==> k.key(f.destination) != [] && 1 <= f.id <= |ys|
    ensures DistinctBy(xs, IdOf) && DistinctBy(xs, KeyOf(k))
    ensures forall f :: f in xs ==> k.key(f.destination) != [] && 1 <= f.id <= |ys|
  {
    forall f | f in xs
      ensures k.key(f.destination) != [] && 1 <= f.id <= |ys|
    {
      var i :| 0 <= i < |xs| && xs[i] == f;
      assert ys[i] in ys;
    }
    forall i, j | 0 <= i < j < |xs|
      ensures IdOf(xs[i]) != IdOf(xs[j]) && KeyOf(k)(xs[i]) != KeyOf(k)(xs[j])
    {
      assert IdOf(ys[i]) != IdOf(ys[j]) && KeyOf(k)(ys[i]) != KeyOf(k)(ys[j]);
    }
  }

  lemma DescriptionCreates(k: Keys, s: Plan, p: CopyPlan)
    requires Inv(k, s) && Exportable(k, s) && Describes(k, p, s) && Sum(Remaining(s), WeightOf) <= MAX64
    ensures var c := Create(k, p);
      && c.Some? && Inv(k, c.value) && c.value.pending == Decided(k, p.files) && c.value.active == [] && c.value.parked == []
      && c.value.directories == p.directories && c.value.roots == s.roots && c.value.root == s.root
      && c.value.operation == s.operation
      && c.value.reserved == KeysOf(k, Remaining(s))
      && c.value.nextId == IdAfter(1, |p.files|)
      && c.value.counters.weight == 0 && c.value.counters.total == Sum(Remaining(s), WeightOf)
      && c.value.totalBytes == Sum(Remaining(s), SizeOf) && c.value.totalFiles == |p.files|
  {
    DescribedFiles(k, s, p);
    SizeAtMostWeight(Remaining(s));
    DescribedPlan(k, p, s);
    DescribedIds(k, p, s);
    hide Inv, Exportable, Screen, Remaining, Create, Describes, Decided;
    CreateKeepsIff(k, p);
    CreatedFrom(k, p);
  }

  lemma DescribedPlan(k: Keys, p: CopyPlan, s: Plan)
    requires Describes(k, p, s)
    ensures |p.files| == |Remaining(s)| && p.totalBytes == Sum(Remaining(s), SizeOf) && p.failures == []
    ensures p.roots == s.roots && p.root == s.root && p.operation == s.operation
    ensures forall f :: f in p.files ==> WithPolicy(k, f).Some?
  {
    hide Remaining;
  }

  lemma DescribedIds(k: Keys, p: CopyPlan, s: Plan)
    requires Describes(k, p, s) && |Remaining(s)| <= MAX64
    ensures NextId(Decided(k, p.files), 1) == IdAfter(1, |p.files|)
  {
    hide Remaining;
    NumberedNext(Remaining(s), 1, 1);
    SameIds(Decided(k, p.files), Export(s).files, 1);
  }

  lemma {:induction false} SameIds(a: seq<File>, b: seq<File>, next: nat)
    requires |a| == |b| && forall i :: 0 <= i < |a| ==> a[i].id == b[i].id
    ensures NextId(a, next) == NextId(b, next)
  {
    if a != [] {
      SameIds(a[1..], b[1..], if a[0].id == MAX64 then 0 else if next != 0 then Max(next, a[0].id + 1) else next);
    }
  }

  lemma CreatedFrom(k: Keys, p: CopyPlan)
    requires Create(k, p).Some? && p.failures == [] && Sum(p.files, WeightOf) <= MAX64
    requires forall f :: f in p.files ==> WithPolicy(k, f).Some?
    ensures var c := Create(k, p).value;
      && c.pending == Decided(k, p.files) && c.active == [] && c.parked == []
      && c.directories == p.directories && c.roots == p.roots && c.root == p.root && c.operation == p.operation
      && c.reserved == KeysOf(k, p.files) && c.nextId == NextId(Decided(k, p.files), 1)
      && c.counters.weight == 0 && c.counters.total == Sum(p.files, WeightOf)
      && c.totalBytes == p.totalBytes && c.totalFiles == |p.files|
  {
    ScreenDecides(k, k.key, p.files, {});
    ScreenedSums(k, k.key, p.files, {});
    ScreenedKeys(k, p.files);
  }

  lemma ScreenedKeys(k: Keys, files: seq<File>)
    requires Screen(k, k.key, files, {}).Accepted?
    ensures Screen(k, k.key, files, {}).keys == KeysOf(k, files)
  {
    var r := Screen(k, k.key, files, {});
    ScreenAccepts(k, k.key, files, {});
    assert |r.files| == |files|;
    forall key
      ensures key in KeysOf(k, r.files) <==> key in KeysOf(k, files)
    {
      if key in KeysOf(k, r.files) {
        var f :| f in r.files && k.key(f.destination) == key;
        var i :| 0 <= i < |r.files| && r.files[i] == f;
        assert files[i] in files && files[i].destination == f.destination;
      }
      if key in KeysOf(k, files) {
        var f :| f in files && k.key(f.destination) == key;
        var i :| 0 <= i < |files| && files[i] == f;
        assert r.files[i] in r.files && r.files[i].destination == f.destination;
      }
    }
  }

  /** No record of `s` is for a destination that work remaining in `t` is for. */
  ghost predicate Unclashing(k: Keys, s: Plan, t: Plan) {
    forall r :: r in Removals(s.parked) ==> k.key(r.destination) !in KeysOf(k, Remaining(t))
  }

  /** Rebuilding a plan from a description of the work remaining in `t`, and its source
      removals from the records of `s`, the same plan or the one it was before: short of
      64-bit overflow it succeeds exactly when the two do not clash. Exporting again then gives
      that description, policies filled in, and the same removals up to their ids. */
  lemma DescriptionRoundTrip(k: Keys, s: Plan, t: Plan, p: CopyPlan, rs: seq<Recovery>)
    requires Inv(k, s) && Exportable(k, s) && SameButIds(rs, Removals(s.parked))
    requires Inv(k, t) && Exportable(k, t) && Describes(k, p, t)
    requires Sum(Remaining(t), WeightOf) + RestoredWeight(Removals(s.parked)) <= MAX64
    ensures Reopened(k, p, rs).Some? <==> Unclashing(k, s, t)
    ensures Reopened(k, p, rs).Some? ==>
      var u := Reopened(k, p, rs).value;
      && Inv(k, u) && Exportable(k, u)
      && |InFlight(u)| == |Remaining(t)| + |Removals(s.parked)|
      && Export(u) == Described(k, p)
      && SameButIds(Removals(u.parked), Removals(s.parked))
  {
    hide Inv, Exportable, Restorable, Removals, Transfers, Create, Describes, Unclashing, Remaining, InFlight, Described, Export;
    DescriptionCreates(k, t, p);
    var c := Create(k, p).value;
    if Unclashing(k, s, t) {
      DescribedPlan(k, p, t);
      RebuiltRestorable(k, s, t, c);
      SameRestorable(k, c, Removals(s.parked), rs);
      RestoresAll(k, c, rs);
      Rebuilt(k, s, t, p, rs, c, RestoreAll(k, c, rs).value);
      CreatedExportable(k, t, p, c);
      RestoresExportable(k, c, rs);
    } else {
      Clashes(k, s, t, c, rs);
    }
  }

  lemma Clashes(k: Keys, s: Plan, t: Plan, c: Plan, rs: seq<Recovery>)
    requires !Unclashing(k, s, t) && SameButIds(rs, Removals(s.parked)) && c.reserved == KeysOf(k, Remaining(t))
    ensures RestoreAll(k, c, rs) == None
  {
    var r :| r in Removals(s.parked) && k.key(r.destination) in KeysOf(k, Remaining(t));
    var i :| 0 <= i < |Removals(s.parked)| && Removals(s.parked)[i] == r;
    RestoreClash(k, c, rs, rs[i]);
  }

  lemma CreatedExportable(k: Keys, t: Plan, p: CopyPlan, c: Plan)
    requires Inv(k, t) && Exportable(k, t) && Describes(k, p, t)
    requires c.pending == Decided(k, p.files) && c.active == [] && c.parked == []
    ensures Exportable(k, c)
  {
    hide Inv, Exportable, Remaining, KeysOf, DistinctBy, Export, Decided, Sendable, Describes;
    ExportedFiles(k, t);
    DescribedEach(k, p, t);
    DescribedPlan(k, p, t);
    DecidedSendable(k, p.files, Export(t).files);
    QueuedExportable(k, c);
  }

  lemma DecidedSendable(k: Keys, files: seq<File>, exported: seq<File>)
    requires |files| == |exported| && forall i :: 0 <= i < |files| ==> files[i] == exported[i].(sensitive := files[i].sensitive)
    requires (forall f :: f in exported ==> Sendable(k, f)) && forall f :: f in files ==> WithPolicy(k, f).Some?
    ensures forall f :: f in Decided(k, files) ==> Sendable(k, f)
  {
    forall f | f in Decided(k, files)
      ensures Sendable(k, f)
    {
      var i :| 0 <= i < |files| && Decided(k, files)[i] == f;
      assert exported[i] in exported && files[i] in files;
    }
  }

  lemma QueuedExportable(k: Keys, c: Plan)
    requires c.active == [] && c.parked == [] && forall f :: f in c.pending ==> Sendable(k, f)
    ensures Exportable(k, c)
  {
  }

  lemma SameRestorable(k: Keys, c: Plan, rs: seq<Recovery>, xs: seq<Recovery>)
    requires Restorable(k, c, rs) && SameButIds(xs, rs)
    ensures Restorable(k, c, xs)
  {
    SameWeight(rs, xs);
    forall i, j | 0 <= i < j < |xs|
      ensures DestinationKey(k)(xs[i]) != DestinationKey(k)(xs[j])
    {
      assert DestinationKey(k)(rs[i]) != DestinationKey(k)(rs[j]);
    }
    forall x | x in xs
      ensures Fit(k, x) && k.key(x.destination) !in c.reserved
    {
      var i :| 0 <= i < |xs| && xs[i] == x;
      assert rs[i] in rs;
    }
  }

  lemma {:induction false} SameWeight(rs: seq<Recovery>, xs: seq<Recovery>)
    requires SameButIds(xs, rs)
    ensures RestoredWeight(rs) == RestoredWeight(xs)
  {
    if rs != [] {
      assert rs[0] == xs[0].(fileId := rs[0].fileId);
      SameWeight(rs[1..], xs[1..]);
    }
  }

  lemma SameTwice(a: seq<Recovery>, b: seq<Recovery>, c: seq<Recovery>)
    requires SameButIds(a, b) && SameButIds(b, c)
    ensures SameButIds(a, c)
  {
  }

  /** The same for a plan's own export: exporting again gives the identical plan. */
  lemma CheckpointRoundTrip(k: Keys, s: Plan)
    requires Inv(k, s) && Exportable(k, s)
    requires Sum(Remaining(s), WeightOf) + RestoredWeight(Removals(s.parked)) <= MAX64
    ensures Reopened(k, Export(s), Removals(s.parked)).Some?
    ensures var t := Reopened(k, Export(s), Removals(s.parked)).value;
      && Inv(k, t)
      && |InFlight(t)| == |InFlight(s)|
      && Export(t) == Export(s)
      && SameButIds(Removals(t.parked), Removals(s.parked))
  {
    hide Inv, Exportable, Create, Removals, RestoreAll, InFlight, Remaining, Reopened, Unclashing;
    ExportDescribes(k, s);
    RemovalKeys(k, s);
    CoveredCount(k, s);
    ExportLength(s);
    DescriptionRoundTrip(k, s, s, Export(s), Removals(s.parked));
  }

  lemma ExportDescribes(k: Keys, s: Plan)
    requires Inv(k, s) && Exportable(k, s)
    ensures Describes(k, Export(s), s) && Described(k, Export(s)) == Export(s)
  {
    hide Inv, Exportable, Remaining, DistinctBy, KeysOf;
    ExportedFiles(k, s);
    var files := Export(s).files;
    forall f | f in files
      ensures WithPolicy(k, f) == Some(f)
    {
    }
    assert Decided(k, files) == files;
  }

  lemma Rebuilt(k: Keys, s: Plan, t: Plan, p: CopyPlan, rs: seq<Recovery>, c: Plan, u: Plan)
    requires Describes(k, p, t) && SameButIds(rs, Removals(s.parked))
    requires c.parked == [] && c.active == [] && c.pending == Decided(k, p.files)
    requires u.pending == c.pending && u.active == c.active && |u.parked| == |rs|
    requires u.directories == p.directories && u.roots == t.roots && u.root == t.root && u.operation == t.operation
    requires Transfers(u.parked) == Transfers(c.parked)
    requires SameButIds(Removals(u.parked)[|Removals(c.parked)|..], rs) && |Removals(u.parked)| == |Removals(c.parked)| + |rs|
    ensures |InFlight(u)| == |Remaining(t)| + |Removals(s.parked)| && Export(u) == Described(k, p)
    ensures SameButIds(Removals(u.parked), Removals(s.parked))
  {
    hide Transfers, Removals, Describes, Export, Described, Decided, Remaining;
    NothingParked(c);
    assert Removals(u.parked)[0..] == Removals(u.parked);
    SameTwice(Removals(u.parked), rs, Removals(s.parked));
    DescribedPlan(k, p, t);
    RebuiltExport(k, t, p, u);
  }

  lemma ExportLength(s: Plan)
    ensures |Export(s).files| == |Remaining(s)|
  {
  }

  lemma RebuiltExport(k: Keys, s: Plan, p: CopyPlan, t: Plan)
    requires Describes(k, p, s) && t.pending == Decided(k, p.files) && t.active == [] && Transfers(t.parked) == []
    requires t.directories == p.directories && t.roots == s.roots && t.root == s.root && t.operation == s.operation
    ensures Export(t) == Described(k, p) && |t.pending| == |p.files|
  {
    var files := Decided(k, p.files);
    assert Remaining(t) == files;
    DecidedEach(k, s, p);
    hide Remaining, Transfers, Sum, Largest, Decided, Describes;
    NumberedSums(s);
    Redescribed(Remaining(s), files);
  }

  /** Filling in policies changes nothing else about the work described. */
  lemma DecidedEach(k: Keys, s: Plan, p: CopyPlan)
    requires Describes(k, p, s)
    ensures var files, left := Decided(k, p.files), Remaining(s);
      && |files| == |p.files| == |left|
      && (forall i :: 0 <= i < |left| ==> files[i].id == i + 1 && files[i].size == left[i].size)
      && Sum(files, SizeOf) == Sum(Export(s).files, SizeOf)
      && p.failures == [] && p.roots == s.roots && p.root == s.root && p.operation == s.operation
      && p.totalBytes == Sum(left, SizeOf) && p.largest == Largest(left)
  {
    hide Remaining;
    SumPointwise(Decided(k, p.files), Export(s).files, SizeOf);
  }

  lemma NumberedSums(s: Plan)
    ensures Sum(Export(s).files, SizeOf) == Sum(Remaining(s), SizeOf) && Largest(Export(s).files) == Largest(Remaining(s))
  {
    hide Remaining;
    SumPointwise(Export(s).files, Remaining(s), SizeOf);
    LargestPointwise(Export(s).files, Remaining(s));
  }

  /** Files numbered from 1 keep their numbers and their largest size. */
  lemma Redescribed(files: seq<File>, again: seq<File>)
    requires |again| == |files|
    requires forall i :: 0 <= i < |files| ==> again[i].id == i + 1 && again[i].size == files[i].size
    ensures Numbered(again, 1) == again && Largest(again) == Largest(files)
  {
    LargestPointwise(again, files);
  }

  lemma NothingParked(s: Plan)
    requires s.parked == []
    ensures Removals(s.parked) == [] && Transfers(s.parked) == []
  {
  }

  lemma CoveredCount(k: Keys, s: Plan)
    requires Inv(k, s) && Exportable(k, s)
    ensures |Export(s).files| + |Removals(s.parked)| == |InFlight(s)|
  {
    CheckpointCoversIff(k, s);
  }

  lemma RebuiltRestorable(k: Keys, s: Plan, t: Plan, c: Plan)
    requires Inv(k, s) && Exportable(k, s) && Unclashing(k, s, t)
    requires Sum(Remaining(t), WeightOf) + RestoredWeight(Removals(s.parked)) <= MAX64
    requires c.reserved == KeysOf(k, Remaining(t)) && c.nextId == IdAfter(1, |Remaining(t)|)
    requires c.counters.weight == 0 && c.counters.total == Sum(Remaining(t), WeightOf)
    requires c.totalBytes == Sum(Remaining(t), SizeOf) && c.totalFiles == |Remaining(t)|
    ensures Restorable(k, c, Removals(s.parked))
  {
    RemovalKeys(k, s);
    hide Inv, Exportable, Remaining, Removals;
    SizeAtMostWeight(Remaining(t));
    WeightAtLeastCount(Removals(s.parked));
  }

  lemma {:induction false} LargestPointwise(a: seq<File>, b: seq<File>)
    requires |a| == |b| && forall i :: 0 <= i < |a| ==> a[i].size == b[i].size
    ensures Largest(a) == Largest(b)
  {
    if a != [] { LargestPointwise(a[1..], b[1..]); }
  }
}
