/** How a checkpoint is really taken: the removal records are read first and the files
    second, each under the plan's lock, and workers may run in between. */
module CheckpointReads {
  import opened Items
  import opened Sequences
  import opened LivePlan
  import opened PlanInvariant
  import opened PlanOperations
  import opened PlanEntry
  import opened PlanRuns
  import opened Checkpoint

  // ---- finished copies between the two reads ----

  /** The file is parked for source removal: its copy is complete. */
  ghost predicate Awaits(s: Plan, f: File) {
    exists p :: p in s.parked && p.file == f && p.incident.action == RetrySourceRemoval
  }

  /** It was settled as copied, its source removed or retained. */
  ghost predicate Concluded(s: Plan, f: File) {
    exists d :: d in s.done && !d.scanned && d.file == f && Successful(d.outcome)
  }

  /** Whoever settles a finished copy neither fails nor skips it. */
  ghost predicate Honest(s: Plan, op: Op) {
    op.DoResolveParked? && AwaitsRemoval(s, op.id) ==> Successful(op.outcome)
  }

  /** Any run of the calls the executor and the window make. */
  ghost predicate UsedRun(k: Keys, s: Plan, ops: seq<Op>)
    decreases |ops|
  {
    ops != [] ==>
      && Allowed(s, ops[0]) && Orderly(k, ops[0]) && Honest(s, ops[0])
      && UsedRun(k, Apply(k, s, ops[0]), ops[1..])
  }

  lemma {:induction false} UsedKeeps(k: Keys, s: Plan, ops: seq<Op>)
    requires Inv(k, s) && Exportable(k, s) && UsedRun(k, s, ops)
    ensures Inv(k, Run(k, s, ops)) && Exportable(k, Run(k, s, ops))
    decreases |ops|
  {
    hide Inv, Exportable, Apply, Allowed, Orderly, Honest;
    if ops != [] {
      StepKeeps(k, s, ops[0]);
      ExportableKept(k, s, ops[0]);
      UsedKeeps(k, Apply(k, s, ops[0]), ops[1..]);
    }
  }

  lemma StaysAwaiting(s: Plan, t: Plan, f: File, i: nat, j: nat)
    requires i < |s.parked| && s.parked[i].file == f && s.parked[i].incident.action == RetrySourceRemoval
    requires j < |t.parked| && t.parked[j].file == f && t.parked[j].incident.action == RetrySourceRemoval
    ensures Awaits(t, f)
  {
    assert t.parked[j] in t.parked;
  }

  /** A finished copy keeps waiting under the same file, or is concluded. */
  lemma FinishedStep(k: Keys, s: Plan, op: Op, f: File)
    requires Honest(s, op) && Awaits(s, f)
    ensures Awaits(Apply(k, s, op), f) || Concluded(Apply(k, s, op), f)
  {
    hide Awaits, Concluded, Honest;
    var i := AwaitedAt(s, f);
    if op.DoUnpark? {
      UnparkLeaves(k, s, op, f, i);
    } else if op.DoResolveParked? {
      ResolvedOrLeft(k, s, op, f, i);
    } else {
      hide Apply;
      ParkedGrows(k, s, op);
      StaysAwaiting(s, Apply(k, s, op), f, i, i);
    }
  }

  lemma AwaitedAt(s: Plan, f: File) returns (i: nat)
    requires Awaits(s, f)
    ensures i < |s.parked| && s.parked[i].file == f && s.parked[i].incident.action == RetrySourceRemoval
  {
    var p :| p in s.parked && p.file == f && p.incident.action == RetrySourceRemoval;
    i :| 0 <= i < |s.parked| && s.parked[i] == p;
  }

  lemma UnparkLeaves(k: Keys, s: Plan, op: Op, f: File, i: nat)
    requires op.DoUnpark?
    requires i < |s.parked| && s.parked[i].file == f && s.parked[i].incident.action == RetrySourceRemoval
    ensures Awaits(Apply(k, s, op), f)
  {
    hide Awaits;
    var n, t := Find(ParkedFiles(s.parked), op.id), Apply(k, s, op);
    if n < |s.parked| && s.parked[n].incident.action == RetryTransfer {
      StaysAwaiting(s, t, f, i, if i < n then i else i - 1);
    } else {
      StaysAwaiting(s, t, f, i, i);
    }
  }

  lemma ResolvedOrLeft(k: Keys, s: Plan, op: Op, f: File, i: nat)
    requires op.DoResolveParked? && Honest(s, op)
    requires i < |s.parked| && s.parked[i].file == f && s.parked[i].incident.action == RetrySourceRemoval
    ensures Awaits(Apply(k, s, op), f) || Concluded(Apply(k, s, op), f)
  {
    hide Awaits, Wrap, CountOutcome;
    var n, t := Find(ParkedFiles(s.parked), op.id), Apply(k, s, op);
    if n == |s.parked| {
      StaysAwaiting(s, t, f, i, i);
    } else if n == i {
      assert s.parked[i] in s.parked && f.id == op.id;
      assert Last(t.done) in t.done && Last(t.done) == Done(f, op.outcome, op.hresult, op.preexisted, false);
    } else {
      StaysAwaiting(s, t, f, i, if i < n then i else i - 1);
    }
  }

  lemma ConcludedStays(s: Plan, t: Plan, f: File)
    requires Concluded(s, f) && s.done <= t.done
    ensures Concluded(t, f)
  {
    var d :| d in s.done && !d.scanned && d.file == f && Successful(d.outcome);
    var j :| 0 <= j < |s.done| && s.done[j] == d;
    assert t.done[j] == d;
  }

  /** Over any run between the reads, a finished copy keeps waiting or is concluded. */
  lemma {:induction false} FinishedOverRuns(k: Keys, s: Plan, ops: seq<Op>, f: File)
    requires Inv(k, s) && UsedRun(k, s, ops) && (Awaits(s, f) || Concluded(s, f))
    ensures Awaits(Run(k, s, ops), f) || Concluded(Run(k, s, ops), f)
    decreases |ops|
  {
    hide Inv, Apply, Allowed, Orderly, Honest, Awaits, Concluded, IdsSound;
    if ops != [] {
      var t := Apply(k, s, ops[0]);
      StepKeeps(k, s, ops[0]);
      SoundIds(k, s);
      NextIdGrows(k, s, ops[0]);
      if Awaits(s, f) { FinishedStep(k, s, ops[0], f); } else { ConcludedStays(s, t, f); }
      FinishedOverRuns(k, t, ops[1..], f);
    }
  }

  // ---- what a checkpoint of one plan holds of it ----

  lemma {:induction false} TransfersHave(parked: seq<ParkedFile>, f: File)
    ensures f in Transfers(parked) <==> exists p :: p in parked && p.file == f && p.incident.action == RetryTransfer
  {
    if parked != [] {
      TransfersHave(parked[1..], f);
      assert forall p :: p in parked <==> p == parked[0] || p in parked[1..];
    }
  }

  /** An unresolved item is exported, or it is a finished copy, and never both. */
  lemma ExportedOrAwaiting(k: Keys, s: Plan, f: File)
    requires Inv(k, s) && f in InFlight(s)
    ensures f in Remaining(s) <==> !Awaits(s, f)
  {
    FlightIds(s);
    hide Inv, IdsSound, DistinctBy, Remaining, Awaits;
    var n :| 0 <= n < |InFlight(s)| && InFlight(s)[n] == f;
    if n >= |s.pending| + |s.active| { ParkedSide(s, n, f); } else { QueuedSide(s, n, f); }
  }

  lemma ParkedSide(s: Plan, n: nat, f: File)
    requires DistinctBy(InFlight(s), IdOf) && |s.pending| + |s.active| <= n < |InFlight(s)| && InFlight(s)[n] == f
    ensures f in Remaining(s) <==> !Awaits(s, f)
  {
    hide DistinctBy;
    TransfersHave(s.parked, f);
    OnlyParked(s, n - |s.pending| - |s.active|, f);
    NotQueued(s, n, f);
  }

  lemma QueuedSide(s: Plan, n: nat, f: File)
    requires DistinctBy(InFlight(s), IdOf) && n < |s.pending| + |s.active| && InFlight(s)[n] == f
    ensures f in Remaining(s) && !Awaits(s, f)
  {
    NotParked(s, n, f);
    hide DistinctBy;
  }

  lemma OnlyParked(s: Plan, i: nat, f: File)
    requires DistinctBy(InFlight(s), IdOf) && i < |s.parked| && s.parked[i].file == f
    ensures s.parked[i] in s.parked && forall p :: p in s.parked && p.file == f ==> p == s.parked[i]
  {
    forall p | p in s.parked && p.file == f
      ensures p == s.parked[i]
    {
      var j :| 0 <= j < |s.parked| && s.parked[j] == p;
      ParkedOnce(s, i, j);
    }
  }

  lemma NotParked(s: Plan, n: nat, f: File)
    requires DistinctBy(InFlight(s), IdOf) && n < |s.pending| + |s.active| && InFlight(s)[n] == f
    ensures f in s.pending + s.active && forall p :: p in s.parked ==> p.file != f
  {
    assert (s.pending + s.active)[n] == f;
    forall p | p in s.parked
      ensures p.file != f
    {
      var j :| 0 <= j < |s.parked| && s.parked[j] == p;
      assert IdOf(InFlight(s)[n]) != IdOf(InFlight(s)[|s.pending| + |s.active| + j]);
    }
  }

  lemma NotQueued(s: Plan, n: nat, f: File)
    requires DistinctBy(InFlight(s), IdOf) && |s.pending| + |s.active| <= n < |InFlight(s)| && InFlight(s)[n] == f
    ensures f !in s.pending && f !in s.active
  {
    forall i | 0 <= i < |s.pending| + |s.active|
      ensures (s.pending + s.active)[i] != f
    {
      assert (s.pending + s.active)[i] == InFlight(s)[i];
      assert IdOf(InFlight(s)[i]) != IdOf(InFlight(s)[n]);
    }
    forall x | x in s.pending || x in s.active
      ensures x in s.pending + s.active
    {
    }
  }

  /** The record belongs to this file. */
  predicate RecordOf(r: Recovery, f: File) {
    r.fileId == f.id && r.source == f.source && r.destination == f.destination
  }

  ghost predicate RecordsSound(parked: seq<ParkedFile>) {
    forall p :: p in parked ==>
      && Recoverable(p) && p.incident.fileId == p.file.id
      && (p.recovery.Some? ==>
            p.recovery.value.source == p.file.source && p.recovery.value.destination == p.file.destination)
  }

  lemma RestSound(parked: seq<ParkedFile>)
    requires RecordsSound(parked) && parked != []
    ensures RecordsSound(parked[1..])
  {
  }

  lemma {:induction false} ParkedRecord(parked: seq<ParkedFile>, p: ParkedFile) returns (r: Recovery)
    requires RecordsSound(parked) && p in parked && p.incident.action == RetrySourceRemoval
    ensures r in Removals(parked) && RecordOf(r, p.file)
  {
    RestSound(parked);
    if parked[0] == p {
      assert Recoverable(p);
      r := Removals(parked)[0];
    } else {
      r := ParkedRecord(parked[1..], p);
    }
  }

  lemma {:induction false} RecordOwner(parked: seq<ParkedFile>, r: Recovery) returns (p: ParkedFile)
    requires RecordsSound(parked) && r in Removals(parked)
    ensures p in parked && p.incident.action == RetrySourceRemoval && RecordOf(r, p.file)
  {
    RestSound(parked);
    p := parked[0];
    assert p in parked && Recoverable(p);
    if p.recovery.None? || Removals(parked)[0] != r { p := RecordOwner(parked[1..], r); }
  }

  lemma SoundRecords(k: Keys, s: Plan)
    requires Inv(k, s) && Exportable(k, s)
    ensures RecordsSound(s.parked)
  {
    forall p | p in s.parked
      ensures Recoverable(p)
    {
      assert Archivable(k, p);
    }
  }

  /** Each finished copy has its record. */
  lemma FileRecorded(k: Keys, s: Plan, f: File) returns (r: Recovery)
    requires Inv(k, s) && Exportable(k, s) && Awaits(s, f)
    ensures r in Removals(s.parked) && RecordOf(r, f)
  {
    hide Inv, Exportable, Removals, RecordsSound;
    SoundRecords(k, s);
    var p :| p in s.parked && p.file == f && p.incident.action == RetrySourceRemoval;
    r := ParkedRecord(s.parked, p);
  }

  /** Each record has its finished copy. */
  lemma RecordedFile(k: Keys, s: Plan, r: Recovery) returns (f: File)
    requires Inv(k, s) && Exportable(k, s) && r in Removals(s.parked)
    ensures Awaits(s, f) && RecordOf(r, f)
  {
    hide Inv, Exportable, Removals, RecordsSound;
    SoundRecords(k, s);
    var p := RecordOwner(s.parked, r);
    f := p.file;
  }

  // ---- what two reads cover ----

  /** The checkpoint holds the item: among the files read second or the records read first. */
  ghost predicate Covered(s: Plan, t: Plan, f: File) {
    f in Remaining(t) || exists r :: r in Removals(s.parked) && r.fileId == f.id
  }

  /** Nothing is parked for source removal in the second plan that was not so in the first. */
  ghost predicate NoneFinishedSince(s: Plan, t: Plan) { forall id :: AwaitsRemoval(t, id) ==> AwaitsRemoval(s, id) }

  lemma AwaitsFile(s: Plan, id: nat) returns (f: File)
    requires AwaitsRemoval(s, id)
    ensures Awaits(s, f) && f.id == id && f in InFlight(s)
  {
    var p :| p in s.parked && p.file.id == id && p.incident.action == RetrySourceRemoval;
    var j :| 0 <= j < |s.parked| && s.parked[j] == p;
    ParkedMember(s, j);
    f := p.file;
  }

  lemma AwaitsId(s: Plan, f: File)
    requires Awaits(s, f)
    ensures AwaitsRemoval(s, f.id) && f in InFlight(s)
  {
    var i := AwaitedAt(s, f);
    assert s.parked[i] in s.parked;
    ParkedMember(s, i);
  }

  lemma CoveredAwaits(k: Keys, s: Plan, t: Plan, f: File)
    requires Inv(k, s) && Exportable(k, s) && Inv(k, t) && Awaits(t, f) && Covered(s, t, f)
    ensures AwaitsRemoval(s, f.id)
  {
    hide Inv, Exportable, Remaining, Removals, Awaits, AwaitsRemoval, InFlight;
    AwaitsId(t, f);
    ExportedOrAwaiting(k, t, f);
    var r :| r in Removals(s.parked) && r.fileId == f.id;
    var g := RecordedFile(k, s, r);
    AwaitsId(s, g);
  }

  lemma AwaitsCovered(k: Keys, s: Plan, t: Plan, f: File)
    requires Inv(k, s) && Exportable(k, s) && Inv(k, t) && f in InFlight(t)
    requires Awaits(t, f) ==> AwaitsRemoval(s, f.id)
    ensures Covered(s, t, f)
  {
    hide Inv, Exportable, Remaining, Removals, Awaits, AwaitsRemoval, InFlight;
    ExportedOrAwaiting(k, t, f);
    if Awaits(t, f) {
      var g := AwaitsFile(s, f.id);
      var r := FileRecorded(k, s, g);
    }
  }

  /** The two reads together hold every unresolved item of the plan that is exported exactly
      when no item was parked for source removal in between: such an item is too late for the
      records, and the export skips it. */
  lemma ReadsCoverIff(k: Keys, s: Plan, ops: seq<Op>)
    requires Inv(k, s) && Exportable(k, s) && UsedRun(k, s, ops)
    ensures var t := Run(k, s, ops);
      (forall f :: f in InFlight(t) ==> Covered(s, t, f)) <==> NoneFinishedSince(s, t)
  {
    var t := Run(k, s, ops);
    UsedKeeps(k, s, ops);
    hide Inv, Exportable, UsedRun, Run, InFlight, Covered, Awaits, AwaitsRemoval;
    if forall f :: f in InFlight(t) ==> Covered(s, t, f) {
      forall id | AwaitsRemoval(t, id)
        ensures AwaitsRemoval(s, id)
      {
        var f := AwaitsFile(t, id);
        CoveredAwaits(k, s, t, f);
      }
    }
    if NoneFinishedSince(s, t) {
      forall f | f in InFlight(t)
        ensures Covered(s, t, f)
      {
        if Awaits(t, f) { AwaitsId(t, f); }
        AwaitsCovered(k, s, t, f);
      }
    }
  }

  // ---- what comes back ----

  /** The route of the file is among those of the others. */
  ghost predicate Listed(files: seq<File>, f: File) {
    exists g :: g in files && g.source == f.source && g.destination == f.destination
  }

  ghost predicate Recorded(rs: seq<Recovery>, f: File) {
    exists r :: r in rs && r.source == f.source && r.destination == f.destination
  }

  predicate SameRoutes(xs: seq<File>, ys: seq<File>) {
    |xs| == |ys| && forall i :: 0 <= i < |xs| ==> xs[i].source == ys[i].source && xs[i].destination == ys[i].destination
  }

  lemma ListedAlike(xs: seq<File>, ys: seq<File>, f: File)
    requires SameRoutes(xs, ys)
    ensures Listed(xs, f) <==> Listed(ys, f)
  {
    if Listed(xs, f) {
      var g :| g in xs && g.source == f.source && g.destination == f.destination;
      var i :| 0 <= i < |xs| && xs[i] == g;
      assert ys[i] in ys;
    }
    if Listed(ys, f) {
      var g :| g in ys && g.source == f.source && g.destination == f.destination;
      var i :| 0 <= i < |ys| && ys[i] == g;
      assert xs[i] in xs;
    }
  }

  lemma RecordedAlike(rs: seq<Recovery>, xs: seq<Recovery>, f: File)
    requires SameButIds(xs, rs)
    ensures Recorded(xs, f) <==> Recorded(rs, f)
  {
    if Recorded(xs, f) {
      var r :| r in xs && r.source == f.source && r.destination == f.destination;
      var i :| 0 <= i < |xs| && xs[i] == r;
      assert rs[i] in rs;
    }
    if Recorded(rs, f) {
      var r :| r in rs && r.source == f.source && r.destination == f.destination;
      var i :| 0 <= i < |rs| && rs[i] == r;
      assert xs[i] in xs;
    }
  }

  lemma RemainingAlike(k: Keys, t: Plan, p: CopyPlan, u: Plan)
    requires Describes(k, p, t) && Export(u) == Described(k, p)
    ensures SameRoutes(Remaining(u), Remaining(t))
  {
    hide Remaining;
    forall i | 0 <= i < |Remaining(u)|
      ensures Export(u).files[i].source == Export(t).files[i].source
      ensures Export(u).files[i].destination == Export(t).files[i].destination
    {
      assert p.files[i] in p.files;
    }
  }

  /** `u` brings back the work remaining in `t` and the removals of `s`. */
  ghost predicate BringsBack(k: Keys, s: Plan, t: Plan, u: Plan) {
    && Inv(k, u) && Exportable(k, u) && SameRoutes(Remaining(u), Remaining(t))
    && SameButIds(Removals(u.parked), Removals(s.parked))
  }

  lemma ComesBack(k: Keys, s: Plan, t: Plan, u: Plan, f: File)
    requires BringsBack(k, s, t, u)
    ensures Listed(InFlight(u), f) <==> Listed(Remaining(t), f) || Recorded(Removals(s.parked), f)
  {
    hide Inv, Exportable, Remaining, Removals, InFlight, Awaits, SameRoutes, SameButIds;
    ListedAlike(Remaining(u), Remaining(t), f);
    RecordedAlike(Removals(s.parked), Removals(u.parked), f);
    if Listed(InFlight(u), f) {
      var g :| g in InFlight(u) && g.source == f.source && g.destination == f.destination;
      ExportedOrAwaiting(k, u, g);
      if Awaits(u, g) { var r := FileRecorded(k, u, g); }
    }
    if Listed(Remaining(u), f) {
      var g :| g in Remaining(u) && g.source == f.source && g.destination == f.destination;
      RemainingUnresolved(k, u, g);
    }
    if Recorded(Removals(u.parked), f) {
      var r :| r in Removals(u.parked) && r.source == f.source && r.destination == f.destination;
      var g := RecordedFile(k, u, r);
      AwaitsId(u, g);
    }
  }

  lemma RemainingUnresolved(k: Keys, s: Plan, f: File)
    requires Inv(k, s) && f in Remaining(s)
    ensures f in InFlight(s)
  {
    RemainingFits(k, s);
    hide Inv, Remaining, InFlight;
    assert f in multiset(Remaining(s)) && f in multiset(InFlight(s));
  }

  // ---- destinations and ids of unresolved and concluded items ----

  lemma UnresolvedDiffer(k: Keys, s: Plan, f: File, g: File)
    requires Inv(k, s) && f in InFlight(s) && g in InFlight(s)
    ensures f.id == g.id || k.key(f.destination) == k.key(g.destination) ==> f == g
  {
    var xs := Holders(s);
    assert f in xs && g in xs;
    DistinctMember(xs, KeyOf(k), f, g);
    FlightIds(s);
    DistinctMember(InFlight(s), IdOf, f, g);
  }

  lemma ConcludedApart(k: Keys, s: Plan, f: File, g: File)
    requires Inv(k, s) && Concluded(s, f) && g in InFlight(s)
    ensures f.id != g.id && k.key(f.destination) != k.key(g.destination)
  {
    var d :| d in s.done && !d.scanned && d.file == f && Successful(d.outcome);
    ProducedHas(s.done, d);
    SettledHas(s.done, d);
    Across(InFlight(s), Produced(s.done), KeyOf(k), g, f);
    Across(InFlight(s), Settled(s.done), IdOf, g, f);
  }

  lemma Across<T, K>(xs: seq<T>, ys: seq<T>, f: T -> K, x: T, y: T)
    requires DistinctBy(xs + ys, f) && x in xs && y in ys
    ensures f(x) != f(y)
  {
    var i :| 0 <= i < |xs| && xs[i] == x;
    var j :| 0 <= j < |ys| && ys[j] == y;
    assert f((xs + ys)[i]) != f((xs + ys)[|xs| + j]);
  }

  /** The record of a copy that was finished at the first read is for a destination of its own
      at the second. */
  lemma RecordApart(k: Keys, s: Plan, ops: seq<Op>, r: Recovery, g: File) returns (f: File)
    requires Inv(k, s) && Exportable(k, s) && UsedRun(k, s, ops) && Inv(k, Run(k, s, ops))
    requires r in Removals(s.parked) && g in InFlight(Run(k, s, ops))
    ensures Awaits(s, f) && RecordOf(r, f) && (Awaits(Run(k, s, ops), f) || Concluded(Run(k, s, ops), f))
    ensures k.key(r.destination) == k.key(g.destination) || r.fileId == g.id ==> f == g && Awaits(Run(k, s, ops), g)
  {
    hide Inv, Exportable, UsedRun, Run, Removals, InFlight, Awaits, Concluded;
    var t := Run(k, s, ops);
    f := RecordedFile(k, s, r);
    FinishedOverRuns(k, s, ops, f);
    if Awaits(t, f) {
      AwaitsId(t, f);
      UnresolvedDiffer(k, t, f, g);
    } else {
      ConcludedApart(k, t, f, g);
    }
  }

  lemma UsedUnclashing(k: Keys, s: Plan, ops: seq<Op>)
    requires Inv(k, s) && Exportable(k, s) && UsedRun(k, s, ops)
    ensures Unclashing(k, s, Run(k, s, ops))
  {
    var t := Run(k, s, ops);
    UsedKeeps(k, s, ops);
    hide Inv, Exportable, UsedRun, Run, Removals, InFlight, Remaining, Awaits, Concluded;
    forall r | r in Removals(s.parked)
      ensures k.key(r.destination) !in KeysOf(k, Remaining(t))
    {
      if k.key(r.destination) in KeysOf(k, Remaining(t)) {
        var g :| g in Remaining(t) && k.key(g.destination) == k.key(r.destination);
        RemainingUnresolved(k, t, g);
        var f := RecordApart(k, s, ops, r, g);
        ExportedOrAwaiting(k, t, g);
        assert false;
      }
    }
  }

  // ---- a checkpoint read twice comes back ----

  /** The item was a finished copy at the first read, and concluded by the second. */
  ghost predicate SettledBetween(s: Plan, t: Plan, g: File) {
    exists f :: Awaits(s, f) && Concluded(t, f) && f.source == g.source && f.destination == g.destination
  }

  /** Every unresolved item of `t` is back exactly when none was finished since `s`. */
  ghost predicate NothingLostIff(s: Plan, t: Plan, u: Plan) {
    (forall f :: f in InFlight(t) ==> Listed(InFlight(u), f)) <==> NoneFinishedSince(s, t)
  }

  /** What else is back was a finished copy, settled since. */
  ghost predicate OnlySettledAdded(s: Plan, t: Plan, u: Plan) {
    forall g :: g in InFlight(u) ==> Listed(InFlight(t), g) || SettledBetween(s, t, g)
  }

  lemma FinishedLost(k: Keys, s: Plan, ops: seq<Op>, u: Plan, f: File)
    requires Inv(k, s) && Exportable(k, s) && UsedRun(k, s, ops) && Inv(k, Run(k, s, ops))
    requires BringsBack(k, s, Run(k, s, ops), u) && Awaits(Run(k, s, ops), f) && Listed(InFlight(u), f)
    ensures AwaitsRemoval(s, f.id)
  {
    var t := Run(k, s, ops);
    hide Inv, Exportable, UsedRun, Run, Removals, InFlight, Remaining, Awaits, AwaitsRemoval, Concluded, BringsBack;
    AwaitsId(t, f);
    ComesBack(k, s, t, u, f);
    ExportedOrAwaiting(k, t, f);
    if Listed(Remaining(t), f) {
      var g :| g in Remaining(t) && g.source == f.source && g.destination == f.destination;
      RemainingUnresolved(k, t, g);
      UnresolvedDiffer(k, t, f, g);
    } else {
      var r :| r in Removals(s.parked) && r.source == f.source && r.destination == f.destination;
      var g := RecordApart(k, s, ops, r, f);
      AwaitsId(s, g);
    }
  }

  lemma OthersBack(k: Keys, s: Plan, ops: seq<Op>, u: Plan, f: File)
    requires Inv(k, s) && Exportable(k, s) && UsedRun(k, s, ops) && Inv(k, Run(k, s, ops))
    requires BringsBack(k, s, Run(k, s, ops), u) && f in InFlight(Run(k, s, ops))
    requires Awaits(Run(k, s, ops), f) ==> AwaitsRemoval(s, f.id)
    ensures Listed(InFlight(u), f)
  {
    var t := Run(k, s, ops);
    hide Inv, Exportable, UsedRun, Run, Removals, InFlight, Remaining, Awaits, AwaitsRemoval, Concluded, BringsBack;
    ComesBack(k, s, t, u, f);
    ExportedOrAwaiting(k, t, f);
    if Awaits(t, f) {
      var g := AwaitsFile(s, f.id);
      var r := FileRecorded(k, s, g);
      var h := RecordApart(k, s, ops, r, f);
    }
  }

  lemma BackFrom(k: Keys, s: Plan, ops: seq<Op>, u: Plan, g: File)
    requires Inv(k, s) && Exportable(k, s) && UsedRun(k, s, ops) && Inv(k, Run(k, s, ops))
    requires BringsBack(k, s, Run(k, s, ops), u) && g in InFlight(u)
    ensures Listed(InFlight(Run(k, s, ops)), g) || SettledBetween(s, Run(k, s, ops), g)
  {
    var t := Run(k, s, ops);
    hide Inv, Exportable, UsedRun, Run, Removals, InFlight, Remaining, Awaits, Concluded, BringsBack;
    ComesBack(k, s, t, u, g);
    if Listed(Remaining(t), g) {
      var f :| f in Remaining(t) && f.source == g.source && f.destination == g.destination;
      RemainingUnresolved(k, t, f);
    } else {
      var r :| r in Removals(s.parked) && r.source == g.source && r.destination == g.destination;
      var f := RecordedFile(k, s, r);
      FinishedOverRuns(k, s, ops, f);
      if Awaits(t, f) { AwaitsId(t, f); }
    }
  }

  lemma WhatReturns(k: Keys, s: Plan, ops: seq<Op>, u: Plan)
    requires Inv(k, s) && Exportable(k, s) && UsedRun(k, s, ops) && BringsBack(k, s, Run(k, s, ops), u)
    ensures NothingLostIff(s, Run(k, s, ops), u) && OnlySettledAdded(s, Run(k, s, ops), u)
  {
    var t := Run(k, s, ops);
    UsedKeeps(k, s, ops);
    hide Inv, Exportable, UsedRun, Run, InFlight, Listed, SettledBetween, Awaits, AwaitsRemoval, BringsBack;
    if forall f :: f in InFlight(t) ==> Listed(InFlight(u), f) {
      forall id | AwaitsRemoval(t, id)
        ensures AwaitsRemoval(s, id)
      {
        var f := AwaitsFile(t, id);
        FinishedLost(k, s, ops, u, f);
      }
    }
    if NoneFinishedSince(s, t) {
      forall f | f in InFlight(t)
        ensures Listed(InFlight(u), f)
      {
        if Awaits(t, f) { AwaitsId(t, f); }
        OthersBack(k, s, ops, u, f);
      }
    }
    forall g | g in InFlight(u)
      ensures Listed(InFlight(t), g) || SettledBetween(s, t, g)
    {
      BackFrom(k, s, ops, u, g);
    }
  }

  /** A checkpoint whose records and files were read before and after any run of the plan, then
      rebuilt, short of 64-bit overflow: it always opens; it has every unresolved item exactly
      when none was parked for source removal in between; and all it has besides are finished
      copies settled in between, as removals to be looked at again. */
  lemma ReadsReturn(k: Keys, s: Plan, ops: seq<Op>, p: CopyPlan, rs: seq<Recovery>)
    requires Inv(k, s) && Exportable(k, s) && UsedRun(k, s, ops)
    requires Describes(k, p, Run(k, s, ops)) && SameButIds(rs, Removals(s.parked))
    requires Sum(Remaining(Run(k, s, ops)), WeightOf) + RestoredWeight(Removals(s.parked)) <= MAX64
    ensures Reopened(k, p, rs).Some?
    ensures var t, u := Run(k, s, ops), Reopened(k, p, rs).value;
      && Inv(k, u) && Exportable(k, u) && Export(u) == Described(k, p)
      && SameButIds(Removals(u.parked), Removals(s.parked))
      && NothingLostIff(s, t, u) && OnlySettledAdded(s, t, u)
  {
    var t := Run(k, s, ops);
    UsedKeeps(k, s, ops);
    hide Inv, Exportable, UsedRun, Run, Describes, Removals, Remaining, InFlight, Reopened, Unclashing, Export, Described,
         NothingLostIff, OnlySettledAdded, SameRoutes;
    UsedUnclashing(k, s, ops);
    DescriptionRoundTrip(k, s, t, p, rs);
    var u := Reopened(k, p, rs).value;
    RemainingAlike(k, t, p, u);
    WhatReturns(k, s, ops, u);
  }

  const PRINT := Fingerprint(1, 0, Some(Identity(1, [])))

  /** The window between the reads: a worker parks the finished copy of a one-file Move there.
      The file's records and its files are then both empty, with the item unresolved. */
  lemma OvertakenExample(k: Keys)
    requires k.key("d\\a") != []
    ensures Create(k, ONE).Some?
    ensures var s := Run(k, Create(k, ONE).value, [DoAcquire]);
      var op := DoParkRemoval(1, 5, false, PRINT, PRINT);
      var t := Run(k, s, [op]);
      && Inv(k, s) && Exportable(k, s) && UsedRun(k, s, [op])
      && Removals(s.parked) == [] && Export(t).files == [] && |InFlight(t)| == 1
      && forall p :: p in t.parked ==> Recoverable(p)
  {
    hide Inv, Create, Export, Removals, InFlight, Exportable, Orderly;
    OneCreated(k);
    var c := Create(k, ONE).value;
    var acquire, park := DoAcquire, DoParkRemoval(1, 5, false, PRINT, PRINT);
    OneRun(k, c, acquire);
    var s := Apply(k, c, acquire);
    OneRun(k, s, park);
    OneFinished(k, c);
    StepKeeps(k, c, acquire);
  }

  lemma OneRun(k: Keys, s: Plan, op: Op)
    ensures Run(k, s, [op]) == Apply(k, s, op)
    ensures Allowed(s, op) && Orderly(k, op) && Honest(s, op) ==> UsedRun(k, s, [op])
  {
    hide Apply;
    assert [op][1..] == [];
    assert Run(k, Apply(k, s, op), []) == Apply(k, s, op) && UsedRun(k, Apply(k, s, op), []);
  }

  lemma OneFinished(k: Keys, c: Plan)
    requires c.pending == ONE.files && c.active == [] && c.parked == [] && k.key("d\\a") != []
    ensures var s, op := Apply(k, c, DoAcquire), DoParkRemoval(1, 5, false, PRINT, PRINT);
      var t := Apply(k, s, op);
      && Exportable(k, s) && Allowed(s, op) && Orderly(k, op) && Honest(s, op)
      && Removals(s.parked) == [] && Export(t).files == [] && |InFlight(t)| == 1
      && forall p :: p in t.parked ==> Recoverable(p)
  {
    var s := Apply(k, c, DoAcquire);
    assert s.active == [ONE.files[0]] && s.pending == [] && s.parked == [];
    assert Find(s.active, 1) == 0 && s.active[0].id == 1;
    var t := Apply(k, s, DoParkRemoval(1, 5, false, PRINT, PRINT));
    assert t.active == [] && t.pending == [] && |t.parked| == 1;
    assert t.parked[0].recovery.Some? && t.parked[0].incident.action == RetrySourceRemoval;
    assert t.parked[1..] == [] && Transfers(t.parked[1..]) == [];
  }
}
