/** A checkpoint that goes through a queue file: exported, saved, loaded, rebuilt. */
module SavedCheckpoints {
  import opened Items
  import opened Sequences
  import opened LivePlan
  import opened PlanInvariant
  import opened PlanEntry
  import opened PlanRuns
  import opened Checkpoint
  import opened CheckpointReads
  import Wire
  import Archive = QueueArchive

  /** How paths are spelt in 16-bit units, and read back. */
  datatype Spelling = Spelling(text: Path -> Wire.Text, path: Wire.Text -> Path)

  ghost predicate Faithful(sp: Spelling) { forall p :: sp.path(sp.text(p)) == p }

  /** Identities are 128 bits, the other fields of a record 32 or 64. */
  predicate WidePrint(f: Fingerprint) {
    && f.size <= MAX64 && -0x8000_0000_0000_0000 <= f.writeTime < 0x8000_0000_0000_0000
    && (f.identity.Some? ==>
          f.identity.value.volume <= MAX64 && |f.identity.value.file| == 16 && forall b :: b in f.identity.value.file ==> b < 256)
  }

  predicate Wide(r: Recovery) {
    -0x8000_0000 <= r.hresult < 0x8000_0000 && r.attempts <= MAX32 && WidePrint(r.sourcePrint) && WidePrint(r.destinationPrint)
  }

  // ---- what is archived, and what is made of it again ----

  function ArchivedOperation(o: FileOperation): Archive.Operation { if o == Copy then Archive.Copy else Archive.Move }
  function RestoredOperation(o: Archive.Operation): FileOperation { if o == Archive.Copy then Copy else Move }

  function ArchivedFile(sp: Spelling, f: File): Archive.PlanFile {
    Archive.PlanFile(Archive.Fit64(f.id), sp.text(f.source), sp.text(f.destination), Archive.Fit64(f.size), f.sensitive)
  }

  function RestoredFile(sp: Spelling, f: Archive.PlanFile): File {
    File(f.id, sp.path(f.source), sp.path(f.destination), f.size, f.sensitive)
  }

  function ArchivedFiles(sp: Spelling, files: seq<File>): seq<Archive.PlanFile> {
    seq(|files|, i requires 0 <= i < |files| => ArchivedFile(sp, files[i]))
  }

  function ArchivedPlan(sp: Spelling, p: CopyPlan): Archive.Plan {
    Archive.Plan(
      seq(|p.directories|, i requires 0 <= i < |p.directories| =>
        Archive.PlanDirectory(sp.text(p.directories[i].destination), sp.text(p.directories[i].source))),
      ArchivedFiles(sp, p.files),
      seq(|p.roots|, i requires 0 <= i < |p.roots| => sp.text(p.roots[i])),
      sp.text(p.root), ArchivedOperation(p.operation), p.totalBytes, p.largest, [])
  }

  function RestoredPlan(sp: Spelling, p: Archive.Plan): CopyPlan {
    CopyPlan(
      seq(|p.directories|, i requires 0 <= i < |p.directories| =>
        Directory(sp.path(p.directories[i].destination), sp.path(p.directories[i].source))),
      seq(|p.files|, i requires 0 <= i < |p.files| => RestoredFile(sp, p.files[i])),
      seq(|p.roots|, i requires 0 <= i < |p.roots| => sp.path(p.roots[i])),
      sp.path(p.root), RestoredOperation(p.operation), p.totalBytes, p.largest, [])
  }

  function ArchivedId(file: seq<nat>): Archive.FileId {
    if |file| == 16 then seq(16, i requires 0 <= i < 16 => if file[i] < 256 then file[i] else 0) else Archive.NO_ID
  }

  function ArchivedPrint(f: Fingerprint): Archive.Print {
    match f.identity
    case None => Archive.Print(Archive.Fit64(f.size), Archive.FitTime(f.writeTime), false, 0, Archive.NO_ID)
    case Some(id) =>
      Archive.Print(Archive.Fit64(f.size), Archive.FitTime(f.writeTime), true, Archive.Fit64(id.volume), ArchivedId(id.file))
  }

  function RestoredPrint(p: Archive.Print): Fingerprint {
    Fingerprint(p.size, p.time, if p.hasIdentity then Some(Identity(p.volume, p.file)) else None)
  }

  function ArchivedRemoval(sp: Spelling, r: Recovery): Archive.Removal {
    Archive.Removal(Archive.Fit64(r.fileId), Archive.FitCode(r.hresult), sp.text(r.source), sp.text(r.destination), r.preexisted,
                    Archive.Fit32(r.attempts), ArchivedPrint(r.sourcePrint), ArchivedPrint(r.destinationPrint))
  }

  function RestoredRemoval(sp: Spelling, r: Archive.Removal): Recovery {
    Recovery(r.fileId, r.hresult, sp.path(r.source), sp.path(r.destination), r.preexisted, r.attempts,
             RestoredPrint(r.sourcePrint), RestoredPrint(r.destinationPrint))
  }

  function ArchivedRemovals(sp: Spelling, rs: seq<Recovery>): seq<Archive.Removal> {
    seq(|rs|, i requires 0 <= i < |rs| => ArchivedRemoval(sp, rs[i]))
  }

  function RestoredRemovals(sp: Spelling, rs: seq<Archive.Removal>): seq<Recovery> {
    seq(|rs|, i requires 0 <= i < |rs| => RestoredRemoval(sp, rs[i]))
  }

  /** The archive of a session's plan and the jobs that wait behind it. The removals are read
      first, from `s`; by the time the rest is read the plan may have become `t`. */
  function Saved(sp: Spelling, s: Plan, t: Plan, appends: seq<Archive.Job>, queued: seq<Archive.Job>): Archive.Archive {
    Archive.Archive(Some(ArchivedPlan(sp, Export(t))), appends, queued, ArchivedRemovals(sp, Removals(s.parked)))
  }

  // ---- a plan and its records come back ----

  lemma IdBack(file: seq<nat>)
    requires |file| == 16 && forall b :: b in file ==> b < 256
    ensures ArchivedId(file) == file
  {
    var back: seq<nat> := ArchivedId(file);
    assert |back| == 16;
    forall i | 0 <= i < 16
      ensures back[i] == file[i]
    {
      assert file[i] in file;
    }
  }

  lemma PrintBack(f: Fingerprint)
    requires WidePrint(f)
    ensures RestoredPrint(ArchivedPrint(f)) == f
  {
    if f.identity.Some? { IdBack(f.identity.value.file); }
  }

  lemma RemovalBack(sp: Spelling, r: Recovery)
    requires Faithful(sp) && Wide(r)
    ensures RestoredRemoval(sp, Archive.ResetRemoval(ArchivedRemoval(sp, r))) == r.(fileId := 0)
    ensures ArchivedRemoval(sp, r).attempts == r.attempts
  {
    PrintBack(r.sourcePrint);
    PrintBack(r.destinationPrint);
    PrintReset(r.sourcePrint);
    PrintReset(r.destinationPrint);
  }

  lemma PrintReset(f: Fingerprint)
    ensures Archive.PrintOf(Archive.RawPrintOf(ArchivedPrint(f))) == ArchivedPrint(f)
  {
  }

  lemma RemovalsBack(sp: Spelling, rs: seq<Recovery>)
    requires Faithful(sp) && forall r :: r in rs ==> Wide(r)
    ensures SameButIds(RestoredRemovals(sp, Archive.Each(Archive.ResetRemoval, ArchivedRemovals(sp, rs))), rs)
  {
    hide Archive.ResetRemoval, ArchivedRemoval, RestoredRemoval, Wide;
    var back := RestoredRemovals(sp, Archive.Each(Archive.ResetRemoval, ArchivedRemovals(sp, rs)));
    forall i | 0 <= i < |rs|
      ensures back[i] == rs[i].(fileId := back[i].fileId)
    {
      assert rs[i] in rs;
      RemovalBack(sp, rs[i]);
    }
  }

  lemma {:induction false} SizesSum(sp: Spelling, files: seq<File>)
    requires forall f :: f in files ==> f.size <= MAX64
    ensures var raws := Archive.RawFiles(ArchivedFiles(sp, files));
      Archive.SizeSum(raws) == Sum(files, SizeOf) && Archive.SizeMax(raws) == Largest(files)
  {
    var all := Archive.RawFiles(ArchivedFiles(sp, files));
    if files != [] {
      var front := Front(files);
      SizesSum(sp, front);
      assert all[..|all| - 1] == Archive.RawFiles(ArchivedFiles(sp, front));
      assert files == front + [Last(files)];
      SumSnoc(front, Last(files), SizeOf);
      LargestSnoc(front, Last(files));
    }
  }

  lemma FileBack(sp: Spelling, p: CopyPlan, i: nat)
    requires Faithful(sp) && i < |p.files| <= MAX64 && p.files[i].size <= MAX64 && p.files[i].id == i + 1
    ensures var back := RestoredPlan(sp, Archive.ResetPlan(ArchivedPlan(sp, p)));
      |back.files| == |p.files| && back.files[i] == p.files[i].(sensitive := None)
  {
  }

  /** What comes back of a plan: all but its policies and source folders. */
  lemma PlanBack(sp: Spelling, p: CopyPlan)
    requires Faithful(sp) && |p.files| <= MAX64 && p.failures == []
    requires (forall f :: f in p.files ==> f.size <= MAX64) && forall i :: 0 <= i < |p.files| ==> p.files[i].id == i + 1
    requires p.totalBytes == Sum(p.files, SizeOf) && p.largest == Largest(p.files)
    ensures var back := RestoredPlan(sp, Archive.ResetPlan(ArchivedPlan(sp, p)));
      && |back.files| == |p.files| && |back.directories| == |p.directories|
      && (forall i :: 0 <= i < |p.files| ==> back.files[i] == p.files[i].(sensitive := None))
      && (forall i :: 0 <= i < |p.directories| ==> back.directories[i].destination == p.directories[i].destination)
      && back.(files := p.files, directories := p.directories) == p
  {
    var back := RestoredPlan(sp, Archive.ResetPlan(ArchivedPlan(sp, p)));
    SizesSum(sp, p.files);
    forall i | 0 <= i < |p.files|
      ensures |back.files| == |p.files| && back.files[i] == p.files[i].(sensitive := None)
    {
      assert p.files[i] in p.files;
      FileBack(sp, p, i);
    }
    assert back.roots == p.roots;
  }

  // ---- the whole way ----

  ghost predicate Savable(sp: Spelling, s: Plan) {
    Faithful(sp) && forall r :: r in Removals(s.parked) ==> Wide(r)
  }

  lemma ExportBack(k: Keys, sp: Spelling, s: Plan)
    requires Inv(k, s) && Faithful(sp) && forall f :: f in Remaining(s) ==> k.policy(f.destination).Some?
    ensures Describes(k, RestoredPlan(sp, Archive.ResetPlan(ArchivedPlan(sp, Export(s)))), s)
    ensures Archive.SizeSum(Archive.RawFiles(ArchivedPlan(sp, Export(s)).files)) <= MAX64
  {
    var e := Export(s);
    ExportWide(k, s);
    hide Inv, Remaining, Export, ArchivedPlan, RestoredPlan, Archive.ResetPlan;
    PlanBack(sp, e);
    SizesSum(sp, e.files);
    ArchivedAs(sp, e);
    BackDescribes(k, s, RestoredPlan(sp, Archive.ResetPlan(ArchivedPlan(sp, e))));
  }

  lemma ArchivedAs(sp: Spelling, p: CopyPlan)
    ensures ArchivedPlan(sp, p).files == ArchivedFiles(sp, p.files)
  {
  }

  /** An export fits the fields of a queue file. */
  lemma ExportWide(k: Keys, s: Plan)
    requires Inv(k, s)
    ensures var e := Export(s);
      && |e.files| <= MAX64 && e.failures == [] && (forall f :: f in e.files ==> f.size <= MAX64)
      && (forall i :: 0 <= i < |e.files| ==> e.files[i].id == i + 1)
      && e.totalBytes == Sum(e.files, SizeOf) <= MAX64 && e.largest == Largest(e.files)
  {
    RemainingFits(k, s);
    CountFits(k, s);
    NumberedSums(s);
    hide Inv, Remaining;
    forall f | f in Export(s).files
      ensures f.size <= MAX64
    {
      SumMember(Export(s).files, f, SizeOf);
    }
  }

  lemma BackDescribes(k: Keys, s: Plan, back: CopyPlan)
    requires var e := Export(s);
      && |back.files| == |e.files| && |back.directories| == |e.directories|
      && (forall i :: 0 <= i < |e.files| ==> back.files[i] == e.files[i].(sensitive := None))
      && (forall i :: 0 <= i < |e.directories| ==> back.directories[i].destination == e.directories[i].destination)
      && back.(files := e.files, directories := e.directories) == e
    requires forall f :: f in Remaining(s) ==> k.policy(f.destination).Some?
    ensures Describes(k, back, s)
  {
    forall f | f in back.files
      ensures WithPolicy(k, f).Some?
    {
      var i :| 0 <= i < |back.files| && back.files[i] == f;
      assert Remaining(s)[i] in Remaining(s);
    }
    hide Remaining;
  }

  /** The archive describes the work remaining in `t` and the removals of `s`, and the plan it
      opens as has them all again. */
  ghost predicate Returns(k: Keys, sp: Spelling, s: Plan, t: Plan, a: Archive.Archive) {
    && a.current.Some?
    && var p, rs := RestoredPlan(sp, a.current.value), RestoredRemovals(sp, a.removals);
    && Describes(k, p, t) && SameButIds(rs, Removals(s.parked))
    && Reopened(k, p, rs).Some?
    && var u := Reopened(k, p, rs).value;
    && Inv(k, u) && Export(u) == Described(k, p) && SameButIds(Removals(u.parked), Removals(s.parked))
    && NothingLostIff(s, t, u) && OnlySettledAdded(s, t, u)
  }

  /** A checkpoint that was saved, its removals read from `s` and its files from the plan some
      run later, is loaded as a description of that later plan's remaining work and of the
      earlier removals. Rebuilt from them, short of 64-bit overflow, the plan has every item then
      unresolved exactly when none was parked for source removal in between, and besides only
      finished copies settled in between; a further checkpoint of it is the same but for the
      policies looked up anew and the source folders that are not kept. */
  lemma SavedCheckpointReturns(
      k: Keys, paths: Archive.Paths, sp: Spelling, s: Plan, ops: seq<Op>, t: Plan,
      appends: seq<Archive.Job>, queued: seq<Archive.Job>)
    requires Inv(k, s) && Exportable(k, s) && Savable(sp, s)
    requires UsedRun(k, s, ops) && t == Run(k, s, ops)
    requires forall f :: f in Remaining(t) ==> k.policy(f.destination).Some?
    requires Sum(Remaining(t), WeightOf) + RestoredWeight(Removals(s.parked)) <= MAX64
    requires Archive.Savable(paths, Saved(sp, s, t, appends, queued))
    requires |Archive.Image(paths, Saved(sp, s, t, appends, queued))| <= Archive.MAX_ARCHIVE
    ensures var loaded := Archive.Loaded(paths, Archive.Image(paths, Saved(sp, s, t, appends, queued)));
      loaded.Some? && Returns(k, sp, s, t, loaded.value)
  {
    var a := Saved(sp, s, t, appends, queued);
    hide Inv, Exportable, Archive.Savable, Archive.Image, Archive.Loaded, Reopened, Removals, Describes, Export, Remaining,
         InFlight, ArchivedPlan, RestoredPlan, Archive.ResetPlan, Described, UsedRun, Run, NothingLostIff, OnlySettledAdded;
    UsedKeeps(k, s, ops);
    ExportBack(k, sp, t);
    RemovalsBack(sp, Removals(s.parked));
    SavedLoadable(k, sp, s, t, appends, queued);
    Archive.LoadUndoesSave(paths, a);
    var p := RestoredPlan(sp, Archive.ResetPlan(ArchivedPlan(sp, Export(t))));
    var rs := RestoredRemovals(sp, Archive.Each(Archive.ResetRemoval, ArchivedRemovals(sp, Removals(s.parked))));
    ReadsReturn(k, s, ops, p, rs);
  }

  lemma SavedLoadable(k: Keys, sp: Spelling, s: Plan, t: Plan, appends: seq<Archive.Job>, queued: seq<Archive.Job>)
    requires Inv(k, s) && Exportable(k, s) && Savable(sp, s)
    requires Archive.SizeSum(Archive.RawFiles(ArchivedPlan(sp, Export(t)).files)) <= MAX64
    ensures Archive.Loadable(Saved(sp, s, t, appends, queued))
  {
    hide Inv, Exportable, ArchivedPlan, Export, Removals, Archive.SizeSum;
    RemovalKeys(k, s);
    var rs := Removals(s.parked);
    forall i | 0 <= i < |rs|
      ensures ArchivedRemovals(sp, rs)[i].attempts >= 1
    {
      assert rs[i] in rs && Fit(k, rs[i]);
      RemovalBack(sp, rs[i]);
    }
  }

  // ---- what is loaded can be trusted with its totals ----

  function RestoredFiles(sp: Spelling, files: seq<Archive.PlanFile>): seq<File> {
    seq(|files|, i requires 0 <= i < |files| => RestoredFile(sp, files[i]))
  }

  lemma {:induction false} LoadedSizes(sp: Spelling, files: seq<Archive.PlanFile>)
    ensures Sum(RestoredFiles(sp, files), SizeOf) == Archive.SizeSum(Archive.RawFiles(files))
  {
    var back, raws := RestoredFiles(sp, files), Archive.RawFiles(files);
    if files != [] {
      LoadedSizes(sp, Front(files));
      assert back == RestoredFiles(sp, Front(files)) + [RestoredFile(sp, Last(files))];
      assert raws[..|raws| - 1] == Archive.RawFiles(Front(files));
      SumSnoc(RestoredFiles(sp, Front(files)), RestoredFile(sp, Last(files)), SizeOf);
    }
  }

  /** Whatever queue file is loaded, its plan declares its own byte total and numbers its
      files, so that the constructor can take both as they are. */
  lemma LoadedDeclares(paths: Archive.Paths, sp: Spelling, bytes: Wire.Bytes)
    requires Archive.Loaded(paths, bytes).Some? && Archive.Loaded(paths, bytes).value.current.Some?
    ensures var p := RestoredPlan(sp, Archive.Loaded(paths, bytes).value.current.value); Declared(p) && Identified(p)
  {
    hide Archive.Loaded, Archive.Image, Archive.Savable, Archive.Loadable, Archive.Reset, Archive.ResetPlan, RestoredPlan, Declared, Identified;
    Archive.LoadedResaves(paths, bytes);
    LoadedPlan(paths, Archive.Loaded(paths, bytes).value);
    PlanDeclares(sp, Archive.Loaded(paths, bytes).value.current.value);
  }

  lemma LoadedPlan(paths: Archive.Paths, a: Archive.Archive)
    requires Archive.Savable(paths, a) && Archive.Reset(a) == a && a.current.Some?
    ensures Archive.ResetPlan(a.current.value) == a.current.value && |a.current.value.files| <= Archive.MAX_ENTRIES
  {
    hide Archive.ResetPlan, Archive.Each;
  }

  lemma PlanDeclares(sp: Spelling, plan: Archive.Plan)
    requires Archive.ResetPlan(plan) == plan && |plan.files| <= Archive.MAX_ENTRIES
    ensures var p := RestoredPlan(sp, plan); Declared(p) && Identified(p)
  {
    LoadedSizes(sp, plan.files);
    assert RestoredPlan(sp, plan).files == RestoredFiles(sp, plan.files);
    assert forall i :: 0 <= i < |plan.files| ==> plan.files[i].id == i + 1;
  }
}
