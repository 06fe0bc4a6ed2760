/** The queue file: what an archive keeps of a session's queue, and its format. */
module QueueArchive {
  import opened Wire
  import opened Sequences

  type U32 = n: nat | n <= MAX32
  type U64 = n: nat | n <= MAX64
  type I32 = x: int | -0x8000_0000 <= x < 0x8000_0000
  type I64 = x: int | -0x8000_0000_0000_0000 <= x < 0x8000_0000_0000_0000
  type FileId = b: Bytes | |b| == 16 witness [0, 0, 0, 0, 0, 0, 0, 0, 0, 0, 0, 0, 0, 0, 0, 0]

  const MAGIC: Bytes := [0x56, 0x43, 0x51, 0x55, 0x45, 0x55, 0x45, 0x31]
  const FORMAT_VERSION: U32 := 3
  const MAX_CHARS: nat := 32767
  const MAX_ENTRIES: nat := 250_000
  const MAX_ARCHIVE: nat := 256 * 1024 * 1024

  // ---- what is archived ----

  datatype Operation = Copy | Move
  datatype Layout = PreserveSourceFolder | ContentsOnly
  datatype JobState = Pending | Running | Paused | Completed | Failed | Cancelled

  datatype PlanFile = PlanFile(id: U64, source: Text, destination: Text, size: U64, sensitive: Option<bool>)
  datatype PlanDirectory = PlanDirectory(destination: Text, source: Text)
  datatype Unplanned = Unplanned(source: Text, destination: Text, hresult: I32)
  datatype Plan = Plan(
    directories: seq<PlanDirectory>, files: seq<PlanFile>, roots: seq<Text>, root: Text,
    operation: Operation, totalBytes: nat, largest: nat, failures: seq<Unplanned>)

  datatype Job = Job(
    id: U64, sources: seq<Text>, destination: Text, layout: Layout, operation: Operation, state: JobState, name: Text)

  datatype Print = Print(size: U64, time: I64, hasIdentity: bool, volume: U64, file: FileId)
  datatype Removal = Removal(
    fileId: U64, hresult: I32, source: Text, destination: Text, preexisted: bool, attempts: U32,
    sourcePrint: Print, destinationPrint: Print)

  datatype Archive = Archive(current: Option<Plan>, appends: seq<Job>, queued: seq<Job>, removals: seq<Removal>)

  /** How paths compare: absolute, climbing above themselves, inside or at another one. */
  datatype Paths = Paths(
    absolute: Text -> bool, climbs: Text -> bool, inside: (Text, Text) -> bool, same: (Text, Text) -> bool)

  // ---- what of it reaches the file ----

  /** A source, a destination and a size. */
  type RawFile = (Text, (Text, nat))
  type RawPlan = (Operation, (Text, (seq<Text>, (seq<Text>, seq<RawFile>))))
  type RawJob = (Text, (Layout, (Operation, (Text, seq<Text>))))
  type RawPrint = (nat, (int, Option<(nat, Bytes)>))
  type RawRemoval = (int, (Text, (Text, (bool, (nat, (RawPrint, RawPrint))))))

  function Size(f: RawFile): nat { f.1.1 }

  function SizeSum(fs: seq<RawFile>): nat { if fs == [] then 0 else SizeSum(fs[..|fs| - 1]) + Size(fs[|fs| - 1]) }

  function SizeMax(fs: seq<RawFile>): nat {
    if fs == [] then 0 else Larger(SizeMax(fs[..|fs| - 1]), Size(fs[|fs| - 1]))
  }

  function Larger(a: nat, b: nat): nat { if a >= b then a else b }
  function Fit64(n: nat): U64 { if n <= MAX64 then n else 0 }
  function Fit32(n: nat): U32 { if n <= MAX32 then n else 0 }

  /** Files get their ids from their places; case policies are found out again. */
  function FilesOf(fs: seq<RawFile>): seq<PlanFile> {
    seq(|fs|, i requires 0 <= i < |fs| => PlanFile(Fit64(i + 1), fs[i].0, fs[i].1.0, Fit64(fs[i].1.1), None))
  }

  function DirectoriesOf(ds: seq<Text>): seq<PlanDirectory> {
    seq(|ds|, i requires 0 <= i < |ds| => PlanDirectory(ds[i], []))
  }

  function RawFiles(fs: seq<PlanFile>): seq<RawFile> {
    seq(|fs|, i requires 0 <= i < |fs| => (fs[i].source, (fs[i].destination, fs[i].size)))
  }

  function RawDirectories(ds: seq<PlanDirectory>): seq<Text> {
    seq(|ds|, i requires 0 <= i < |ds| => ds[i].destination)
  }

  /** The plan as loading rebuilds it: totals counted again, no planning failures. */
  function PlanOf(r: RawPlan): Plan {
    var (operation, (root, (roots, (directories, files)))) := r;
    Plan(DirectoriesOf(directories), FilesOf(files), roots, root, operation, SizeSum(files), SizeMax(files), [])
  }

  function RawPlanOf(p: Plan): RawPlan {
    (p.operation, (p.root, (p.roots, (RawDirectories(p.directories), RawFiles(p.files)))))
  }

  function JobOf(r: RawJob): Job {
    var (destination, (layout, (operation, (name, sources)))) := r;
    Job(0, sources, destination, layout, operation, Pending, name)
  }

  function RawJobOf(j: Job): RawJob { (j.destination, (j.layout, (j.operation, (j.name, j.sources)))) }

  const NO_ID: FileId := [0, 0, 0, 0, 0, 0, 0, 0, 0, 0, 0, 0, 0, 0, 0, 0]

  function FitTime(x: int): I64 { if -0x8000_0000_0000_0000 <= x < 0x8000_0000_0000_0000 then x else 0 }
  function FitCode(x: int): I32 { if -0x8000_0000 <= x < 0x8000_0000 then x else 0 }

  function PrintOf(r: RawPrint): Print {
    match r.1.1
    case None => Print(Fit64(r.0), FitTime(r.1.0), false, 0, NO_ID)
    case Some(id) => Print(Fit64(r.0), FitTime(r.1.0), true, Fit64(id.0), if |id.1| == 16 then id.1 else NO_ID)
  }

  function RawPrintOf(p: Print): RawPrint { (p.size, (p.time, if p.hasIdentity then Some((p.volume, p.file)) else None)) }

  function RemovalOf(r: RawRemoval): Removal {
    var (hresult, (source, (destination, (preexisted, (attempts, (a, b)))))) := r;
    Removal(0, FitCode(hresult), source, destination, preexisted, Fit32(attempts), PrintOf(a), PrintOf(b))
  }

  function RawRemovalOf(r: Removal): RawRemoval {
    (r.hresult, (r.source, (r.destination, (r.preexisted, (r.attempts, (RawPrintOf(r.sourcePrint), RawPrintOf(r.destinationPrint)))))))
  }

  // ---- what loading gives back: everything not kept is reset ----

  function ResetPlan(p: Plan): Plan { PlanOf(RawPlanOf(p)) }
  function ResetJob(j: Job): Job { JobOf(RawJobOf(j)) }
  function ResetRemoval(r: Removal): Removal { RemovalOf(RawRemovalOf(r)) }

  function Each<T>(f: T -> T, xs: seq<T>): seq<T> { seq(|xs|, i requires 0 <= i < |xs| => f(xs[i])) }

  function Reset(a: Archive): Archive {
    Archive(if a.current.Some? then Some(ResetPlan(a.current.value)) else None,
            Each(ResetJob, a.appends), Each(ResetJob, a.queued), Each(ResetRemoval, a.removals))
  }

  /** The fields a queue file does not keep, and what becomes of them. */
  lemma ResetMeans(p: Plan, j: Job, r: Removal)
    ensures var q := ResetPlan(p);
      && q.operation == p.operation && q.root == p.root && q.roots == p.roots && q.failures == []
      && |q.files| == |p.files| && |q.directories| == |p.directories|
      && (forall i :: 0 <= i < |p.directories| ==> q.directories[i] == p.directories[i].(source := []))
      && (|p.files| <= MAX64 ==> forall i :: 0 <= i < |p.files| ==>
            q.files[i] == p.files[i].(id := i + 1, sensitive := None))
    ensures ResetJob(j) == j.(id := 0, state := Pending)
    ensures var q := ResetRemoval(r);
      && q == r.(fileId := 0, sourcePrint := q.sourcePrint, destinationPrint := q.destinationPrint)
      && q.sourcePrint == (if r.sourcePrint.hasIdentity then r.sourcePrint else r.sourcePrint.(volume := 0, file := NO_ID))
      && q.destinationPrint
         == (if r.destinationPrint.hasIdentity then r.destinationPrint else r.destinationPrint.(volume := 0, file := NO_ID))
  {
  }

  // ---- containment ----

  /** Every output lies inside the destination, every input inside a source root. */
  predicate Contained(k: Paths, r: RawPlan) {
    var (operation, (root, (roots, (directories, files)))) := r;
    && k.absolute(root) && !k.climbs(root)
    && (forall i :: 0 <= i < |roots| ==> k.absolute(roots[i]) && !k.climbs(roots[i]))
    && (forall i :: 0 <= i < |directories| ==> DirectoryInside(k, root, directories[i]))
    && (forall i :: 0 <= i < |files| ==> FileInside(k, root, roots, files[i]))
  }

  predicate DirectoryInside(k: Paths, root: Text, d: Text) { k.absolute(d) && !k.climbs(d) && k.inside(d, root) }

  predicate FileInside(k: Paths, root: Text, roots: seq<Text>, f: RawFile) {
    && k.absolute(f.1.0) && !k.climbs(f.1.0) && k.absolute(f.0) && !k.climbs(f.0)
    && !k.same(f.1.0, root) && k.inside(f.1.0, root)
    && exists i :: 0 <= i < |roots| && k.inside(f.0, roots[i])
  }

  // ---- the format ----

  function Path(): Codec<Text> { TextOf(MAX_CHARS) }
  function Count(): Codec<nat> { Only(Number(8), AtMost(MAX_ENTRIES)) }
  function PathList(): Codec<seq<Text>> { ListOf(Count(), Path()) }

  function ToOperation(): nat -> Operation { (n: nat) => if n == 0 then Copy else Move }
  function FromOperation(): Operation -> nat { (o: Operation) => if o == Copy then 0 else 1 }
  function ToLayout(): nat -> Layout { (n: nat) => if n == 0 then PreserveSourceFolder else ContentsOnly }
  function FromLayout(): Layout -> nat { (l: Layout) => if l == PreserveSourceFolder then 0 else 1 }
  function ToFlag(): nat -> bool { (n: nat) => n != 0 }
  function FromFlag(): bool -> nat { (b: bool) => if b then 1 else 0 }

  function OneOfTwo(): Codec<nat> { Only(Number(1), AtMost(1)) }

  /** Version 1 had no operations: everything was a copy. */
  function OperationByte(version: nat): Codec<Operation> {
    if version >= 2 then Normal(OneOfTwo(), ToOperation(), FromOperation()) else Nothing(Copy)
  }

  function LayoutByte(): Codec<Layout> { Normal(OneOfTwo(), ToLayout(), FromLayout()) }
  function Flag(): Codec<bool> { Normal(OneOfTwo(), ToFlag(), FromFlag()) }

  /** Two's complement. */
  function ToSigned(half: nat): nat -> int { (n: nat) => if n < half then n else n - 2 * half }
  function FromSigned(half: nat): int -> nat { (x: int) => if x >= 0 then x else if x + 2 * half >= 0 then x + 2 * half else 0 }
  function Signed32(): Codec<int> { Normal(Number(4), ToSigned(0x8000_0000), FromSigned(0x8000_0000)) }
  function Signed64(): Codec<int> { Normal(Number(8), ToSigned(0x8000_0000_0000_0000), FromSigned(0x8000_0000_0000_0000)) }

  function RawFileBytes(): Codec<RawFile> { Pair(Path(), Pair(Path(), Number(8))) }

  function RawPlanBytes(version: nat): Codec<RawPlan> {
    Pair(OperationByte(version), Pair(Path(), Pair(PathList(), Pair(PathList(), ListOf(Count(), RawFileBytes())))))
  }

  function Acceptable(k: Paths): RawPlan -> bool { (r: RawPlan) => SizeSum(r.1.1.1.1) <= MAX64 && Contained(k, r) }

  function ToPlan(): RawPlan -> Plan { (r: RawPlan) => PlanOf(r) }
  function FromPlan(): Plan -> RawPlan { (p: Plan) => RawPlanOf(p) }

  function PlanBytes(k: Paths, version: nat): Codec<Plan> {
    Normal(Only(RawPlanBytes(version), Acceptable(k)), ToPlan(), FromPlan())
  }

  function RawJobBytes(version: nat): Codec<RawJob> {
    Pair(Path(), Pair(LayoutByte(), Pair(OperationByte(version), Pair(Path(), PathList()))))
  }

  function ToJob(): RawJob -> Job { (r: RawJob) => JobOf(r) }
  function FromJob(): Job -> RawJob { (j: Job) => RawJobOf(j) }
  function JobBytes(version: nat): Codec<Job> { Normal(RawJobBytes(version), ToJob(), FromJob()) }
  function JobList(version: nat): Codec<seq<Job>> { ListOf(Count(), JobBytes(version)) }

  function PrintBytes(): Codec<RawPrint> { Pair(Number(8), Pair(Signed64(), Maybe(Pair(Number(8), Fixed(16))))) }

  function AtLeastOne(): nat -> bool { (n: nat) => n >= 1 }
  function Attempts(): Codec<nat> { Only(Number(4), AtLeastOne()) }

  function RawRemovalBytes(): Codec<RawRemoval> {
    Pair(Signed32(), Pair(Path(), Pair(Path(), Pair(Flag(), Pair(Attempts(), Pair(PrintBytes(), PrintBytes()))))))
  }

  function ToRemoval(): RawRemoval -> Removal { (r: RawRemoval) => RemovalOf(r) }
  function FromRemoval(): Removal -> RawRemoval { (r: Removal) => RawRemovalOf(r) }
  function RemovalBytes(): Codec<Removal> { Normal(RawRemovalBytes(), ToRemoval(), FromRemoval()) }

  /** Versions before 3 had no source removals. */
  function RemovalList(version: nat): Codec<seq<Removal>> {
    if version >= 3 then ListOf(Count(), RemovalBytes()) else Nothing([])
  }

  type Parts = (Option<Plan>, (seq<Job>, (seq<Job>, seq<Removal>)))

  function PartsOf(a: Archive): Parts { (a.current, (a.appends, (a.queued, a.removals))) }
  function ArchiveOf(p: Parts): Archive { Archive(p.0, p.1.0, p.1.1.0, p.1.1.1) }

  function Body(k: Paths, version: nat): Codec<Parts> {
    Pair(Maybe(PlanBytes(k, version)), Pair(JobList(version), Pair(JobList(version), RemovalList(version))))
  }

  /** The bytes of an archive in the present version. */
  function Image(k: Paths, a: Archive): Bytes { MAGIC + Little(FORMAT_VERSION, 4) + Body(k, FORMAT_VERSION).enc(PartsOf(a)) }

  /** What a file of any version loads as. */
  function Loaded(k: Paths, bs: Bytes): Option<Archive> {
    if |bs| > MAX_ARCHIVE || |bs| < 12 || bs[..8] != MAGIC then None
    else
      var version := Value(bs[8..12]);
      if version < 1 || version > 3 then None
      else match Body(k, version).dec(bs[12..])
        case Bad => None
        case Got(parts, rest) => if rest == [] then Some(ArchiveOf(parts)) else None
  }

  // ---- the laws of the parts ----

  lemma PathsLawful()
    ensures Lawful(Path()) && Lawful(Count()) && Lawful(PathList())
  {
    TextLawful(MAX_CHARS);
    NumberLawful(8);
    OnlyLawful(Number(8), AtMost(MAX_ENTRIES));
    ListLawful(Count(), Path());
  }

  lemma ChoicesLawful(version: nat)
    ensures Lawful(OperationByte(version)) && Lawful(LayoutByte()) && Lawful(Flag())
  {
    NumberLawful(1);
    OnlyLawful(Number(1), AtMost(1));
    NormalLawful(OneOfTwo(), ToOperation(), FromOperation());
    NormalLawful(OneOfTwo(), ToLayout(), FromLayout());
    NormalLawful(OneOfTwo(), ToFlag(), FromFlag());
    NothingLawful(Copy);
  }

  lemma SignedLawful()
    ensures Lawful(Signed32()) && Lawful(Signed64())
  {
    Spans();
    NumberLawful(4);
    NumberLawful(8);
    NormalLawful(Number(4), ToSigned(0x8000_0000), FromSigned(0x8000_0000));
    NormalLawful(Number(8), ToSigned(0x8000_0000_0000_0000), FromSigned(0x8000_0000_0000_0000));
  }

  lemma RawFilesLawful()
    ensures Lawful(RawFileBytes()) && Lawful(ListOf(Count(), RawFileBytes()))
  {
    PathsLawful();
    NumberLawful(8);
    PairLawful(Path(), Number(8));
    PairLawful(Path(), Pair(Path(), Number(8)));
    ListLawful(Count(), RawFileBytes());
  }

  lemma RawPlanLawful(version: nat)
    ensures Lawful(RawPlanBytes(version))
  {
    PathsLawful();
    ChoicesLawful(version);
    RawFilesLawful();
    var files := ListOf(Count(), RawFileBytes());
    PairLawful(PathList(), files);
    PairLawful(PathList(), Pair(PathList(), files));
    PairLawful(Path(), Pair(PathList(), Pair(PathList(), files)));
    PairLawful(OperationByte(version), Pair(Path(), Pair(PathList(), Pair(PathList(), files))));
  }

  /** Sizes that reach the file fit 64 bits. */
  lemma RawPlanKept(version: nat, r: RawPlan)
    requires RawPlanBytes(version).ok(r)
    ensures RawPlanOf(PlanOf(r)) == r
  {
    var (operation, (root, (roots, (directories, files)))) := r;
    Spans();
    FilesFit(files);
    assert RawDirectories(DirectoriesOf(directories)) == directories;
    assert RawFiles(FilesOf(files)) == files;
  }

  lemma FilesFit(files: seq<RawFile>)
    requires ListOf(Count(), RawFileBytes()).ok(files)
    ensures forall i :: 0 <= i < |files| ==> files[i].1.1 <= MAX64
    ensures |files| <= MAX_ENTRIES
  {
    Spans();
    forall i | 0 <= i < |files|
      ensures files[i].1.1 <= MAX64
    {
      assert RawFileBytes().ok(files[i]);
    }
  }

  lemma PlanLawful(k: Paths, version: nat)
    ensures Lawful(PlanBytes(k, version))
  {
    RawPlanLawful(version);
    OnlyLawful(RawPlanBytes(version), Acceptable(k));
    forall r | Only(RawPlanBytes(version), Acceptable(k)).ok(r)
      ensures FromPlan()(ToPlan()(r)) == r
    {
      RawPlanKept(version, r);
    }
    NormalLawful(Only(RawPlanBytes(version), Acceptable(k)), ToPlan(), FromPlan());
  }

  lemma JobLawful(version: nat)
    ensures Lawful(JobBytes(version)) && Lawful(JobList(version))
  {
    PathsLawful();
    ChoicesLawful(version);
    PairLawful(Path(), PathList());
    PairLawful(OperationByte(version), Pair(Path(), PathList()));
    PairLawful(LayoutByte(), Pair(OperationByte(version), Pair(Path(), PathList())));
    PairLawful(Path(), Pair(LayoutByte(), Pair(OperationByte(version), Pair(Path(), PathList()))));
    NormalLawful(RawJobBytes(version), ToJob(), FromJob());
    ListLawful(Count(), JobBytes(version));
  }

  lemma PrintLawful()
    ensures Lawful(PrintBytes())
  {
    SignedLawful();
    NumberLawful(8);
    FixedLawful(16);
    PairLawful(Number(8), Fixed(16));
    MaybeLawful(Pair(Number(8), Fixed(16)));
    PairLawful(Signed64(), Maybe(Pair(Number(8), Fixed(16))));
    PairLawful(Number(8), Pair(Signed64(), Maybe(Pair(Number(8), Fixed(16)))));
  }

  lemma PrintKept(r: RawPrint)
    requires PrintBytes().ok(r)
    ensures RawPrintOf(PrintOf(r)) == r
  {
    Spans();
    SignedRange(r.1.0);
    assert Number(8).ok(r.0) && Signed64().ok(r.1.0) && Maybe(Pair(Number(8), Fixed(16))).ok(r.1.1);
    if r.1.1.Some? { assert Pair(Number(8), Fixed(16)).ok(r.1.1.value); }
  }

  lemma SignedRange(x: int)
    ensures Signed64().ok(x) <==> -0x8000_0000_0000_0000 <= x < 0x8000_0000_0000_0000
    ensures Signed32().ok(x) <==> -0x8000_0000 <= x < 0x8000_0000
  {
    Spans();
  }

  lemma RemovalLawful(version: nat)
    ensures Lawful(RemovalBytes()) && Lawful(RemovalList(version))
  {
    PathsLawful();
    ChoicesLawful(3);
    SignedLawful();
    PrintLawful();
    NumberLawful(4);
    OnlyLawful(Number(4), AtLeastOne());
    var prints := Pair(PrintBytes(), PrintBytes());
    PairLawful(PrintBytes(), PrintBytes());
    PairLawful(Attempts(), prints);
    PairLawful(Flag(), Pair(Attempts(), prints));
    PairLawful(Path(), Pair(Flag(), Pair(Attempts(), prints)));
    PairLawful(Path(), Pair(Path(), Pair(Flag(), Pair(Attempts(), prints))));
    PairLawful(Signed32(), Pair(Path(), Pair(Path(), Pair(Flag(), Pair(Attempts(), prints)))));
    forall r | RawRemovalBytes().ok(r)
      ensures FromRemoval()(ToRemoval()(r)) == r
    {
      RemovalKept(r);
    }
    NormalLawful(RawRemovalBytes(), ToRemoval(), FromRemoval());
    ListLawful(Count(), RemovalBytes());
    NothingLawful<seq<Removal>>([]);
  }

  lemma RemovalKept(r: RawRemoval)
    requires RawRemovalBytes().ok(r)
    ensures RawRemovalOf(RemovalOf(r)) == r
  {
    var (hresult, (source, (destination, (preexisted, (attempts, (a, b)))))) := r;
    Spans();
    assert Signed32().ok(hresult) && Attempts().ok(attempts) && PrintBytes().ok(a) && PrintBytes().ok(b);
    SignedRange(hresult);
    PrintKept(a);
    PrintKept(b);
  }

  lemma BodyLawful(k: Paths, version: nat)
    ensures Lawful(Body(k, version))
  {
    PlanLawful(k, version);
    JobLawful(version);
    RemovalLawful(version);
    MaybeLawful(PlanBytes(k, version));
    PairLawful(JobList(version), RemovalList(version));
    PairLawful(JobList(version), Pair(JobList(version), RemovalList(version)));
    PairLawful(Maybe(PlanBytes(k, version)), Pair(JobList(version), Pair(JobList(version), RemovalList(version))));
  }

  // ---- what is saved, and what a saved file loads as ----

  predicate Short(t: Text) { |t| <= MAX_CHARS }
  predicate AllShort(ts: seq<Text>) { |ts| <= MAX_ENTRIES && forall i :: 0 <= i < |ts| ==> Short(ts[i]) }

  predicate PlanSavable(k: Paths, p: Plan) {
    && Contained(k, RawPlanOf(p)) && Short(p.root) && AllShort(p.roots) && AllShort(RawDirectories(p.directories))
    && |p.files| <= MAX_ENTRIES
    && forall i :: 0 <= i < |p.files| ==> Short(p.files[i].source) && Short(p.files[i].destination)
  }

  predicate JobSavable(j: Job) { Short(j.destination) && Short(j.name) && AllShort(j.sources) }

  predicate JobsSavable(js: seq<Job>) { |js| <= MAX_ENTRIES && forall i :: 0 <= i < |js| ==> JobSavable(js[i]) }

  predicate RemovalSavable(r: Removal) { Short(r.source) && Short(r.destination) }

  /** What saving accepts, the disk permitting. */
  predicate Savable(k: Paths, a: Archive) {
    && (a.current.Some? ==> PlanSavable(k, a.current.value)) && JobsSavable(a.appends) && JobsSavable(a.queued)
    && |a.removals| <= MAX_ENTRIES && forall i :: 0 <= i < |a.removals| ==> RemovalSavable(a.removals[i])
  }

  /** What loading asks beyond that: a plan whose sizes add up within 64 bits, and removals
      that were attempted. */
  predicate Loadable(a: Archive) {
    && (a.current.Some? ==> SizeSum(RawFiles(a.current.value.files)) <= MAX64)
    && forall i :: 0 <= i < |a.removals| ==> a.removals[i].attempts >= 1
  }

  lemma ListFits(ts: seq<Text>)
    ensures AllShort(ts) <==> PathList().ok(ts)
    ensures forall t :: Short(t) <==> Path().ok(t)
  {
    Spans();
    forall t
      ensures Short(t) <==> Path().ok(t)
    {
    }
    assert Count().ok(|ts|) <==> |ts| <= MAX_ENTRIES;
    if AllShort(ts) { assert forall i :: 0 <= i < |ts| ==> Path().ok(ts[i]); }
    if PathList().ok(ts) {
      forall i | 0 <= i < |ts|
        ensures Short(ts[i])
      {
        assert Path().ok(ts[i]);
      }
    }
  }

  lemma ChoicesFit(version: nat)
    ensures OperationByte(version).ok(Copy) && (version >= 2 ==> OperationByte(version).ok(Move))
    ensures forall l :: LayoutByte().ok(l)
    ensures forall b :: Flag().ok(b)
  {
    Spans();
  }

  lemma FilesSavable(fs: seq<PlanFile>)
    requires |fs| <= MAX_ENTRIES && forall i :: 0 <= i < |fs| ==> Short(fs[i].source) && Short(fs[i].destination)
    ensures ListOf(Count(), RawFileBytes()).ok(RawFiles(fs))
  {
    Spans();
    ListFits([]);
    forall i | 0 <= i < |fs|
      ensures RawFileBytes().ok(RawFiles(fs)[i])
    {
    }
    assert Count().ok(|fs|);
  }

  lemma PlanFits(k: Paths, p: Plan)
    requires PlanSavable(k, p)
    ensures RawPlanBytes(3).ok(RawPlanOf(p))
  {
    ChoicesFit(3);
    ListFits(p.roots);
    ListFits(RawDirectories(p.directories));
    FilesSavable(p.files);
    hide Contained, OperationByte, Path, PathList, Count, RawFileBytes;
  }

  lemma PlanResets(k: Paths, p: Plan)
    requires PlanSavable(k, p) && SizeSum(RawFiles(p.files)) <= MAX64
    ensures var c := PlanBytes(k, 3); c.ok(ResetPlan(p)) && c.enc(ResetPlan(p)) == c.enc(p)
  {
    PlanFits(k, p);
    RawPlanKept(3, RawPlanOf(p));
    hide Contained, RawPlanBytes;
  }

  lemma JobResets(j: Job)
    requires JobSavable(j)
    ensures var c := JobBytes(3); c.ok(ResetJob(j)) && c.enc(ResetJob(j)) == c.enc(j)
  {
    ChoicesFit(3);
    ListFits(j.sources);
    hide OperationByte, LayoutByte, Path, PathList;
    assert RawJobBytes(3).ok(RawJobOf(j));
  }

  lemma PrintFits(p: Print)
    ensures PrintBytes().ok(RawPrintOf(p))
  {
    Spans();
    SignedRange(p.time);
    hide Signed64;
  }

  lemma RemovalResets(r: Removal)
    requires RemovalSavable(r) && r.attempts >= 1
    ensures var c := RemovalBytes(); c.ok(ResetRemoval(r)) && c.enc(ResetRemoval(r)) == c.enc(r)
  {
    Spans();
    ChoicesFit(3);
    ListFits([]);
    SignedRange(r.hresult);
    PrintFits(r.sourcePrint);
    PrintFits(r.destinationPrint);
    assert Attempts().ok(r.attempts);
    hide Signed32, Path, Flag, Attempts, PrintBytes;
    assert RawRemovalBytes().ok(RawRemovalOf(r));
    RemovalKept(RawRemovalOf(r));
  }

  lemma {:induction false} EachResets<T>(c: Codec<T>, f: T -> T, xs: seq<T>)
    requires forall i :: 0 <= i < |xs| ==> c.enc(f(xs[i])) == c.enc(xs[i])
    ensures EncMany(c, Each(f, xs)) == EncMany(c, xs)
  {
    if xs != [] {
      assert Each(f, xs)[1..] == Each(f, xs[1..]);
      EachResets(c, f, xs[1..]);
    }
  }

  lemma JobsReset(js: seq<Job>)
    requires JobsSavable(js)
    ensures var c := JobList(3); c.ok(Each(ResetJob, js)) && c.enc(Each(ResetJob, js)) == c.enc(js)
  {
    Spans();
    hide JobBytes;
    var c := JobBytes(3);
    forall i | 0 <= i < |js|
      ensures c.ok(Each(ResetJob, js)[i]) && c.enc(ResetJob(js[i])) == c.enc(js[i])
    {
      JobResets(js[i]);
    }
    EachResets(c, ResetJob, js);
  }

  lemma RemovalsReset(rs: seq<Removal>)
    requires |rs| <= MAX_ENTRIES && forall i :: 0 <= i < |rs| ==> RemovalSavable(rs[i]) && rs[i].attempts >= 1
    ensures var c := RemovalList(3); c.ok(Each(ResetRemoval, rs)) && c.enc(Each(ResetRemoval, rs)) == c.enc(rs)
  {
    Spans();
    hide RemovalBytes;
    var c := RemovalBytes();
    forall i | 0 <= i < |rs|
      ensures c.ok(Each(ResetRemoval, rs)[i]) && c.enc(ResetRemoval(rs[i])) == c.enc(rs[i])
    {
      RemovalResets(rs[i]);
    }
    EachResets(c, ResetRemoval, rs);
  }

  lemma BodyForm(k: Paths, version: nat, p: Parts)
    ensures Body(k, version).ok(p)
            <==> (p.0.Some? ==> PlanBytes(k, version).ok(p.0.value)) && JobList(version).ok(p.1.0)
                 && JobList(version).ok(p.1.1.0) && RemovalList(version).ok(p.1.1.1)
    ensures Body(k, version).enc(p)
            == EncMaybe(PlanBytes(k, version), p.0)
               + (JobList(version).enc(p.1.0) + (JobList(version).enc(p.1.1.0) + RemovalList(version).enc(p.1.1.1)))
  {
    hide PlanBytes, JobList, RemovalList;
  }

  lemma BodyResets(k: Paths, a: Archive)
    requires Savable(k, a) && Loadable(a)
    ensures var c := Body(k, 3); c.ok(PartsOf(Reset(a))) && c.enc(PartsOf(Reset(a))) == c.enc(PartsOf(a))
  {
    hide PlanBytes, JobList, RemovalList, ResetPlan, ResetJob, ResetRemoval, Body, Each, PlanSavable, JobsSavable, RemovalSavable;
    BodyForm(k, 3, PartsOf(a));
    BodyForm(k, 3, PartsOf(Reset(a)));
    if a.current.Some? { PlanResets(k, a.current.value); }
    JobsReset(a.appends);
    JobsReset(a.queued);
    RemovalsReset(a.removals);
  }

  lemma HeaderRead(version: nat, body: Bytes)
    requires version <= MAX32
    ensures var bs := MAGIC + Little(version, 4) + body;
      |bs| >= 12 && bs[..8] == MAGIC && Value(bs[8..12]) == version && bs[12..] == body
  {
    Spans();
    LittleValue(version, 4);
    var bs := MAGIC + Little(version, 4) + body;
    assert bs[8..12] == Little(version, 4);
  }

  /** Loading a saved archive gives it back with exactly the fields reset that a queue file
      does not keep, provided its sizes add up, its removals were attempted and the file is
      within the limit for loading. */
  lemma LoadUndoesSave(k: Paths, a: Archive)
    requires Savable(k, a) && Loadable(a) && |Image(k, a)| <= MAX_ARCHIVE
    ensures Loaded(k, Image(k, a)) == Some(Reset(a))
  {
    hide Body, Reset, Savable, Loadable, Lawful, PartsOf, ArchiveOf;
    BodyLawful(k, 3);
    BodyResets(k, a);
    PartsBack(Reset(a));
    var body := Body(k, 3).enc(PartsOf(a));
    HeaderRead(FORMAT_VERSION, body);
    Undone(Body(k, 3), PartsOf(Reset(a)), []);
    assert body + [] == body;
  }

  lemma PartsBack(a: Archive)
    ensures ArchiveOf(PartsOf(a)) == a
  {
  }

  // ---- what is loaded can be saved, and is itself again ----

  lemma PlanLoaded(k: Paths, version: nat, p: Plan)
    requires PlanBytes(k, version).ok(p)
    ensures PlanSavable(k, p) && SizeSum(RawFiles(p.files)) <= MAX64 && ResetPlan(p) == p
  {
    var r := RawPlanOf(p);
    ListFits(p.roots);
    ListFits(RawDirectories(p.directories));
    assert RawPlanBytes(version).ok(r) && Acceptable(k)(r);
    FilesLoaded(p.files);
  }

  lemma FilesLoaded(fs: seq<PlanFile>)
    requires ListOf(Count(), RawFileBytes()).ok(RawFiles(fs))
    ensures |fs| <= MAX_ENTRIES && forall i :: 0 <= i < |fs| ==> Short(fs[i].source) && Short(fs[i].destination)
  {
    ListFits([]);
    forall i | 0 <= i < |fs|
      ensures Short(fs[i].source) && Short(fs[i].destination)
    {
      assert RawFileBytes().ok(RawFiles(fs)[i]);
    }
  }

  lemma JobLoaded(version: nat, j: Job)
    requires JobBytes(version).ok(j)
    ensures JobSavable(j) && ResetJob(j) == j
  {
    ListFits(j.sources);
    assert RawJobBytes(version).ok(RawJobOf(j));
  }

  lemma JobsLoaded(version: nat, js: seq<Job>)
    requires JobList(version).ok(js)
    ensures JobsSavable(js) && Each(ResetJob, js) == js
  {
    hide JobBytes, ResetJob, JobSavable;
    forall i | 0 <= i < |js|
      ensures JobSavable(js[i]) && ResetJob(js[i]) == js[i]
    {
      assert JobBytes(version).ok(js[i]);
      JobLoaded(version, js[i]);
    }
  }

  lemma RemovalLoaded(r: Removal)
    requires RemovalBytes().ok(r)
    ensures RemovalSavable(r) && r.attempts >= 1 && ResetRemoval(r) == r
  {
    ListFits([]);
    assert RawRemovalBytes().ok(RawRemovalOf(r));
  }

  lemma RemovalsLoaded(version: nat, rs: seq<Removal>)
    requires RemovalList(version).ok(rs)
    ensures |rs| <= MAX_ENTRIES && Each(ResetRemoval, rs) == rs
    ensures forall i :: 0 <= i < |rs| ==> RemovalSavable(rs[i]) && rs[i].attempts >= 1
  {
    hide RemovalBytes, ResetRemoval, RemovalSavable;
    forall i | 0 <= i < |rs|
      ensures RemovalSavable(rs[i]) && rs[i].attempts >= 1 && ResetRemoval(rs[i]) == rs[i]
    {
      assert RemovalBytes().ok(rs[i]);
      RemovalLoaded(rs[i]);
    }
  }

  lemma PartsLoaded(k: Paths, version: nat, a: Archive)
    requires Body(k, version).ok(PartsOf(a))
    ensures Savable(k, a) && Loadable(a) && Reset(a) == a
  {
    hide PlanBytes, JobList, RemovalList, PlanSavable, JobsSavable, RemovalSavable, ResetPlan, ResetJob, ResetRemoval, Body, Each;
    BodyForm(k, version, PartsOf(a));
    if a.current.Some? { PlanLoaded(k, version, a.current.value); }
    JobsLoaded(version, a.appends);
    JobsLoaded(version, a.queued);
    RemovalsLoaded(version, a.removals);
  }

  /** What a file that loads consists of. */
  lemma LoadedParts(k: Paths, bs: Bytes)
    requires Loaded(k, bs).Some?
    ensures |bs| >= 12 && bs[..8] == MAGIC && Value(bs[8..12]) <= 3
    ensures var c := Body(k, Value(bs[8..12]));
      c.ok(PartsOf(Loaded(k, bs).value)) && bs[12..] == c.enc(PartsOf(Loaded(k, bs).value))
  {
    hide Body, Lawful, Value;
    var version := Value(bs[8..12]);
    BodyLawful(k, version);
    Encoded(Body(k, version), bs[12..]);
    var g := Body(k, version).dec(bs[12..]);
    assert PartsOf(Loaded(k, bs).value) == g.value;
    assert Body(k, version).enc(g.value) + [] == Body(k, version).enc(g.value);
  }

  /** Whatever loads, from a file of any version, can be saved again and needs no resetting;
      a file of the present version is then written back byte for byte. */
  lemma LoadedResaves(k: Paths, bs: Bytes)
    requires Loaded(k, bs).Some?
    ensures var a := Loaded(k, bs).value;
      && Savable(k, a) && Loadable(a) && Reset(a) == a && |bs| >= 12
      && (Value(bs[8..12]) == FORMAT_VERSION ==> Image(k, a) == bs)
  {
    hide Loaded, Body, Savable, Loadable, Reset, Value, PartsOf;
    LoadedParts(k, bs);
    PartsLoaded(k, Value(bs[8..12]), Loaded(k, bs).value);
    ValueLittle(bs[8..12]);
    assert bs == bs[..8] + bs[8..12] + bs[12..];
  }

  /** An older file, saved in the present version, loads as the same archive. */
  lemma UpgradeKeepsArchive(k: Paths, bs: Bytes)
    requires Loaded(k, bs).Some? && |Image(k, Loaded(k, bs).value)| <= MAX_ARCHIVE
    ensures Loaded(k, Image(k, Loaded(k, bs).value)) == Loaded(k, bs)
  {
    LoadedResaves(k, bs);
    LoadUndoesSave(k, Loaded(k, bs).value);
  }

  // ---- what is saved but cannot be loaded ----

  lemma FirstBad<A, B>(a: Codec<A>, b: Codec<B>, bs: Bytes)
    requires a.dec(bs) == Bad
    ensures Pair(a, b).dec(bs) == Bad
  {
  }

  lemma SecondBad<A(!new), B>(a: Codec<A>, b: Codec<B>, x: A, bs: Bytes)
    requires Lawful(a) && a.ok(x) && b.dec(bs) == Bad
    ensures Pair(a, b).dec(a.enc(x) + bs) == Bad
  {
    Undone(a, x, bs);
  }

  /** A plan whose sizes do not add up within 64 bits is written but not read. */
  lemma PlanRejected(k: Paths, p: Plan, tail: Bytes)
    requires PlanSavable(k, p) && SizeSum(RawFiles(p.files)) > MAX64
    ensures Maybe(PlanBytes(k, 3)).dec(EncMaybe(PlanBytes(k, 3), Some(p)) + tail) == Bad
  {
    PlanFits(k, p);
    RawPlanLawful(3);
    PlanForm(k, p);
    var raw := RawPlanOf(p);
    hide RawPlanBytes, Contained, Lawful, PlanBytes, RawPlanOf, SizeSum, PlanSavable;
    OnlyBad(RawPlanBytes(3), Acceptable(k), raw, tail);
    NormalBad(k, RawPlanBytes(3).enc(raw) + tail);
    MaybeBad(PlanBytes(k, 3), p, tail);
  }

  lemma PlanForm(k: Paths, p: Plan)
    ensures PlanBytes(k, 3).enc(p) == RawPlanBytes(3).enc(RawPlanOf(p))
    ensures SizeSum(RawFiles(p.files)) > MAX64 ==> !Acceptable(k)(RawPlanOf(p))
  {
    hide RawPlanBytes, Contained, SizeSum;
  }

  lemma OnlyBad<T(!new)>(c: Codec<T>, p: T -> bool, t: T, tail: Bytes)
    requires Lawful(c) && c.ok(t) && !p(t)
    ensures Only(c, p).dec(c.enc(t) + tail) == Bad
  {
    Undone(c, t, tail);
  }

  lemma NormalBad(k: Paths, bs: Bytes)
    requires Only(RawPlanBytes(3), Acceptable(k)).dec(bs) == Bad
    ensures PlanBytes(k, 3).dec(bs) == Bad
  {
    hide RawPlanBytes, Contained, SizeSum, Only;
  }

  lemma MaybeBad<T>(c: Codec<T>, t: T, tail: Bytes)
    requires c.dec(c.enc(t) + tail) == Bad
    ensures Maybe(c).dec(EncMaybe(c, Some(t)) + tail) == Bad
  {
    assert ([1] + c.enc(t) + tail)[1..] == c.enc(t) + tail;
  }

  lemma NoAttempts(tail: Bytes)
    ensures Attempts().dec(Little(0, 4) + tail) == Bad
  {
    Spans();
    NumberLawful(4);
    Undone(Number(4), 0, tail);
    hide Lawful;
  }

  /** A removal that was never attempted is written but not read. */
  lemma RemovalRejected(r: Removal, tail: Bytes)
    requires RemovalSavable(r) && r.attempts == 0
    ensures RemovalBytes().dec(RemovalBytes().enc(r) + tail) == Bad
  {
    PathsLawful();
    ChoicesLawful(3);
    SignedLawful();
    SignedRange(r.hresult);
    ChoicesFit(3);
    ListFits([]);
    var prints := Pair(PrintBytes(), PrintBytes());
    var behind := prints.enc((RawPrintOf(r.sourcePrint), RawPrintOf(r.destinationPrint))) + tail;
    NoAttempts(behind);
    var a := Pair(Attempts(), prints);
    FirstBad(Attempts(), prints, Little(0, 4) + behind);
    var b := Pair(Flag(), a);
    SecondBad(Flag(), a, r.preexisted, Little(0, 4) + behind);
    var c := Pair(Path(), b);
    SecondBad(Path(), b, r.destination, Flag().enc(r.preexisted) + (Little(0, 4) + behind));
    var d := Pair(Path(), c);
    SecondBad(Path(), c, r.source, Path().enc(r.destination) + (Flag().enc(r.preexisted) + (Little(0, 4) + behind)));
    SecondBad(Signed32(), d, r.hresult,
              Path().enc(r.source) + (Path().enc(r.destination) + (Flag().enc(r.preexisted) + (Little(0, 4) + behind))));
    RemovalForm(r, tail);
    hide Signed32, Path, Flag, Attempts, PrintBytes, Lawful;
  }

  lemma RemovalForm(r: Removal, tail: Bytes)
    ensures RemovalBytes().enc(r) + tail
            == Signed32().enc(r.hresult) + (Path().enc(r.source) + (Path().enc(r.destination) + (Flag().enc(r.preexisted)
               + (Little(r.attempts, 4)
                  + (Pair(PrintBytes(), PrintBytes()).enc((RawPrintOf(r.sourcePrint), RawPrintOf(r.destinationPrint))) + tail)))))
  {
    assert Attempts().enc(r.attempts) == Little(r.attempts, 4);
    hide Signed32, Path, Flag, Attempts, PrintBytes, Little;
    var prints := Pair(PrintBytes(), PrintBytes()).enc((RawPrintOf(r.sourcePrint), RawPrintOf(r.destinationPrint)));
    assert RemovalBytes().enc(r)
           == Signed32().enc(r.hresult) + (Path().enc(r.source) + (Path().enc(r.destination) + (Flag().enc(r.preexisted)
              + (Little(r.attempts, 4) + prints))));
    Regroup(Signed32().enc(r.hresult), Path().enc(r.source), Path().enc(r.destination), Flag().enc(r.preexisted),
            Little(r.attempts, 4), prints, tail);
  }

  lemma Regroup(a: Bytes, b: Bytes, c: Bytes, d: Bytes, e: Bytes, f: Bytes, tail: Bytes)
    ensures (a + (b + (c + (d + (e + f))))) + tail == a + (b + (c + (d + (e + (f + tail)))))
  {
  }

  lemma {:induction false} RemovalsRejected(rs: seq<Removal>, i: nat, tail: Bytes)
    requires i < |rs| && rs[i].attempts == 0 && forall j :: 0 <= j < |rs| ==> RemovalSavable(rs[j])
    ensures DecMany(RemovalBytes(), |rs|, EncMany(RemovalBytes(), rs) + tail) == Bad
  {
    hide RemovalBytes, Lawful, ResetRemoval, RemovalSavable;
    var c := RemovalBytes();
    var rest := EncMany(c, rs[1..]) + tail;
    assert EncMany(c, rs) + tail == c.enc(rs[0]) + rest;
    if rs[0].attempts == 0 {
      RemovalRejected(rs[0], rest);
    } else {
      RemovalResets(rs[0]);
      RemovalLawful(3);
      Undone(c, ResetRemoval(rs[0]), rest);
      RemovalsRejected(rs[1..], i - 1, tail);
    }
  }

  lemma ListRejected(rs: seq<Removal>, i: nat)
    requires |rs| <= MAX_ENTRIES && i < |rs| && rs[i].attempts == 0
    requires forall j :: 0 <= j < |rs| ==> RemovalSavable(rs[j])
    ensures RemovalList(3).dec(RemovalList(3).enc(rs)) == Bad
  {
    hide Count, RemovalBytes, Lawful, RemovalSavable, EncMany, DecMany, RemovalList, ListOf;
    RemovalsRejected(rs, i, []);
    PathsLawful();
    CountFits(|rs|);
    NothingBehind(EncMany(RemovalBytes(), rs));
    CountedBad(Count(), RemovalBytes(), rs);
    RemovalListForm();
  }

  lemma CountFits(n: nat)
    requires n <= MAX_ENTRIES
    ensures Count().ok(n)
  {
    Spans();
  }

  lemma NothingBehind(bs: Bytes)
    ensures bs + [] == bs
  {
  }

  lemma RemovalListForm()
    ensures RemovalList(3) == ListOf(Count(), RemovalBytes())
  {
    hide Count, RemovalBytes, ListOf;
  }

  lemma CountedBad<T>(count: Codec<nat>, c: Codec<T>, xs: seq<T>)
    requires Lawful(count) && count.ok(|xs|) && DecMany(c, |xs|, EncMany(c, xs)) == Bad
    ensures ListOf(count, c).dec(ListOf(count, c).enc(xs)) == Bad
  {
    Undone(count, |xs|, EncMany(c, xs));
    hide EncMany, DecMany;
    assert ListOf(count, c).dec(count.enc(|xs|) + EncMany(c, xs)) == TakeList(count, c, count.enc(|xs|) + EncMany(c, xs));
  }

  lemma BodyRejected(k: Paths, a: Archive)
    requires Savable(k, a) && !Loadable(a)
    ensures Body(k, 3).dec(Body(k, 3).enc(PartsOf(a))) == Bad
  {
    hide PlanBytes, JobList, RemovalList, PlanSavable, JobsSavable, RemovalSavable, ResetPlan, ResetJob, Each, Lawful;
    var one, jobs, removals := Maybe(PlanBytes(k, 3)), JobList(3), RemovalList(3);
    var tail := jobs.enc(a.appends) + (jobs.enc(a.queued) + removals.enc(a.removals));
    if a.current.Some? && SizeSum(RawFiles(a.current.value.files)) > MAX64 {
      PlanRejected(k, a.current.value, tail);
      FirstBad(one, Pair(jobs, Pair(jobs, removals)), one.enc(a.current) + tail);
    } else {
      var i :| 0 <= i < |a.removals| && a.removals[i].attempts == 0;
      ListRejected(a.removals, i);
      JobLawful(3);
      JobsReset(a.appends);
      JobsReset(a.queued);
      SecondBad(jobs, removals, Each(ResetJob, a.queued), removals.enc(a.removals));
      SecondBad(jobs, Pair(jobs, removals), Each(ResetJob, a.appends), jobs.enc(a.queued) + removals.enc(a.removals));
      CurrentResets(k, a.current);
      SecondBad(one, Pair(jobs, Pair(jobs, removals)), if a.current.Some? then Some(ResetPlan(a.current.value)) else None, tail);
    }
  }

  lemma CurrentResets(k: Paths, current: Option<Plan>)
    requires current.Some? ==> PlanSavable(k, current.value) && SizeSum(RawFiles(current.value.files)) <= MAX64
    ensures var c, reset := Maybe(PlanBytes(k, 3)), if current.Some? then Some(ResetPlan(current.value)) else None;
      Lawful(c) && c.ok(reset) && c.enc(reset) == c.enc(current)
  {
    hide PlanBytes, Lawful, ResetPlan, PlanSavable, SizeSum;
    PlanLawful(k, 3);
    MaybeLawful(PlanBytes(k, 3));
    if current.Some? { PlanResets(k, current.value); }
  }

  /** A saved archive loads exactly when its sizes add up within 64 bits, every removal was
      attempted, and the file is within the limit for loading: the checks that reading makes
      and writing does not. */
  lemma LoadsIff(k: Paths, a: Archive)
    requires Savable(k, a)
    ensures Loaded(k, Image(k, a)).Some? <==> Loadable(a) && |Image(k, a)| <= MAX_ARCHIVE
  {
    hide Body, Reset, Savable, Loadable, PartsOf, ArchiveOf;
    HeaderRead(FORMAT_VERSION, Body(k, 3).enc(PartsOf(a)));
    if Loadable(a) && |Image(k, a)| <= MAX_ARCHIVE { LoadUndoesSave(k, a); }
    if !Loadable(a) { BodyRejected(k, a); }
  }

  const UNTRIED := Removal(0, 0, [], [], false, 0, Print(0, 0, false, 0, NO_ID), Print(0, 0, false, 0, NO_ID))
  const UNLOADABLE := Archive(None, [], [], [UNTRIED])

  /** An archive that is saved and does not load: its one removal was never attempted. */
  lemma UnloadableExample(k: Paths)
    ensures Savable(k, UNLOADABLE) && Loaded(k, Image(k, UNLOADABLE)) == None
  {
    assert UNLOADABLE.removals[0] == UNTRIED;
    assert Savable(k, UNLOADABLE) && !Loadable(UNLOADABLE);
    hide Savable, Loadable, Image, Loaded;
    LoadsIff(k, UNLOADABLE);
  }
}
