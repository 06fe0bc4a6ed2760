/** What a planned job is worth: numbering, totals, the order of directories, nothing
    enumerated forgotten, and a live plan that accepts it. */
module PlannerPlans {
  import opened Items
  import opened Sequences
  import opened LivePlan
  import opened PlanInvariant
  import opened PlanEntry
  import opened OutputRegistries
  import Walk = PlannerWalk
  import opened PlannerWalk

  // ---- a whole job ----

  /** A top-level source and where it goes. A folder whose contents alone are copied lands
      on the destination itself and is not mirrored. */
  datatype Source =
    | LooseFile(source: Path, target: Path, size: nat)
    | SourceFolder(source: Path, target: Path, folder: Folder, mirrored: bool)

  function Origin(x: Source): Path { if x.SourceFolder? && !x.mirrored then "" else x.source }

  function RootVisit(x: Source): Visit
    requires x.SourceFolder?
  {
    Visit(x.source, x.target, x.folder)
  }

  function TakeSource(k: Keys, floor: nat, join: Under, x: Source, s: State): Outcome<State>
    requires floor >= 1
  {
    match x
    case LooseFile(source, target, size) => AcceptFile(k, floor, s, source, target, size)
    case SourceFolder(source, target, folder, _) =>
      match AcceptFolder(k, floor, s, Origin(x), target)
      case Thrown(p) => Thrown(p)
      case Fine(t) => if folder.Unreadable? then Thrown(Unscannable(folder.code))
                      else Replay(k, floor, t, Scan(join, RootVisit(x)))
  }

  /** Each source in turn; with source folders preserved, their own destinations differ. */
  function TakeAll(k: Keys, floor: nat, join: Under, preserve: bool, xs: seq<Source>, roots: set<Key>, s: State): Outcome<State>
    requires floor >= 1
    decreases |xs|
  {
    if xs == [] then Fine(s)
    else
      var key := k.key(xs[0].target);
      if preserve && (key == [] || key in roots) then Thrown(Collision)
      else match TakeSource(k, floor, join, xs[0], s)
        case Thrown(p) => Thrown(p)
        case Fine(t) => TakeAll(k, floor, join, preserve, xs[1..], roots + {key}, t)
  }

  ghost predicate SourceSited(k: Keys, parent: Parent, floor: nat, join: Under, x: Source)
    requires Regular(k, parent)
  {
    match x
    case LooseFile(_, target, _) => Sited(k, parent, floor, target, true)
    case SourceFolder(_, target, _, _) =>
      Sited(k, parent, floor, target, false) && AllSited(k, parent, floor, Scan(join, RootVisit(x)))
  }

  method TakeOne(k: Keys, r: OutputRegistry, join: Under, x: Source, d: Draft) returns (o: Outcome<Draft>)
    requires r.Valid() && r.k == k && d.total <= MAX64 && Lengthens(join) && SourceSited(k, r.parent, r.floor, join, x)
    modifies r
    ensures Agrees(r, o, TakeSource(k, r.floor, join, x, State(d, old(Held(r)))))
  {
    hide AcceptFile, AcceptFolder, Replay, Sited, AllSited;
    match x {
      case LooseFile(source, target, size) => o := AdmitFile(k, r, d, source, target, size);
      case SourceFolder(source, target, folder, _) =>
        o := AdmitFolder(k, r, d, Origin(x), target);
        if o.Fine? { o := Walk.Walk(k, r, join, RootVisit(x), o.value); }
    }
  }

  /** Plan a job. Its sources must have usable keys, each once. */
  method Build(k: Keys, parent: Parent, ghost floor: nat, join: Under, preserve: bool, xs: seq<Source>,
               sources: seq<Path>, destination: Path, operation: FileOperation)
    returns (o: Outcome<CopyPlan>)
    requires floor >= 1 && Regular(k, parent) && Lengthens(join)
    requires forall x :: x in xs ==> SourceSited(k, parent, floor, join, x)
    ensures o.Fine? <==>
      && (forall p :: p in sources ==> k.key(p) != []) && DistinctBy(sources, k.key)
      && TakeAll(k, floor, join, preserve, xs, {}, State(BLANK, Outputs({}, {}))).Fine?
    ensures o.Fine? ==>
      var d := TakeAll(k, floor, join, preserve, xs, {}, State(BLANK, Outputs({}, {}))).value.draft;
      o.value == CopyPlan(d.directories, d.files, sources, destination, operation, d.total, d.largest, d.failures)
  {
    hide TakeSource, SourceSited;
    var keys := {};
    for i := 0 to |sources|
      invariant DistinctBy(sources[..i], k.key)
      invariant forall key :: key in keys <==> exists j :: 0 <= j < i && k.key(sources[j]) == key
      invariant forall p :: p in sources[..i] ==> k.key(p) != []
    {
      var key := k.key(sources[i]);
      if key == [] || key in keys { return Thrown(BadPath); }
      keys := keys + {key};
    }
    assert sources[..|sources|] == sources;
    var r := new OutputRegistry(k, parent, floor);
    var d, roots := BLANK, {};
    assert Low({}, floor) == {};
    ghost var whole := TakeAll(k, floor, join, preserve, xs, {}, State(BLANK, Outputs({}, {})));
    for i := 0 to |xs|
      invariant r.Valid() && r.k == k && r.parent == parent && r.floor == floor && d.total <= MAX64
      invariant TakeAll(k, floor, join, preserve, xs[i..], roots, State(d, Held(r))) == whole
    {
      assert xs[i..][0] == xs[i] && xs[i..][1..] == xs[i + 1..];
      if preserve && (k.key(xs[i].target) == [] || k.key(xs[i].target) in roots) { return Thrown(Collision); }
      roots := roots + {k.key(xs[i].target)};
      var a := TakeOne(k, r, join, xs[i], d);
      if a.Thrown? { return Thrown(a.problem); }
      d := a.value;
    }
    o := Fine(CopyPlan(d.directories, d.files, sources, destination, operation, d.total, d.largest, d.failures));
  }

  // ---- numbering, totals and keys ----

  /** Ids run from 1, totals are those of the files, limits are kept, and the registered
      files are exactly the pairwise distinct keys of the planned ones. */
  ghost predicate Built(k: Keys, s: State) {
    var d := s.draft;
    && d.next == |d.files| + 1 && (forall i :: 0 <= i < |d.files| ==> d.files[i].id == i + 1)
    && d.total == Sum(d.files, SizeOf) <= MAX64 && d.largest == Largest(d.files)
    && |d.directories| + |d.files| <= MAX_ENTRIES && |d.failures| <= MAX_ENTRIES
    && DistinctBy(d.files, KeyOf(k)) && s.outs.files == KeysOf(k, d.files)
    && forall f :: f in d.files ==> k.key(f.destination) != [] && f.sensitive.Some? && f.sensitive == k.policy(f.destination)
  }

  lemma FileBuilt(k: Keys, floor: nat, s: State, source: Path, target: Path, size: nat)
    requires floor >= 1 && Built(k, s) && AcceptFile(k, floor, s, source, target, size).Fine? && |k.key(target)| > floor
    ensures Built(k, AcceptFile(k, floor, s, source, target, size).value)
  {
    var d := s.draft;
    var f := File(d.next, source, target, size, k.policy(target));
    var t := AcceptFile(k, floor, s, source, target, size).value;
    SumSnoc(d.files, f, SizeOf);
    LargestSnoc(d.files, f);
    ChainHas(k.key(target), floor, k.key(target));
    assert t.draft.files == d.files + [f];
    forall g | g in d.files
      ensures KeyOf(k)(g) != KeyOf(k)(f)
    {
      VacantKey(k, floor, s, target);
      assert k.key(g.destination) in s.outs.files;
    }
    DistinctAppend(d.files, [f], KeyOf(k));
    assert KeysOf(k, t.draft.files) == KeysOf(k, d.files) + {k.key(target)} by { KeysSnoc(k, d.files, f); }
  }

  lemma KeysSnoc(k: Keys, files: seq<File>, f: File)
    ensures KeysOf(k, files + [f]) == KeysOf(k, files) + {k.key(f.destination)}
  {
    assert f in files + [f];
    assert forall g :: g in files ==> g in files + [f];
  }

  /** A vacant place is not a registered file's, wherever the floor is. */
  lemma VacantKey(k: Keys, floor: nat, s: State, target: Path)
    requires floor >= 1 && Vacant(s.outs, k.key(target), floor) && |k.key(target)| >= floor
    ensures k.key(target) !in s.outs.files
  {
    ChainHas(k.key(target), floor, k.key(target));
  }

  /** Files lie below the floor, as `Sited` has it. */
  predicate Below(k: Keys, floor: nat, target: Path) { k.key(target) != [] ==> |k.key(target)| > floor }

  predicate AllBelow(k: Keys, floor: nat, es: seq<Event>) {
    forall e :: e in es && e.FileFound? ==> Below(k, floor, e.target)
  }

  lemma EventBuilt(k: Keys, floor: nat, s: State, e: Event)
    requires floor >= 1 && Built(k, s) && Accept(k, floor, s, e).Fine? && (e.FileFound? ==> Below(k, floor, e.target))
    ensures Built(k, Accept(k, floor, s, e).value)
  {
    hide AcceptFile, Built;
    match e {
      case FileFound(source, _, target, size) =>
        FileUsable(k, floor, s, source, target, size);
        FileBuilt(k, floor, s, source, target, size);
      case FolderFound(source, _, target) => FolderBuilt(k, floor, s, source, target);
      case EntryFailed(source, _, target, code) => FailureBuilt(k, s, source, target, code);
      case FolderFailed(source, _, target, code) => FailureBuilt(k, s, source, target, code);
    }
  }

  lemma FileUsable(k: Keys, floor: nat, s: State, source: Path, target: Path, size: nat)
    requires floor >= 1 && AcceptFile(k, floor, s, source, target, size).Fine?
    ensures k.key(target) != []
  {
  }

  lemma FolderBuilt(k: Keys, floor: nat, s: State, source: Path, target: Path)
    requires floor >= 1 && Built(k, s) && AcceptFolder(k, floor, s, source, target).Fine?
    ensures Built(k, AcceptFolder(k, floor, s, source, target).value)
  {
  }

  lemma FailureBuilt(k: Keys, s: State, source: Path, target: Path, code: int)
    requires Built(k, s) && AcceptFailure(s.draft, source, target, code).Fine?
    ensures Built(k, s.(draft := AcceptFailure(s.draft, source, target, code).value))
  {
  }

  lemma {:induction false} ReplayBuilt(k: Keys, floor: nat, s: State, es: seq<Event>)
    requires floor >= 1 && Built(k, s) && AllBelow(k, floor, es) && Replay(k, floor, s, es).Fine?
    ensures Built(k, Replay(k, floor, s, es).value)
    decreases |es|
  {
    hide Accept, Built;
    if es != [] {
      assert es[0] in es;
      EventBuilt(k, floor, s, es[0]);
      ReplayBuilt(k, floor, Accept(k, floor, s, es[0]).value, es[1..]);
    }
  }

  predicate SourceBelow(k: Keys, floor: nat, join: Under, x: Source) {
    match x
    case LooseFile(_, target, _) => Below(k, floor, target)
    case SourceFolder(_, _, _, _) => AllBelow(k, floor, Scan(join, RootVisit(x)))
  }

  lemma SourceBuilt(k: Keys, floor: nat, join: Under, x: Source, s: State)
    requires floor >= 1 && Built(k, s) && SourceBelow(k, floor, join, x) && TakeSource(k, floor, join, x, s).Fine?
    ensures Built(k, TakeSource(k, floor, join, x, s).value)
  {
    hide Built, AcceptFile, AcceptFolder, Replay, Scan;
    match x {
      case LooseFile(source, target, size) =>
        FileUsable(k, floor, s, source, target, size);
        FileBuilt(k, floor, s, source, target, size);
      case SourceFolder(_, target, _, _) =>
        FolderBuilt(k, floor, s, Origin(x), target);
        ReplayBuilt(k, floor, AcceptFolder(k, floor, s, Origin(x), target).value, Scan(join, RootVisit(x)));
    }
  }

  lemma {:induction false} AllBuilt(k: Keys, floor: nat, join: Under, preserve: bool, xs: seq<Source>, roots: set<Key>, s: State)
    requires floor >= 1 && Built(k, s) && (forall x :: x in xs ==> SourceBelow(k, floor, join, x))
    requires TakeAll(k, floor, join, preserve, xs, roots, s).Fine?
    ensures Built(k, TakeAll(k, floor, join, preserve, xs, roots, s).value)
    decreases |xs|
  {
    hide Built, TakeSource, SourceBelow;
    if xs != [] {
      assert xs[0] in xs;
      SourceBuilt(k, floor, join, xs[0], s);
      AllBuilt(k, floor, join, preserve, xs[1..], roots + {k.key(xs[0].target)}, TakeSource(k, floor, join, xs[0], s).value);
    }
  }

  function PlanOf(d: Draft, sources: seq<Path>, destination: Path, operation: FileOperation): CopyPlan {
    CopyPlan(d.directories, d.files, sources, destination, operation, d.total, d.largest, d.failures)
  }

  /** Every plan the planner builds is accepted by the live plan's constructor under the
      same case policies, with sound books as far as 64 bits reach. */
  lemma PlannedIsAccepted(k: Keys, floor: nat, join: Under, preserve: bool, xs: seq<Source>,
                          sources: seq<Path>, destination: Path, operation: FileOperation)
    requires floor >= 1 && forall x :: x in xs ==> SourceBelow(k, floor, join, x)
    requires TakeAll(k, floor, join, preserve, xs, {}, State(BLANK, Outputs({}, {}))).Fine?
    ensures var d := TakeAll(k, floor, join, preserve, xs, {}, State(BLANK, Outputs({}, {}))).value.draft;
      var p := PlanOf(d, sources, destination, operation);
      && (forall i :: 0 <= i < |p.files| ==> p.files[i].id == i + 1)
      && p.totalBytes == Sum(p.files, SizeOf) <= MAX64 && p.largest == Largest(p.files)
      && |p.directories| + |p.files| <= MAX_ENTRIES && |p.failures| <= MAX_ENTRIES
      && Declared(p) && Identified(p)
      && Create(k, p).Some? && (Inv(k, Create(k, p).value) <==> Incoming(p) <= MAX64)
  {
    hide TakeAll;
    BlankBuilt(k);
    var s := TakeAll(k, floor, join, preserve, xs, {}, State(BLANK, Outputs({}, {}))).value;
    AllBuilt(k, floor, join, preserve, xs, {}, State(BLANK, Outputs({}, {})));
    var p := PlanOf(s.draft, sources, destination, operation);
    ScreenExact(k, k.key, p.files, {});
    forall i, j | 0 <= i < j < |p.files|
      ensures IdOf(p.files[i]) != IdOf(p.files[j])
    {
    }
    forall f | f in p.files
      ensures f.id <= MAX64
    {
      var i :| 0 <= i < |p.files| && p.files[i] == f;
    }
    CreateKeepsIff(k, p);
  }

  lemma BlankBuilt(k: Keys)
    ensures Built(k, State(BLANK, Outputs({}, {})))
  {
  }

  // ---- parents before children ----

  function Folders(es: seq<Event>): set<Path> { set e | e in es && e.FolderFound? :: e.target }

  function Learns(known: set<Path>, e: Event): set<Path> { if e.FolderFound? then known + {e.target} else known }

  /** Everything found lies under a directory that is known already. */
  predicate ParentsFirst(known: set<Path>, es: seq<Event>)
    decreases |es|
  {
    es != [] ==>
      es[0].under in known && ParentsFirst(Learns(known, es[0]), es[1..])
  }

  lemma {:induction false} ParentsMore(known: set<Path>, more: set<Path>, es: seq<Event>)
    requires known <= more && ParentsFirst(known, es)
    ensures ParentsFirst(more, es)
    decreases |es|
  {
    if es != [] { ParentsMore(Learns(known, es[0]), Learns(more, es[0]), es[1..]); }
  }

  lemma {:induction false} ParentsConcat(known: set<Path>, a: seq<Event>, b: seq<Event>)
    requires ParentsFirst(known, a) && ParentsFirst(known + Folders(a), b)
    ensures ParentsFirst(known, a + b)
    decreases |a|
  {
    if a == [] {
      assert a + b == b && known + Folders(a) == known;
    } else {
      assert (a + b)[1..] == a[1..] + b;
      assert a == [a[0]] + a[1..];
      FoldersConcat([a[0]], a[1..]);
      assert known + Folders(a) == Learns(known, a[0]) + Folders(a[1..]);
      ParentsConcat(Learns(known, a[0]), a[1..], b);
    }
  }

  lemma OneParent(known: set<Path>, es: seq<Event>)
    requires |es| <= 1 && (es != [] ==> es[0].under in known)
    ensures ParentsFirst(known, es)
  {
    if es != [] { assert es[1..] == []; }
  }

  lemma {:induction false} OwnParents(join: Under, v: Visit, es: seq<Entry>, known: set<Path>)
    requires v.target in known
    ensures ParentsFirst(known, OwnEvents(join, v, es))
    ensures forall x :: x in Subvisits(join, v, es) ==> x.target in Folders(OwnEvents(join, v, es))
  {
    if es != [] {
      var most, last := es[..|es| - 1], es[|es| - 1];
      var own, found := OwnEvents(join, v, most), EventsOf(join, v, last);
      OwnParents(join, v, most, known);
      OneParent(known + Folders(own), found);
      ParentsConcat(known, own, found);
      FoldersConcat(own, found);
      if last.Subfolder? { assert found[0] in found && found[0].target in Folders(found); }
    }
  }

  lemma FoldersConcat(a: seq<Event>, b: seq<Event>)
    ensures Folders(a + b) == Folders(a) + Folders(b)
  {
    forall p
      ensures p in Folders(a + b) <==> p in Folders(a) || p in Folders(b)
    {
      if p in Folders(a) {
        var e :| e in a && e.FolderFound? && e.target == p;
        assert e in a + b;
      }
      if p in Folders(b) {
        var e :| e in b && e.FolderFound? && e.target == p;
        assert e in a + b;
      }
    }
  }

  /** Every directory comes after the one it lies in, and every file and failure after the
      directory it was found in. */
  lemma {:induction false} ScanParentsFirst(join: Under, v: Visit, known: set<Path>)
    requires v.target in known
    ensures ParentsFirst(known, Scan(join, v))
    decreases Load(v.folder), 0
  {
    if v.folder.Listing? {
      var own, subs := OwnEvents(join, v, v.folder.entries), Subvisits(join, v, v.folder.entries);
      OwnParents(join, v, v.folder.entries, known);
      SubvisitsLoad(join, v, v.folder.entries);
      var front := own + BreakOf(v, v.folder.broken);
      OneParent(known + Folders(own), BreakOf(v, v.folder.broken));
      ParentsConcat(known, own, BreakOf(v, v.folder.broken));
      FoldersConcat(own, BreakOf(v, v.folder.broken));
      AllParentsFirst(join, subs, known + Folders(front));
      ParentsConcat(known, front, ScanAll(join, subs));
    }
  }

  lemma {:induction false} AllParentsFirst(join: Under, vs: seq<Visit>, known: set<Path>)
    requires forall v :: v in vs ==> v.target in known
    ensures ParentsFirst(known, ScanAll(join, vs))
    decreases VisitsLoad(vs), 1
  {
    if vs != [] {
      assert vs[0] in vs;
      ScanParentsFirst(join, vs[0], known);
      AllParentsFirst(join, vs[1..], known);
      ParentsMore(known, known + Folders(Scan(join, vs[0])), ScanAll(join, vs[1..]));
      ParentsConcat(known, Scan(join, vs[0]), ScanAll(join, vs[1..]));
    }
  }

  // ---- nothing enumerated is forgotten ----

  function One(p: Path, x: Path): nat { if p == x then 1 else 0 }

  /** How often a path is accounted for by the events: as a file, or as a failure. */
  function InEvents(es: seq<Event>, p: Path): nat {
    if es == [] then 0 else (if es[0].FolderFound? then 0 else One(es[0].source, p)) + InEvents(es[1..], p)
  }

  /** How often it is enumerated in a folder or below, other than as a folder that is
      visited; an unreadable or broken folder counts for itself once. */
  function InFolder(join: Under, source: Path, f: Folder, p: Path): nat
    decreases f
  {
    match f
    case Unreadable(_) => One(source, p)
    case Listing(entries, broken) => InEntries(join, source, entries, p) + if broken.Some? then One(source, p) else 0
  }

  function InEntries(join: Under, source: Path, es: seq<Entry>, p: Path): nat
    decreases es
  {
    if es == [] then 0
    else
      (match es[0]
       case Dots => 0
       case Subfolder(n, f) => InFolder(join, join(source, n), f, p)
       case Surrogate(n) => One(join(source, n), p)
       case Barred(n, _) => One(join(source, n), p)
       case Plain(n, _) => One(join(source, n), p)
       case Device(n) => One(join(source, n), p)) + InEntries(join, source, es[1..], p)
  }

  function InVisits(join: Under, vs: seq<Visit>, p: Path): nat {
    if vs == [] then 0 else InFolder(join, vs[0].source, vs[0].folder, p) + InVisits(join, vs[1..], p)
  }

  lemma {:induction false} InEventsConcat(a: seq<Event>, b: seq<Event>, p: Path)
    ensures InEvents(a + b, p) == InEvents(a, p) + InEvents(b, p)
  {
    if a == [] {
      assert a + b == b;
    } else {
      assert (a + b)[1..] == a[1..] + b;
      InEventsConcat(a[1..], b, p);
    }
  }

  lemma {:induction false} InEntriesConcat(join: Under, source: Path, a: seq<Entry>, b: seq<Entry>, p: Path)
    ensures InEntries(join, source, a + b, p) == InEntries(join, source, a, p) + InEntries(join, source, b, p)
  {
    if a == [] {
      assert a + b == b;
    } else {
      assert (a + b)[1..] == a[1..] + b;
      InEntriesConcat(join, source, a[1..], b, p);
    }
  }

  lemma {:induction false} InVisitsConcat(join: Under, a: seq<Visit>, b: seq<Visit>, p: Path)
    ensures InVisits(join, a + b, p) == InVisits(join, a, p) + InVisits(join, b, p)
  {
    if a == [] {
      assert a + b == b;
    } else {
      assert (a + b)[1..] == a[1..] + b;
      InVisitsConcat(join, a[1..], b, p);
    }
  }

  lemma EntryCounts(join: Under, v: Visit, e: Entry, p: Path)
    ensures InEvents(EventsOf(join, v, e), p) + InVisits(join, VisitsOf(join, v, e), p) == InEntries(join, v.source, [e], p)
  {
    assert [e][1..] == [];
    if EventsOf(join, v, e) != [] { assert EventsOf(join, v, e)[1..] == []; }
    if VisitsOf(join, v, e) != [] { assert VisitsOf(join, v, e)[1..] == []; }
  }

  lemma NoCounts(join: Under, source: Path, p: Path)
    ensures InEvents([], p) == 0 && InVisits(join, [], p) == 0 && InEntries(join, source, [], p) == 0
  {
  }

  lemma {:induction false} OwnCounts(join: Under, v: Visit, es: seq<Entry>, p: Path)
    ensures InEvents(OwnEvents(join, v, es), p) + InVisits(join, Subvisits(join, v, es), p) == InEntries(join, v.source, es, p)
  {
    hide InFolder, InEvents, InVisits, EventsOf, VisitsOf;
    NoCounts(join, v.source, p);
    if es != [] {
      var most, last := es[..|es| - 1], es[|es| - 1];
      OwnCounts(join, v, most, p);
      EntryCounts(join, v, last, p);
      InEventsConcat(OwnEvents(join, v, most), EventsOf(join, v, last), p);
      InVisitsConcat(join, Subvisits(join, v, most), VisitsOf(join, v, last), p);
      InEntriesConcat(join, v.source, most, [last], p);
      assert es == most + [last];
    }
  }

  /** The walk accounts for exactly what is there. */
  lemma {:induction false} ScanCounts(join: Under, v: Visit, p: Path)
    ensures InEvents(Scan(join, v), p) == InFolder(join, v.source, v.folder, p)
    decreases Load(v.folder), 0
  {
    if v.folder.Listing? {
      var own, subs := OwnEvents(join, v, v.folder.entries), Subvisits(join, v, v.folder.entries);
      var broken := BreakOf(v, v.folder.broken);
      OwnCounts(join, v, v.folder.entries, p);
      SubvisitsLoad(join, v, v.folder.entries);
      AllCounts(join, subs, p);
      InEventsConcat(own, broken, p);
      InEventsConcat(own + broken, ScanAll(join, subs), p);
      if broken != [] { assert broken[1..] == []; }
    } else {
      assert Scan(join, v)[1..] == [];
    }
  }

  lemma {:induction false} AllCounts(join: Under, vs: seq<Visit>, p: Path)
    ensures InEvents(ScanAll(join, vs), p) == InVisits(join, vs, p)
    decreases VisitsLoad(vs), 1
  {
    if vs != [] {
      ScanCounts(join, vs[0], p);
      AllCounts(join, vs[1..], p);
      InEventsConcat(Scan(join, vs[0]), ScanAll(join, vs[1..]), p);
    }
  }

  /** How often a path is the source of a planned file or failure. */
  function SourceCount(p: Path): File -> nat { (f: File) => One(f.source, p) }
  function FailureCount(p: Path): Failure -> nat { (f: Failure) => One(f.source, p) }

  function Covered(d: Draft, p: Path): nat { Sum(d.files, SourceCount(p)) + Sum(d.failures, FailureCount(p)) }

  lemma EventCovers(k: Keys, floor: nat, s: State, e: Event, p: Path)
    requires floor >= 1 && Accept(k, floor, s, e).Fine?
    ensures Covered(Accept(k, floor, s, e).value.draft, p) == Covered(s.draft, p) + InEvents([e], p)
  {
    assert [e][1..] == [];
    var t := Accept(k, floor, s, e).value.draft;
    if e.FileFound? {
      SumSnoc(s.draft.files, t.files[|s.draft.files|], SourceCount(p));
    } else if !e.FolderFound? {
      SumSnoc(s.draft.failures, t.failures[|s.draft.failures|], FailureCount(p));
    }
  }

  lemma {:induction false} ReplayCovers(k: Keys, floor: nat, s: State, es: seq<Event>, p: Path)
    requires floor >= 1 && Replay(k, floor, s, es).Fine?
    ensures Covered(Replay(k, floor, s, es).value.draft, p) == Covered(s.draft, p) + InEvents(es, p)
    decreases |es|
  {
    hide Accept, Covered;
    if es != [] {
      EventCovers(k, floor, s, es[0], p);
      ReplayCovers(k, floor, Accept(k, floor, s, es[0]).value, es[1..], p);
      InEventsConcat([es[0]], es[1..], p);
      assert es == [es[0]] + es[1..];
    }
  }

  /** Everything enumerated below a folder that is not a visited folder ends up once in the
      files or the failures, and nothing else does. */
  lemma FolderCovered(k: Keys, floor: nat, join: Under, v: Visit, s: State, p: Path)
    requires floor >= 1 && Replay(k, floor, s, Scan(join, v)).Fine?
    ensures Covered(Replay(k, floor, s, Scan(join, v)).value.draft, p)
            == Covered(s.draft, p) + InFolder(join, v.source, v.folder, p)
  {
    ReplayCovers(k, floor, s, Scan(join, v), p);
    ScanCounts(join, v, p);
  }

  // ---- the plan follows the events ----

  function DirectoriesOf(es: seq<Event>): seq<Directory> {
    if es == [] then []
    else (if es[0].FolderFound? then [Directory(es[0].target, es[0].source)] else []) + DirectoriesOf(es[1..])
  }

  function PathsOf(es: seq<Event>): seq<(Path, Path)> {
    if es == [] then [] else (if es[0].FileFound? then [(es[0].source, es[0].target)] else []) + PathsOf(es[1..])
  }

  function Pair(f: File): (Path, Path) { (f.source, f.destination) }

  function Pairs(files: seq<File>): seq<(Path, Path)> {
    seq(|files|, i requires 0 <= i < |files| => Pair(files[i]))
  }

  /** Directories and files are planned in the order of the walk. */
  lemma {:induction false} PlanFollows(k: Keys, floor: nat, s: State, es: seq<Event>)
    requires floor >= 1 && Replay(k, floor, s, es).Fine?
    ensures var t := Replay(k, floor, s, es).value.draft;
      && t.directories == s.draft.directories + DirectoriesOf(es)
      && Pairs(t.files) == Pairs(s.draft.files) + PathsOf(es)
    decreases |es|
  {
    if es != [] {
      var next := Accept(k, floor, s, es[0]).value;
      EventFollows(k, floor, s, es[0]);
      hide Accept;
      PlanFollows(k, floor, next, es[1..]);
    }
  }

  lemma EventFollows(k: Keys, floor: nat, s: State, e: Event)
    requires floor >= 1 && Accept(k, floor, s, e).Fine?
    ensures var t := Accept(k, floor, s, e).value.draft;
      && t.directories == s.draft.directories + (if e.FolderFound? then [Directory(e.target, e.source)] else [])
      && Pairs(t.files) == Pairs(s.draft.files) + (if e.FileFound? then [(e.source, e.target)] else [])
  {
  }
}
