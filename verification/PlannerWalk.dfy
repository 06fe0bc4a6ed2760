/** Planning a job: the walk over a source tree with an explicit stack, and what the plan it
    builds is worth. */
module PlannerWalk {
  import opened Items
  import opened Sequences
  import opened OutputRegistries

  const MAX_ENTRIES: nat := 250_000
  const CANT_ACCESS_FILE: int := -2147022976
  const NOT_SUPPORTED: int := -2147024846

  /** One name found while enumerating a folder. A folder may turn out barred when it is
      looked at again before it is entered. */
  datatype Entry =
    | Dots
    | Surrogate(name: string)
    | Barred(name: string, code: int)
    | Subfolder(name: string, folder: Folder)
    | Plain(name: string, size: nat)
    | Device(name: string)

  /** A folder that cannot be enumerated, or what enumeration finds before it ends or breaks. */
  datatype Folder = Unreadable(code: int) | Listing(entries: seq<Entry>, broken: Option<int>)

  datatype Visit = Visit(source: Path, target: Path, folder: Folder)

  /** A path and a name under it. */
  type Under = (Path, string) -> Path

  /** What the walk comes across, with the planned directory it lies under. */
  datatype Event =
    | FileFound(source: Path, under: Path, target: Path, size: nat)
    | FolderFound(source: Path, under: Path, target: Path)
    | EntryFailed(source: Path, under: Path, target: Path, code: int)
    | FolderFailed(source: Path, under: Path, target: Path, code: int)

  // ---- the recursive order ----

  function EventsOf(join: Under, v: Visit, e: Entry): seq<Event> {
    match e
    case Dots => []
    case Surrogate(n) => [EntryFailed(join(v.source, n), v.target, join(v.target, n), CANT_ACCESS_FILE)]
    case Barred(n, code) => [EntryFailed(join(v.source, n), v.target, join(v.target, n), code)]
    case Subfolder(n, _) => [FolderFound(join(v.source, n), v.target, join(v.target, n))]
    case Plain(n, size) => [FileFound(join(v.source, n), v.target, join(v.target, n), size)]
    case Device(n) => [EntryFailed(join(v.source, n), v.target, join(v.target, n), NOT_SUPPORTED)]
  }

  function VisitsOf(join: Under, v: Visit, e: Entry): seq<Visit> {
    if e.Subfolder? then [Visit(join(v.source, e.name), join(v.target, e.name), e.folder)] else []
  }

  function OwnEvents(join: Under, v: Visit, es: seq<Entry>): seq<Event> {
    if es == [] then [] else OwnEvents(join, v, es[..|es| - 1]) + EventsOf(join, v, es[|es| - 1])
  }

  function Subvisits(join: Under, v: Visit, es: seq<Entry>): seq<Visit> {
    if es == [] then [] else Subvisits(join, v, es[..|es| - 1]) + VisitsOf(join, v, es[|es| - 1])
  }

  /** How many folders a folder is, itself included: what the walk still has to visit. */
  function Load(f: Folder): (n: nat)
    ensures n >= 1
    decreases f
  {
    if f.Unreadable? then 1 else 1 + EntriesLoad(f.entries)
  }

  function EntriesLoad(es: seq<Entry>): nat
    decreases es
  {
    if es == [] then 0 else (if es[0].Subfolder? then Load(es[0].folder) else 0) + EntriesLoad(es[1..])
  }

  function VisitsLoad(vs: seq<Visit>): nat {
    if vs == [] then 0 else Load(vs[0].folder) + VisitsLoad(vs[1..])
  }

  lemma {:induction false} VisitsLoadConcat(a: seq<Visit>, b: seq<Visit>)
    ensures VisitsLoad(a + b) == VisitsLoad(a) + VisitsLoad(b)
  {
    if a == [] {
      assert a + b == b;
    } else {
      assert (a + b)[1..] == a[1..] + b;
      VisitsLoadConcat(a[1..], b);
    }
  }

  lemma {:induction false} EntriesLoadConcat(a: seq<Entry>, b: seq<Entry>)
    ensures EntriesLoad(a + b) == EntriesLoad(a) + EntriesLoad(b)
  {
    if a == [] {
      assert a + b == b;
    } else {
      assert (a + b)[1..] == a[1..] + b;
      EntriesLoadConcat(a[1..], b);
    }
  }

  lemma {:induction false} SubvisitsLoad(join: Under, v: Visit, es: seq<Entry>)
    ensures VisitsLoad(Subvisits(join, v, es)) == EntriesLoad(es)
  {
    if es != [] {
      var most, last := es[..|es| - 1], es[|es| - 1];
      SubvisitsLoad(join, v, most);
      VisitsLoadConcat(Subvisits(join, v, most), VisitsOf(join, v, last));
      EntriesLoadConcat(most, [last]);
      assert es == most + [last] && [last][1..] == [];
      assert VisitsOf(join, v, last) != [] ==> VisitsOf(join, v, last)[1..] == [];
    }
  }

  /** A folder's own entries come first, then each of its subfolders in the order found. */
  function Scan(join: Under, v: Visit): seq<Event>
    decreases Load(v.folder), 0
  {
    match v.folder
    case Unreadable(code) => [FolderFailed(v.source, v.target, v.target, code)]
    case Listing(entries, broken) =>
      SubvisitsLoad(join, v, entries);
      OwnEvents(join, v, entries) + BreakOf(v, broken) + ScanAll(join, Subvisits(join, v, entries))
  }

  /** Enumeration that stopped part-way is a failure of the folder. */
  function BreakOf(v: Visit, broken: Option<int>): seq<Event> {
    if broken.Some? then [FolderFailed(v.source, v.target, v.target, broken.value)] else []
  }

  function ScanAll(join: Under, vs: seq<Visit>): seq<Event>
    decreases VisitsLoad(vs), 1
  {
    if vs == [] then [] else Scan(join, vs[0]) + ScanAll(join, vs[1..])
  }

  lemma {:induction false} ScanAllConcat(join: Under, a: seq<Visit>, b: seq<Visit>)
    ensures ScanAll(join, a + b) == ScanAll(join, a) + ScanAll(join, b)
    decreases |a|
  {
    if a == [] {
      assert a + b == b;
    } else {
      assert (a + b)[1..] == a[1..] + b;
      ScanAllConcat(join, a[1..], b);
    }
  }

  // ---- building the plan ----

  /** The plan so far. */
  datatype Draft = Draft(
    directories: seq<Directory>, files: seq<File>, failures: seq<Failure>, total: nat, largest: nat, next: nat)

  /** The plan so far, and what the registry holds at and below the job's destination. */
  datatype State = State(draft: Draft, outs: Outputs)

  datatype Problem = TooManyEntries | Collision | TooLarge | BadPath | Unscannable(code: int)

  datatype Outcome<+T> = Fine(value: T) | Thrown(problem: Problem)

  const BLANK := Draft([], [], [], 0, 0, 1)

  function Refused(key: Key): Problem { if key == [] then BadPath else Collision }

  function Full(d: Draft): bool { |d.directories| + |d.files| >= MAX_ENTRIES }

  function AddFileTo(k: Keys, d: Draft, source: Path, target: Path, size: nat): Draft {
    d.(files := d.files + [File(d.next, source, target, size, k.policy(target))],
       total := d.total + size, largest := Max(d.largest, size), next := d.next + 1)
  }

  function AcceptFile(k: Keys, floor: nat, s: State, source: Path, target: Path, size: nat): Outcome<State>
    requires floor >= 1
  {
    var key := k.key(target);
    if Full(s.draft) then Thrown(TooManyEntries)
    else if !Vacant(s.outs, key, floor) then Thrown(Refused(key))
    else if k.policy(target).None? then Thrown(BadPath)
    else if s.draft.total + size > MAX64 then Thrown(TooLarge)
    else
      Fine(State(AddFileTo(k, s.draft, source, target, size),
                 Outputs(s.outs.files + {key}, s.outs.directories + Chain(Front(key), floor))))
  }

  function AcceptFolder(k: Keys, floor: nat, s: State, source: Path, target: Path): Outcome<State>
    requires floor >= 1
  {
    var key := k.key(target);
    if Full(s.draft) then Thrown(TooManyEntries)
    else if !Free(s.outs, key, floor) then Thrown(Refused(key))
    else
      Fine(State(s.draft.(directories := s.draft.directories + [Directory(target, source)]),
                 s.outs.(directories := s.outs.directories + Chain(key, floor))))
  }

  function AcceptFailure(d: Draft, source: Path, target: Path, code: int): Outcome<Draft> {
    if |d.failures| >= MAX_ENTRIES then Thrown(TooManyEntries)
    else Fine(d.(failures := d.failures + [Failure(source, target, code)]))
  }

  function WithDraft(s: State, o: Outcome<Draft>): Outcome<State> {
    match o case Thrown(p) => Thrown(p) case Fine(d) => Fine(s.(draft := d))
  }

  function Accept(k: Keys, floor: nat, s: State, e: Event): Outcome<State>
    requires floor >= 1
  {
    match e
    case FileFound(source, _, target, size) => AcceptFile(k, floor, s, source, target, size)
    case FolderFound(source, _, target) => AcceptFolder(k, floor, s, source, target)
    case EntryFailed(source, _, target, code) => WithDraft(s, AcceptFailure(s.draft, source, target, code))
    case FolderFailed(source, _, target, code) => WithDraft(s, AcceptFailure(s.draft, source, target, code))
  }

  /** The plan after a list of events, or the first problem. */
  function Replay(k: Keys, floor: nat, s: State, es: seq<Event>): Outcome<State>
    requires floor >= 1
    decreases |es|
  {
    if es == [] then Fine(s)
    else match Accept(k, floor, s, es[0])
      case Thrown(p) => Thrown(p)
      case Fine(next) => Replay(k, floor, next, es[1..])
  }

  /** Carry on with further events, unless a problem has come up. */
  function Onward(k: Keys, floor: nat, o: Outcome<State>, es: seq<Event>): Outcome<State>
    requires floor >= 1
  {
    match o case Thrown(p) => Thrown(p) case Fine(s) => Replay(k, floor, s, es)
  }

  lemma {:induction false} ReplayConcat(k: Keys, floor: nat, s: State, a: seq<Event>, b: seq<Event>)
    requires floor >= 1
    ensures Replay(k, floor, s, a + b) == Onward(k, floor, Replay(k, floor, s, a), b)
    decreases |a|
  {
    hide Accept;
    if a == [] {
      assert a + b == b;
    } else {
      assert (a + b)[1..] == a[1..] + b;
      if Accept(k, floor, s, a[0]).Fine? { ReplayConcat(k, floor, Accept(k, floor, s, a[0]).value, a[1..], b); }
    }
  }

  // ---- the walk ----

  /** Where a target may lie: no chain ends below the floor, and files lie under it. */
  ghost predicate Sited(k: Keys, parent: Parent, floor: nat, p: Path, file: bool)
    requires Regular(k, parent)
  {
    && p != "" && End(k, parent, p) <= floor
    && (file ==> !Top(parent, p) && (k.key(p) != [] ==> |k.key(p)| > floor))
  }

  ghost predicate AllSited(k: Keys, parent: Parent, floor: nat, es: seq<Event>)
    requires Regular(k, parent)
  {
    forall e :: e in es ==>
      (e.FileFound? ==> Sited(k, parent, floor, e.target, true)) && (e.FolderFound? ==> Sited(k, parent, floor, e.target, false))
  }

  /** What a registry holds at and below the floor. */
  ghost function Held(r: OutputRegistry): Outputs
    reads r
  {
    Outputs(r.files, Low(r.directories, r.floor))
  }

  lemma HeldFits(o: Outputs, key: Key, floor: nat)
    requires floor >= 1
    ensures Free(o, key, floor) == Free(Outputs(o.files, Low(o.directories, floor)), key, floor)
    ensures |key| > floor || key == [] ==>
      Vacant(o, key, floor) == Vacant(Outputs(o.files, Low(o.directories, floor)), key, floor)
  {
  }

  /** The method's result and the registry are what the outcome says. */
  ghost predicate Agrees(r: OutputRegistry, o: Outcome<Draft>, expected: Outcome<State>)
    reads r
  {
    match expected
    case Thrown(p) => o == Thrown(p)
    case Fine(s) => o == Fine(s.draft) && Held(r) == s.outs && r.Valid() && s.draft.total <= MAX64
  }

  method AdmitFile(k: Keys, r: OutputRegistry, d: Draft, source: Path, target: Path, size: nat) returns (o: Outcome<Draft>)
    requires r.Valid() && r.k == k && d.total <= MAX64 && Sited(k, r.parent, r.floor, target, true)
    modifies r
    ensures Agrees(r, o, AcceptFile(k, r.floor, State(d, old(Held(r))), source, target, size))
  {
    HeldFits(r.Value(), k.key(target), r.floor);
    if |d.directories| + |d.files| >= MAX_ENTRIES { return Thrown(TooManyEntries); }
    var ok := r.AddFile(target);
    if !ok { return Thrown(Refused(k.key(target))); }
    if k.policy(target).None? { return Thrown(BadPath); }
    if size > MAX64 - d.total { return Thrown(TooLarge); }
    var file := File(d.next, source, target, size, k.policy(target));
    o := Fine(d.(files := d.files + [file], total := d.total + size, largest := Max(d.largest, size), next := d.next + 1));
  }

  method AdmitFolder(k: Keys, r: OutputRegistry, d: Draft, source: Path, target: Path) returns (o: Outcome<Draft>)
    requires r.Valid() && r.k == k && d.total <= MAX64 && Sited(k, r.parent, r.floor, target, false)
    modifies r
    ensures Agrees(r, o, AcceptFolder(k, r.floor, State(d, old(Held(r))), source, target))
  {
    HeldFits(r.Value(), k.key(target), r.floor);
    if |d.directories| + |d.files| >= MAX_ENTRIES { return Thrown(TooManyEntries); }
    var ok := r.AddDirectory(target);
    if !ok { return Thrown(Refused(k.key(target))); }
    o := Fine(d.(directories := d.directories + [Directory(target, source)]));
  }

  function AcceptOne(k: Keys, floor: nat, s: State, es: seq<Event>): Outcome<State>
    requires floor >= 1 && |es| <= 1
  {
    if es == [] then Fine(s) else Accept(k, floor, s, es[0])
  }

  ghost predicate EntrySited(k: Keys, parent: Parent, floor: nat, join: Under, v: Visit, e: Entry)
    requires Regular(k, parent)
  {
    && (e.Plain? ==> Sited(k, parent, floor, join(v.target, e.name), true))
    && (e.Subfolder? ==> Sited(k, parent, floor, join(v.target, e.name), false))
  }

  /** Take one entry into the plan and the registry; a subfolder is to be visited later. */
  method AdmitEntry(k: Keys, r: OutputRegistry, join: Under, v: Visit, e: Entry, d: Draft)
    returns (o: Outcome<Draft>, sub: seq<Visit>)
    requires r.Valid() && r.k == k && d.total <= MAX64 && EntrySited(k, r.parent, r.floor, join, v, e)
    modifies r
    ensures Agrees(r, o, AcceptOne(k, r.floor, State(d, old(Held(r))), EventsOf(join, v, e)))
    ensures sub == VisitsOf(join, v, e)
  {
    hide AcceptFile, AcceptFolder, AcceptFailure, Sited;
    o, sub := Fine(d), [];
    match e {
      case Dots =>
      case Surrogate(n) => o := AcceptFailure(d, join(v.source, n), join(v.target, n), CANT_ACCESS_FILE); FailureTotal(d);
      case Barred(n, code) => o := AcceptFailure(d, join(v.source, n), join(v.target, n), code); FailureTotal(d);
      case Subfolder(n, folder) =>
        o := AdmitFolder(k, r, d, join(v.source, n), join(v.target, n));
        sub := [Visit(join(v.source, n), join(v.target, n), folder)];
      case Plain(n, size) => o := AdmitFile(k, r, d, join(v.source, n), join(v.target, n), size);
      case Device(n) => o := AcceptFailure(d, join(v.source, n), join(v.target, n), NOT_SUPPORTED); FailureTotal(d);
    }
  }

  lemma FailureTotal(d: Draft)
    ensures forall source, target, code :: AcceptFailure(d, source, target, code).Fine? ==>
      AcceptFailure(d, source, target, code).value.total == d.total
  {
  }

  /** Enumerate one folder: its entries in turn, and the subfolders to visit later. */
  method Enumerate(k: Keys, r: OutputRegistry, join: Under, v: Visit, start: Draft)
    returns (o: Outcome<Draft>, subs: seq<Visit>)
    requires r.Valid() && r.k == k && start.total <= MAX64 && v.folder.Listing?
    requires AllSited(k, r.parent, r.floor, OwnEvents(join, v, v.folder.entries))
    modifies r
    ensures Agrees(r, o, Replay(k, r.floor, State(start, old(Held(r))), OwnEvents(join, v, v.folder.entries)))
    ensures o.Fine? ==> subs == Subvisits(join, v, v.folder.entries)
  {
    hide Accept, AllSited, EntrySited, Replay, OwnEvents, Subvisits, EventsOf, VisitsOf;
    var entries := v.folder.entries;
    ghost var first := State(start, Held(r));
    o, subs := Fine(start), [];
    NothingEntered(k, r.floor, join, v, first);
    for i := 0 to |entries|
      invariant o.Fine? && Agrees(r, o, Replay(k, r.floor, first, OwnEvents(join, v, entries[..i])))
      invariant subs == Subvisits(join, v, entries[..i])
    {
      Entered(k, r.floor, join, v, i, first, State(o.value, Held(r)));
      EventsSited(k, r.parent, r.floor, join, v, i);
      var sub;
      o, sub := AdmitEntry(k, r, join, v, entries[i], o.value);
      if o.Thrown? { return o, []; }
      subs := subs + sub;
    }
    assert entries[..|entries|] == entries;
  }

  lemma NothingEntered(k: Keys, floor: nat, join: Under, v: Visit, first: State)
    requires floor >= 1 && v.folder.Listing?
    ensures Replay(k, floor, first, OwnEvents(join, v, v.folder.entries[..0])) == Fine(first)
    ensures Subvisits(join, v, v.folder.entries[..0]) == []
  {
  }

  lemma OwnSnoc(join: Under, v: Visit, es: seq<Entry>, i: nat)
    requires i < |es|
    ensures OwnEvents(join, v, es[..i + 1]) == OwnEvents(join, v, es[..i]) + EventsOf(join, v, es[i])
    ensures Subvisits(join, v, es[..i + 1]) == Subvisits(join, v, es[..i]) + VisitsOf(join, v, es[i])
  {
    assert es[..i + 1][..i] == es[..i];
  }

  lemma {:induction false} OwnPrefix(join: Under, v: Visit, es: seq<Entry>, i: nat)
    requires i <= |es|
    ensures OwnEvents(join, v, es[..i]) <= OwnEvents(join, v, es)
    decreases |es| - i
  {
    if i < |es| {
      OwnSnoc(join, v, es, i);
      OwnPrefix(join, v, es, i + 1);
    } else {
      assert es[..i] == es;
    }
  }

  /** What the events of one entry come to, and that a problem there is the folder's. */
  lemma Entered(k: Keys, floor: nat, join: Under, v: Visit, i: nat, first: State, here: State)
    requires floor >= 1 && v.folder.Listing? && i < |v.folder.entries|
    requires Replay(k, floor, first, OwnEvents(join, v, v.folder.entries[..i])) == Fine(here)
    ensures |EventsOf(join, v, v.folder.entries[i])| <= 1
    ensures var next := AcceptOne(k, floor, here, EventsOf(join, v, v.folder.entries[i]));
      && Replay(k, floor, first, OwnEvents(join, v, v.folder.entries[..i + 1])) == next
      && (next.Thrown? ==> Replay(k, floor, first, OwnEvents(join, v, v.folder.entries)) == next)
    ensures Subvisits(join, v, v.folder.entries[..i + 1])
            == Subvisits(join, v, v.folder.entries[..i]) + VisitsOf(join, v, v.folder.entries[i])
  {
    hide Accept, AcceptOne, OwnEvents, Subvisits;
    var entries := v.folder.entries;
    var es, before, after, own := EventsOf(join, v, entries[i]), OwnEvents(join, v, entries[..i]),
        OwnEvents(join, v, entries[..i + 1]), OwnEvents(join, v, entries);
    OwnSnoc(join, v, entries, i);
    ReplayConcat(k, floor, first, before, es);
    OneEvent(k, floor, here, es);
    OwnPrefix(join, v, entries, i + 1);
    assert own == after + own[|after|..];
    ReplayConcat(k, floor, first, after, own[|after|..]);
  }

  lemma OneEvent(k: Keys, floor: nat, s: State, es: seq<Event>)
    requires floor >= 1 && |es| <= 1
    ensures Replay(k, floor, s, es) == AcceptOne(k, floor, s, es)
  {
    hide Accept;
    if es != [] { assert es[1..] == []; }
  }

  lemma EventsSited(k: Keys, parent: Parent, floor: nat, join: Under, v: Visit, i: nat)
    requires Regular(k, parent) && v.folder.Listing? && i < |v.folder.entries|
    requires AllSited(k, parent, floor, OwnEvents(join, v, v.folder.entries))
    ensures EntrySited(k, parent, floor, join, v, v.folder.entries[i])
  {
    var entries := v.folder.entries;
    OwnSnoc(join, v, entries, i);
    OwnPrefix(join, v, entries, i + 1);
    var es := EventsOf(join, v, entries[i]);
    forall e | e in es
      ensures e in OwnEvents(join, v, entries)
    {
      assert e in OwnEvents(join, v, entries[..i + 1]);
    }
    if es != [] { assert es[0] in es; }
  }

  // ---- the explicit stack ----

  function Reversed(vs: seq<Visit>): seq<Visit> {
    if vs == [] then [] else [vs[|vs| - 1]] + Reversed(vs[..|vs| - 1])
  }

  /** What a stack, last visit on top, still stands for. */
  function Rest(join: Under, stack: seq<Visit>): seq<Event> { ScanAll(join, Reversed(stack)) }

  lemma {:induction false} ReversedTwice(vs: seq<Visit>, below: seq<Visit>)
    ensures Reversed(below + Reversed(vs)) == vs + Reversed(below)
    decreases |vs|
  {
    if vs == [] {
      assert below + Reversed(vs) == below;
    } else {
      var first, others := vs[0], vs[1..];
      ReversedFirst(vs);
      assert below + Reversed(vs) == below + Reversed(others) + [first];
      assert (below + Reversed(others) + [first])[..|below + Reversed(others)|] == below + Reversed(others);
      ReversedTwice(others, below);
    }
  }

  lemma {:induction false} ReversedFirst(vs: seq<Visit>)
    requires vs != []
    ensures Reversed(vs) == Reversed(vs[1..]) + [vs[0]]
  {
    if |vs| > 1 {
      var most := vs[..|vs| - 1];
      ReversedFirst(most);
      assert vs[1..][..|vs| - 2] == most[1..] && vs[1..][|vs| - 2] == vs[|vs| - 1];
    } else {
      assert vs[1..] == [] && vs[..0] == [];
    }
  }

  lemma {:induction false} ReversedLoad(vs: seq<Visit>)
    ensures VisitsLoad(Reversed(vs)) == VisitsLoad(vs)
    ensures forall v :: v in Reversed(vs) <==> v in vs
  {
    if vs != [] {
      var most, last := vs[..|vs| - 1], vs[|vs| - 1];
      ReversedLoad(most);
      VisitsLoadConcat(most, [last]);
      VisitsLoadConcat([last], Reversed(most));
      assert vs == most + [last];
    }
  }

  /** Taking a folder off the stack and pushing its subfolders reversed keeps the order. */
  lemma StackTurns(join: Under, stack: seq<Visit>, subs: seq<Visit>)
    requires stack != []
    ensures var v, below := stack[|stack| - 1], stack[..|stack| - 1];
      && Rest(join, stack) == Scan(join, v) + Rest(join, below)
      && Rest(join, below + Reversed(subs)) == ScanAll(join, subs) + Rest(join, below)
      && VisitsLoad(below + Reversed(subs)) == VisitsLoad(stack) - Load(v.folder) + VisitsLoad(subs)
  {
    var v, below := stack[|stack| - 1], stack[..|stack| - 1];
    ReversedTwice(subs, below);
    ScanAllConcat(join, subs, Reversed(below));
    ReversedLoad(subs);
    VisitsLoadConcat(below, Reversed(subs));
    VisitsLoadConcat(below, [v]);
    assert stack == below + [v];
    assert Reversed(stack)[1..] == Reversed(below);
  }

  /** Names make paths longer, so no subfolder is its own root. */
  ghost predicate Lengthens(join: Under) { forall p, n :: |join(p, n)| > |p| }

  lemma {:induction false} SubsLonger(join: Under, v: Visit, es: seq<Entry>)
    requires Lengthens(join)
    ensures forall x :: x in Subvisits(join, v, es) ==> |x.source| > |v.source|
  {
    if es != [] { SubsLonger(join, v, es[..|es| - 1]); }
  }

  lemma PartsSited(k: Keys, parent: Parent, floor: nat, a: seq<Event>, b: seq<Event>)
    requires Regular(k, parent) && AllSited(k, parent, floor, a + b)
    ensures AllSited(k, parent, floor, a) && AllSited(k, parent, floor, b)
  {
    hide Sited;
    assert forall e :: e in a || e in b ==> e in a + b;
  }

  /** The subfolders a visit turns up. */
  function SubsOf(join: Under, v: Visit): seq<Visit> {
    if v.folder.Unreadable? then [] else Subvisits(join, v, v.folder.entries)
  }

  /** What one visit makes of the plan. */
  function Visited(k: Keys, floor: nat, join: Under, v: Visit, s: State): Outcome<State>
    requires floor >= 1
  {
    match v.folder
    case Unreadable(code) => WithDraft(s, AcceptFailure(s.draft, v.source, v.target, code))
    case Listing(entries, broken) =>
      Onward(k, floor, Replay(k, floor, s, OwnEvents(join, v, entries)), BreakOf(v, broken))
  }

  lemma VisitReplays(k: Keys, floor: nat, join: Under, v: Visit, here: State, later: seq<Event>)
    requires floor >= 1
    ensures Replay(k, floor, here, Scan(join, v) + later)
            == Onward(k, floor, Visited(k, floor, join, v, here), ScanAll(join, SubsOf(join, v)) + later)
  {
    hide Accept;
    if v.folder.Unreadable? {
      var es := Scan(join, v);
      assert ScanAll(join, []) + later == later;
      OneEvent(k, floor, here, es);
      FailureAccepted(k, floor, here, v);
      ReplayConcat(k, floor, here, es, later);
    } else {
      var own, subs := OwnEvents(join, v, v.folder.entries), Subvisits(join, v, v.folder.entries);
      var broken := BreakOf(v, v.folder.broken);
      assert Scan(join, v) + later == own + (broken + (ScanAll(join, subs) + later));
      ReplayConcat(k, floor, here, own, broken + (ScanAll(join, subs) + later));
      if Replay(k, floor, here, own).Fine? {
        ReplayConcat(k, floor, Replay(k, floor, here, own).value, broken, ScanAll(join, subs) + later);
      }
    }
  }

  lemma FailureAccepted(k: Keys, floor: nat, s: State, v: Visit)
    requires floor >= 1
    ensures forall code :: Accept(k, floor, s, FolderFailed(v.source, v.target, v.target, code))
                           == WithDraft(s, AcceptFailure(s.draft, v.source, v.target, code))
  {
  }

  /** Visit one folder, other than an unreadable root. */
  method VisitFolder(k: Keys, r: OutputRegistry, join: Under, v: Visit, d: Draft) returns (o: Outcome<Draft>, found: seq<Visit>)
    requires r.Valid() && r.k == k && d.total <= MAX64 && AllSited(k, r.parent, r.floor, Scan(join, v))
    modifies r
    ensures Agrees(r, o, Visited(k, r.floor, join, v, State(d, old(Held(r)))))
    ensures o.Fine? ==> found == SubsOf(join, v)
  {
    hide Replay, Accept, AllSited, AcceptFailure, Scan, OwnEvents, Subvisits;
    FailureTotal(d);
    if v.folder.Unreadable? {
      o, found := AcceptFailure(d, v.source, v.target, v.folder.code), [];
      return;
    }
    FolderSited(k, r.parent, r.floor, join, v);
    o, found := Enumerate(k, r, join, v, d);
    if o.Thrown? { return; }
    Broken(k, r.floor, v, State(o.value, Held(r)));
    if v.folder.broken.Some? {
      FailureTotal(o.value);
      o := AcceptFailure(o.value, v.source, v.target, v.folder.broken.value);
    }
  }

  lemma Broken(k: Keys, floor: nat, v: Visit, s: State)
    requires floor >= 1 && v.folder.Listing?
    ensures Replay(k, floor, s, BreakOf(v, v.folder.broken))
            == (if v.folder.broken.None? then Fine(s)
                else WithDraft(s, AcceptFailure(s.draft, v.source, v.target, v.folder.broken.value)))
  {
    if v.folder.broken.Some? { OneEvent(k, floor, s, BreakOf(v, v.folder.broken)); }
  }

  /** The loop's state: what the stack stands for, replayed from here, is the whole walk. */
  ghost predicate Walking(k: Keys, r: OutputRegistry, join: Under, root: Visit, stack: seq<Visit>, d: Draft, whole: Outcome<State>)
    reads r
  {
    && r.Valid() && r.k == k && d.total <= MAX64 && AllSited(k, r.parent, r.floor, Rest(join, stack))
    && Replay(k, r.floor, State(d, Held(r)), Rest(join, stack)) == whole
    && (stack == [root] || (root.folder.Listing? && forall v :: v in stack ==> |v.source| > |root.source|))
  }

  /** The stack after a visit stands for what follows it in the recursive order. */
  lemma VisitTurns(k: Keys, parent: Parent, floor: nat, join: Under, stack: seq<Visit>, here: State)
    requires floor >= 1 && Regular(k, parent) && stack != [] && AllSited(k, parent, floor, Rest(join, stack))
    ensures var v, below := stack[|stack| - 1], stack[..|stack| - 1];
      var after := below + Reversed(SubsOf(join, v));
      && AllSited(k, parent, floor, Scan(join, v)) && AllSited(k, parent, floor, Rest(join, after))
      && Replay(k, floor, here, Rest(join, stack))
         == Onward(k, floor, Visited(k, floor, join, v, here), Rest(join, after))
      && VisitsLoad(after) < VisitsLoad(stack)
  {
    hide Replay, Accept, AllSited, Scan, ScanAll, Rest, Visited, SubsOf;
    var v, below := stack[|stack| - 1], stack[..|stack| - 1];
    var subs := SubsOf(join, v);
    StackTurns(join, stack, subs);
    VisitReplays(k, floor, join, v, here, Rest(join, below));
    PartsSited(k, parent, floor, Scan(join, v), Rest(join, below));
    SubsSited(k, parent, floor, join, v);
    JoinedSited(k, parent, floor, ScanAll(join, subs), Rest(join, below));
    SubsLoad(join, v);
  }

  lemma JoinedSited(k: Keys, parent: Parent, floor: nat, a: seq<Event>, b: seq<Event>)
    requires Regular(k, parent) && AllSited(k, parent, floor, a) && AllSited(k, parent, floor, b)
    ensures AllSited(k, parent, floor, a + b)
  {
    hide Sited;
  }

  lemma SubsSited(k: Keys, parent: Parent, floor: nat, join: Under, v: Visit)
    requires Regular(k, parent) && AllSited(k, parent, floor, Scan(join, v))
    ensures AllSited(k, parent, floor, ScanAll(join, SubsOf(join, v)))
  {
    hide Sited;
    if v.folder.Listing? { FolderSited(k, parent, floor, join, v); }
  }

  lemma SubsLoad(join: Under, v: Visit)
    ensures VisitsLoad(SubsOf(join, v)) < Load(v.folder)
  {
    if v.folder.Listing? { SubvisitsLoad(join, v, v.folder.entries); }
  }

  /** Walk a folder with an explicit stack: the plan and the registry come out as the
      recursive order says, or with the first problem it meets. */
  method Walk(k: Keys, r: OutputRegistry, join: Under, root: Visit, start: Draft) returns (o: Outcome<Draft>)
    requires r.Valid() && r.k == k && start.total <= MAX64 && Lengthens(join)
    requires AllSited(k, r.parent, r.floor, Scan(join, root))
    modifies r
    ensures root.folder.Unreadable? ==> o == Thrown(Unscannable(root.folder.code))
    ensures root.folder.Listing? ==> Agrees(r, o, Replay(k, r.floor, State(start, old(Held(r))), Scan(join, root)))
  {
    hide Replay, Accept, AllSited, Scan, Rest, SubsOf, Visited, VisitsLoad;
    ghost var whole := Replay(k, r.floor, State(start, Held(r)), Scan(join, root));
    var stack, d := [root], start;
    RootOnly(join, root);
    while stack != []
      invariant Walking(k, r, join, root, stack, d, whole)
      decreases VisitsLoad(stack)
    {
      var v := stack[|stack| - 1];
      VisitTurns(k, r.parent, r.floor, join, stack, State(d, Held(r)));
      SubsFollow(join, root, stack);
      stack := stack[..|stack| - 1];
      if v.folder.Unreadable? && v.source == root.source { return Thrown(Unscannable(v.folder.code)); }
      var found;
      o, found := VisitFolder(k, r, join, v, d);
      if o.Thrown? { return; }
      d, stack := o.value, stack + Reversed(found);
    }
    NothingLeft(k, r.floor, join, State(d, Held(r)));
    o := Fine(d);
  }

  lemma SubsFollow(join: Under, root: Visit, stack: seq<Visit>)
    requires Lengthens(join) && stack != []
    requires stack == [root] || (root.folder.Listing? && forall v :: v in stack ==> |v.source| > |root.source|)
    ensures var v := stack[|stack| - 1];
      && (v.folder.Unreadable? && v.source == root.source ==> v == root)
      && forall x :: x in stack[..|stack| - 1] + Reversed(SubsOf(join, v)) ==> |x.source| > |root.source|
    ensures stack == [root] && root.folder.Unreadable? ==> stack[|stack| - 1].source == root.source
  {
    var v := stack[|stack| - 1];
    ReversedLoad(SubsOf(join, v));
    if v.folder.Listing? { SubsLonger(join, v, v.folder.entries); }
  }

  lemma RootOnly(join: Under, root: Visit)
    ensures Rest(join, [root]) == Scan(join, root)
  {
    assert [root][1..] == [];
    assert Reversed([root]) == [root];
    assert ScanAll(join, []) == [];
    hide Scan;
    assert ScanAll(join, [root]) == Scan(join, root) + [];
  }

  lemma NothingLeft(k: Keys, floor: nat, join: Under, s: State)
    requires floor >= 1
    ensures Replay(k, floor, s, Rest(join, [])) == Fine(s)
  {
  }

  lemma FolderSited(k: Keys, parent: Parent, floor: nat, join: Under, v: Visit)
    requires Regular(k, parent) && v.folder.Listing? && AllSited(k, parent, floor, Scan(join, v))
    ensures AllSited(k, parent, floor, OwnEvents(join, v, v.folder.entries))
    ensures AllSited(k, parent, floor, ScanAll(join, Subvisits(join, v, v.folder.entries)))
  {
    hide Sited;
    var own, broken, subs := OwnEvents(join, v, v.folder.entries), BreakOf(v, v.folder.broken), ScanAll(join, Subvisits(join, v, v.folder.entries));
    PartsSited(k, parent, floor, own + broken, subs);
    PartsSited(k, parent, floor, own, broken);
  }
}
