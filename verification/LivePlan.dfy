/** The live plan as a value, and each of its operations as a function on that value. */
module LivePlan {
  import opened Items
  import opened Sequences

  /** A terminal outcome. An entry the planner could not transfer is `scanned`: it never
      was a queued item and counts with the minimum weight. */
  datatype Done = Done(file: File, outcome: ItemOutcome, hresult: int, preexisted: bool, scanned: bool)

  datatype Write = Write(id: nat, bytes: nat)

  /** The fields of the live plan. The last four record its history: terminal outcomes,
      attempts begun, physical writes reported, and ids restored from an archive. */
  datatype Plan = Plan(
    directories: seq<Directory>, materialized: nat, roots: seq<Path>, root: Path,
    operation: FileOperation,
    pending: seq<File>, active: seq<File>, parked: seq<ParkedFile>,
    reserved: set<Key>,
    totalBytes: nat, totalFiles: nat, completedBytes: nat, completedFiles: nat, largest: nat,
    nextId: nat,
    retained: seq<ItemResult>,
    highWater: map<nat, nat>, attemptBytes: map<nat, nat>, attemptCounts: map<nat, nat>,
    counters: Counters, outcomes: Outcomes,
    done: seq<Done>, begun: map<nat, nat>, writes: seq<Write>, restored: set<nat>)

  datatype AppendResult =
    | Appended | Drained | DifferentDestination | DifferentOperation
    | DestinationCollision | SizeOverflow | InternalFailure

  // ---- finding items ----

  /** The first index holding the id, or the length. */
  function Find(files: seq<File>, id: nat): (i: nat)
    ensures i <= |files|
    ensures i < |files| ==> files[i].id == id
    ensures forall j :: 0 <= j < i ==> files[j].id != id
  {
    if files == [] then 0
    else if files[0].id == id then 0
    else 1 + Find(files[1..], id)
  }

  predicate HasId(files: seq<File>, id: nat) { Find(files, id) < |files| }

  function ParkedFiles(parked: seq<ParkedFile>): (files: seq<File>)
    ensures |files| == |parked|
    ensures forall i :: 0 <= i < |files| ==> files[i] == parked[i].file
  {
    seq(|parked|, i requires 0 <= i < |parked| => parked[i].file)
  }

  /** Every unresolved item. */
  function InFlight(s: Plan): seq<File> { s.pending + s.active + ParkedFiles(s.parked) }

  function Attempt(s: Plan, id: nat): nat { Get(s.attemptCounts, id, 1) }

  // ---- planning failures and construction ----

  function ScanResult(f: Failure): ItemResult {
    ItemResult(0, Failed, f.hresult, f.source, f.destination, false)
  }

  function ScanDone(f: Failure): Done {
    Done(File(0, f.source, f.destination, 0, None), Failed, f.hresult, false, true)
  }

  function ScanResults(fs: seq<Failure>): (r: seq<ItemResult>)
    ensures |r| == |fs|
  {
    seq(|fs|, i requires 0 <= i < |fs| => ScanResult(fs[i]))
  }

  function ScanDones(fs: seq<Failure>): (r: seq<Done>)
    ensures |r| == |fs|
  {
    seq(|fs|, i requires 0 <= i < |fs| => ScanDone(fs[i]))
  }

  /** Entries the planner could not transfer become terminal failures at once. */
  function RecordFailures(s: Plan, fs: seq<Failure>): Plan {
    s.(retained := s.retained + ScanResults(fs),
       counters := s.counters.(total := Wrap(s.counters.total + |fs|), weight := Wrap(s.counters.weight + |fs|)),
       outcomes := s.outcomes.(failed := s.outcomes.failed + |fs|),
       done := s.done + ScanDones(fs))
  }

  function WithPolicy(k: Keys, f: File): Option<File> {
    if f.sensitive.Some? then Some(f)
    else match k.policy(f.destination)
      case None => None
      case Some(p) => Some(f.(sensitive := Some(p)))
  }

  datatype Screened = Accepted(files: seq<File>, keys: set<Key>) | Refused(reason: AppendResult)

  /** Check each file's destination in turn against the keys already taken. `now` is a
      fresh factory's view of the same path: a changed case policy refuses the file. */
  function Screen(k: Keys, now: Path -> Key, files: seq<File>, taken: set<Key>): (r: Screened)
    ensures r.Accepted? ==> |r.files| == |files|
  {
    if files == [] then Accepted([], taken)
    else match WithPolicy(k, files[0])
      case None => Refused(InternalFailure)
      case Some(f) =>
        var key := k.key(f.destination);
        if key == [] || key != now(f.destination) || key in taken then Refused(DestinationCollision)
        else match Screen(k, now, files[1..], taken + {key})
          case Refused(reason) => Refused(reason)
          case Accepted(rest, keys) => Accepted([f] + rest, keys)
  }

  /** The id after the largest one seen; 0 once the last 64-bit id has been used. */
  function NextId(files: seq<File>, next: nat): nat {
    if files == [] then next
    else if files[0].id == MAX64 then NextId(files[1..], 0)
    else if next != 0 then NextId(files[1..], Max(next, files[0].id + 1))
    else NextId(files[1..], next)
  }

  function FirstAttempts(files: seq<File>): map<nat, nat> {
    map f | f in files :: f.id := 1
  }

  function Create(k: Keys, p: CopyPlan): Option<Plan> {
    match Screen(k, k.key, p.files, {})
    case Refused(_) => None
    case Accepted(files, keys) =>
      Some(RecordFailures(
        Plan(p.directories, 0, p.roots, p.root, p.operation, files, [], [], keys,
             p.totalBytes, |files|, 0, 0, p.largest, NextId(files, 1), [], map[], map[], map[],
             Counters(0, 0, 0, Wrap(Sum(files, WeightOf))), Outcomes(0, 0, 0, 0),
             [], FirstAttempts(files), [], {}),
        p.failures))
  }

  function Numbered(files: seq<File>, next: nat): (r: seq<File>)
    ensures |r| == |files|
    ensures forall i :: 0 <= i < |r| ==> r[i] == files[i].(id := next + i)
  {
    seq(|files|, i requires 0 <= i < |files| => files[i].(id := next + i))
  }

  function IdAfter(next: nat, count: nat): nat {
    if count != 0 && next + count - 1 == MAX64 then 0 else next + count
  }

  /** The first check an incoming plan fails, if any, before its files are screened. */
  function Refusal(k: Keys, s: Plan, p: CopyPlan, allowDrained: bool): Option<AppendResult> {
    if !allowDrained && s.pending == [] && s.active == [] && s.parked == [] then Some(Drained)
    else if k.key(p.root) != k.key(s.root) then Some(DifferentDestination)
    else if p.operation != s.operation then Some(DifferentOperation)
    else if s.totalBytes + p.totalBytes > MAX64 || s.totalFiles + |p.files| > MAX64 then Some(SizeOverflow)
    else if p.files != [] && (s.nextId == 0 || s.nextId + |p.files| - 1 > MAX64) then Some(InternalFailure)
    else if s.counters.total + Sum(p.files, WeightOf) > MAX64 then Some(SizeOverflow)
    else None
  }

  function Commit(s: Plan, p: CopyPlan, files: seq<File>, keys: set<Key>): Plan {
    var added := Numbered(files, s.nextId);
    RecordFailures(
      s.(directories := s.directories + p.directories, roots := s.roots + p.roots,
         pending := s.pending + added, reserved := keys, nextId := IdAfter(s.nextId, |files|),
         totalBytes := s.totalBytes + p.totalBytes, totalFiles := s.totalFiles + |files|,
         counters := s.counters.(total := s.counters.total + Sum(files, WeightOf)),
         largest := Max(s.largest, p.largest), begun := s.begun + FirstAttempts(added)),
      p.failures)
  }

  function Append(k: Keys, now: Path -> Key, s: Plan, p: CopyPlan, allowDrained: bool): (Plan, AppendResult) {
    match Refusal(k, s, p, allowDrained)
    case Some(reason) => (s, reason)
    case None =>
      match Screen(k, now, p.files, s.reserved)
      case Refused(reason) => (s, reason)
      case Accepted(files, keys) => (Commit(s, p, files, keys), Appended)
  }

  // ---- queue edits ----

  function Kept(files: seq<File>, gone: set<nat>): seq<File> {
    if files == [] then []
    else if files[0].id in gone then Kept(files[1..], gone)
    else [files[0]] + Kept(files[1..], gone)
  }

  function Selected(files: seq<File>, ids: set<nat>): seq<File> {
    if files == [] then []
    else if files[0].id in ids then [files[0]] + Selected(files[1..], ids)
    else Selected(files[1..], ids)
  }

  function Largest(files: seq<File>): nat {
    if files == [] then 0 else Max(files[0].size, Largest(files[1..]))
  }

  lemma {:induction false} LargestSnoc(xs: seq<File>, f: File)
    ensures Largest(xs + [f]) == Max(Largest(xs), f.size)
  {
    if xs == [] {
      assert [f][1..] == [];
    } else {
      assert (xs + [f])[1..] == xs[1..] + [f];
      LargestSnoc(xs[1..], f);
    }
  }

  /** Forget an item's in-flight progress, as removing it from the plan does. */
  function DropInFlight(s: Plan, id: nat): Plan {
    var mark := Get(s.highWater, id, 0);
    s.(counters := s.counters.(weight := s.counters.weight - Min(s.counters.weight, mark)),
       highWater := s.highWater - {id}, attemptBytes := s.attemptBytes - {id},
       attemptCounts := s.attemptCounts - {id})
  }

  function DropAll(s: Plan, files: seq<File>): Plan
    decreases files
  {
    if files == [] then s else DropAll(DropInFlight(s, files[0].id), files[1..])
  }

  function KeysOf(k: Keys, files: seq<File>): set<Key> {
    set f | f in files :: k.key(f.destination)
  }

  /** Remove the selected pending items: a plan edit that creates no result. */
  function Remove(k: Keys, s: Plan, ids: set<nat>): Plan {
    var gone := Selected(s.pending, ids);
    if gone == [] then s
    else
      var t := DropAll(
        s.(reserved := s.reserved - KeysOf(k, gone),
           totalBytes := s.totalBytes - Min(s.totalBytes, Wrap(Sum(gone, SizeOf))),
           totalFiles := s.totalFiles - Min(s.totalFiles, |gone|),
           counters := s.counters.(total := s.counters.total - Min(s.counters.total, Wrap(Sum(gone, WeightOf))))),
        gone);
      var left := Kept(s.pending, ids);
      t.(pending := left,
         largest := if exists f :: f in gone && f.size == s.largest then Largest(left + s.active) else s.largest)
  }

  /** Rotate the item with this id to the given queue position. */
  function MoveTo(files: seq<File>, from: nat, to: nat): (r: seq<File>)
    requires from < |files| && to < |files|
    ensures multiset(r) == multiset(files)
  {
    var rest := RemoveAt(files, from);
    assert rest == rest[..to] + rest[to..];
    assert files[from] in multiset(files);
    assert multiset(rest[..to] + [files[from]] + rest[to..]) == multiset(rest) + multiset{files[from]};
    rest[..to] + [files[from]] + rest[to..]
  }

  // ---- transfer of items between lists ----

  function Acquire(s: Plan): Plan {
    if s.pending == [] then s
    else s.(pending := s.pending[1..], active := s.active + [s.pending[0]],
            attemptBytes := s.attemptBytes - {s.pending[0].id})
  }

  function Release(s: Plan, id: nat): Plan {
    var i := Find(s.active, id);
    if i == |s.active| then s
    else s.(pending := [s.active[i]] + s.pending, active := RemoveAt(s.active, i))
  }

  function ParkAs(s: Plan, i: nat, hresult: int, preexisted: bool, action: RecoveryAction,
                  recovery: Option<Recovery>): Plan
    requires i < |s.active|
  {
    var f := s.active[i];
    s.(parked := s.parked + [ParkedFile(f, Incident(f.id, hresult, f.source, f.destination, preexisted,
                                                    action, Attempt(s, f.id)), recovery)],
       active := RemoveAt(s.active, i))
  }

  function Park(s: Plan, id: nat, hresult: int, preexisted: bool, action: RecoveryAction): Plan {
    var i := Find(s.active, id);
    if i == |s.active| then s else ParkAs(s, i, hresult, preexisted, action, None)
  }

  function ParkRemoval(s: Plan, id: nat, hresult: int, preexisted: bool,
                       sourcePrint: Fingerprint, destinationPrint: Fingerprint): Plan {
    var i := Find(s.active, id);
    if i == |s.active| then s
    else
      var f := s.active[i];
      ParkAs(s, i, hresult, preexisted, RetrySourceRemoval,
             Some(Recovery(f.id, hresult, f.source, f.destination, preexisted, Attempt(s, f.id),
                           sourcePrint, destinationPrint)))
  }

  predicate CanRestore(k: Keys, s: Plan, r: Recovery) {
    var w := Weight(r.sourcePrint.size);
    && r.source != "" && r.destination != "" && s.nextId != 0
    && s.counters.total + w <= MAX64 && s.counters.weight + w <= MAX64
    && s.totalBytes + r.sourcePrint.size <= MAX64 && s.totalFiles < MAX64
    && k.key(r.destination) != [] && k.key(r.destination) !in s.reserved
  }

  /** Bring back an archived source removal: already copied, so its weight is done. */
  function Restore(k: Keys, s: Plan, r: Recovery): Plan {
    if !CanRestore(k, s, r) then s
    else
      var id := s.nextId;
      var size := r.sourcePrint.size;
      var attempts := Max(r.attempts, 1);
      var file := File(id, r.source, r.destination, size, None);
      s.(parked := s.parked + [ParkedFile(file,
                                          Incident(id, r.hresult, r.source, r.destination, r.preexisted,
                                                   RetrySourceRemoval, attempts),
                                          Some(r.(fileId := id, attempts := attempts)))],
         reserved := s.reserved + {k.key(r.destination)},
         highWater := s.highWater[id := Weight(size)],
         attemptCounts := s.attemptCounts[id := attempts],
         nextId := IdAfter(id, 1),
         counters := s.counters.(total := s.counters.total + Weight(size), weight := s.counters.weight + Weight(size)),
         totalBytes := s.totalBytes + size, totalFiles := s.totalFiles + 1,
         largest := Max(s.largest, size),
         begun := s.begun[id := attempts], restored := s.restored + {id})
  }

  function Unpark(s: Plan, id: nat): Plan {
    var i := Find(ParkedFiles(s.parked), id);
    if i == |s.parked| || s.parked[i].incident.action != RetryTransfer then s
    else
      s.(pending := [s.parked[i].file] + s.pending, parked := RemoveAt(s.parked, i),
         attemptCounts := s.attemptCounts[id := Bump(s.parked[i].incident.attempts)],
         attemptBytes := s.attemptBytes - {id},
         begun := s.begun[id := Get(s.begun, id, 0) + 1])
  }

  function BeginRetry(s: Plan, id: nat, action: RecoveryAction): Plan {
    var i := Find(ParkedFiles(s.parked), id);
    if i == |s.parked| || s.parked[i].incident.action != action then s
    else
      var p := s.parked[i];
      var next := Bump(p.incident.attempts);
      s.(parked := s.parked[i := p.(incident := p.incident.(attempts := next))],
         attemptCounts := s.attemptCounts[id := next],
         begun := s.begun[id := Get(s.begun, id, 0) + 1])
  }

  function RetryFailed(s: Plan, id: nat, hresult: int): Plan {
    var i := Find(ParkedFiles(s.parked), id);
    if i == |s.parked| then s
    else
      var p := s.parked[i];
      s.(parked := s.parked[i := p.(incident := p.incident.(hresult := hresult))])
  }

  /** The recoveries to archive, with the incident's current result and attempt number. */
  function Removals(parked: seq<ParkedFile>): seq<Recovery> {
    if parked == [] then []
    else
      var p := parked[0];
      match p.recovery
      case None => Removals(parked[1..])
      case Some(r) =>
        [r.(fileId := p.incident.fileId, hresult := p.incident.hresult, attempts := p.incident.attempts)]
        + Removals(parked[1..])
  }

  // ---- terminal outcomes ----

  function CountOutcome(o: Outcomes, outcome: ItemOutcome): Outcomes {
    match outcome
    case Succeeded => o.(succeeded := o.succeeded + 1)
    case Skipped => o.(skipped := o.skipped + 1)
    case Failed => o.(failed := o.failed + 1)
    case CopiedSourceRetained => o.(retained := o.retained + 1)
  }

  /** Settle a file's accounts; the caller takes it out of its list. */
  function Resolve(k: Keys, s: Plan, f: File, outcome: ItemOutcome, hresult: int, preexisted: bool): Plan {
    var mark := Get(s.highWater, f.id, 0);
    var weight := Weight(f.size);
    var good := Successful(outcome);
    s.(retained := if outcome == Succeeded then s.retained
                   else s.retained + [ItemResult(f.id, outcome, hresult, f.source, f.destination, preexisted)],
       counters := s.counters.(weight := Wrap(s.counters.weight + (weight - Min(weight, mark))),
                               succeeded := if good then Wrap(s.counters.succeeded + f.size) else s.counters.succeeded),
       highWater := s.highWater - {f.id}, attemptBytes := s.attemptBytes - {f.id},
       attemptCounts := s.attemptCounts - {f.id},
       reserved := if good then s.reserved else s.reserved - {k.key(f.destination)},
       outcomes := CountOutcome(s.outcomes, outcome),
       completedBytes := if good then s.completedBytes + Min(f.size, Monus(s.totalBytes, s.completedBytes))
                         else s.completedBytes,
       completedFiles := if good && s.completedFiles < s.totalFiles then s.completedFiles + 1 else s.completedFiles,
       done := s.done + [Done(f, outcome, hresult, preexisted, false)])
  }

  function ResolvePending(k: Keys, s: Plan, id: nat, outcome: ItemOutcome, hresult: int, preexisted: bool): Plan {
    var i := Find(s.pending, id);
    if i == |s.pending| then s
    else Resolve(k, s, s.pending[i], outcome, hresult, preexisted).(pending := RemoveAt(s.pending, i))
  }

  function ResolveActive(k: Keys, s: Plan, id: nat, outcome: ItemOutcome, hresult: int, preexisted: bool): Plan {
    var i := Find(s.active, id);
    if i == |s.active| then s
    else Resolve(k, s, s.active[i], outcome, hresult, preexisted).(active := RemoveAt(s.active, i))
  }

  function ResolveParked(k: Keys, s: Plan, id: nat, outcome: ItemOutcome, hresult: int, preexisted: bool): Plan {
    var i := Find(ParkedFiles(s.parked), id);
    if i == |s.parked| then s
    else Resolve(k, s, s.parked[i].file, outcome, hresult, preexisted).(parked := RemoveAt(s.parked, i))
  }

  predicate Below(k: Keys, directory: Path, f: File) {
    k.key(directory) != [] && k.key(directory) < k.key(f.destination)
  }

  /** Fail every pending item below a directory, from queue position `i` on. */
  function FailUnder(k: Keys, s: Plan, directory: Path, hresult: int, i: nat): Plan
    requires i <= |s.pending|
    decreases |s.pending| - i
  {
    if i == |s.pending| then s
    else if Below(k, directory, s.pending[i]) then
      FailUnder(k, Resolve(k, s, s.pending[i], Failed, hresult, false).(pending := RemoveAt(s.pending, i)),
                directory, hresult, i)
    else FailUnder(k, s, directory, hresult, i + 1)
  }

  /** Success through the older completion call: counters only, no retained result. */
  function Complete(s: Plan, id: nat): Plan {
    var i := Find(s.active, id);
    if i == |s.active| then s
    else
      var f := s.active[i];
      var weight := Weight(f.size);
      s.(active := RemoveAt(s.active, i),
         completedBytes := s.completedBytes + Min(f.size, Monus(s.totalBytes, s.completedBytes)),
         completedFiles := if s.completedFiles < s.totalFiles then s.completedFiles + 1 else s.completedFiles,
         counters := s.counters.(weight := Wrap(s.counters.weight + (weight - Min(weight, Get(s.highWater, id, 0)))),
                                 succeeded := Wrap(s.counters.succeeded + f.size)),
         outcomes := CountOutcome(s.outcomes, Succeeded),
         highWater := s.highWater - {id}, attemptBytes := s.attemptBytes - {id},
         done := s.done + [Done(f, Succeeded, 0, false, false)])
  }

  /** The older skip: it takes an active item out of the plan altogether. */
  function Skip(k: Keys, s: Plan, id: nat): Plan {
    var i := Find(s.active, id);
    if i == |s.active| then s
    else
      var f := s.active[i];
      var left := RemoveAt(s.active, i);
      var t := DropInFlight(
        s.(reserved := s.reserved - {k.key(f.destination)},
           counters := s.counters.(total := s.counters.total - Min(s.counters.total, Weight(f.size)))), id);
      t.(totalBytes := s.totalBytes - Min(s.totalBytes, f.size), totalFiles := Monus(s.totalFiles, 1),
         active := left,
         largest := if f.size == s.largest then Largest(s.pending + left) else s.largest)
  }

  // ---- progress and destinations of active items ----

  function RecordBytes(s: Plan, id: nat, cumulative: nat): Plan {
    var i := Find(s.active, id);
    if i == |s.active| then s
    else
      var last := Get(s.attemptBytes, id, 0);
      var delta := if cumulative >= last then cumulative - last else cumulative;
      var mark := Get(s.highWater, id, 0);
      var next := HighWater(mark, s.active[i].size, cumulative);
      s.(attemptBytes := s.attemptBytes[id := cumulative], highWater := s.highWater[id := next],
         counters := s.counters.(physical := Wrap(s.counters.physical + delta),
                                 weight := Wrap(s.counters.weight + (next - mark))),
         writes := s.writes + [Write(id, delta)])
  }

  datatype Probe = Free | Exists | Unreadable

  /** What the redirect search sees: numbered alternatives of a path, and the disk. */
  datatype Surroundings = Surroundings(alternate: (Path, nat) -> Path, probe: Path -> Probe)

  const LAST_ALTERNATE: nat := 9999

  /** The first numbered alternative that neither the plan nor the disk has taken. */
  function FirstFree(k: Keys, s: Plan, w: Surroundings, destination: Path, n: nat): (r: Option<Path>)
    ensures r.Some? ==> k.key(r.value) !in s.reserved && w.probe(r.value) == Free
    decreases LAST_ALTERNATE + 1 - n
  {
    if n > LAST_ALTERNATE then None
    else
      var candidate := w.alternate(destination, n);
      if k.key(candidate) in s.reserved || w.probe(candidate) != Free then
        FirstFree(k, s, w, destination, n + 1)
      else Some(candidate)
  }

  function Redirect(k: Keys, s: Plan, id: nat, w: Surroundings): (r: (Plan, Option<Path>)) {
    var i := Find(s.active, id);
    if i == |s.active| then (s, None)
    else
      var f := s.active[i];
      match FirstFree(k, s, w, f.destination, 2)
      case None => (s, None)
      case Some(to) =>
        (s.(reserved := s.reserved + {k.key(to)} - {k.key(f.destination)},
            active := s.active[i := f.(destination := to)]), Some(to))
  }

  function MarkMaterialized(s: Plan, through: nat): Plan {
    s.(materialized := Max(s.materialized, Min(through, |s.directories|)))
  }
}
