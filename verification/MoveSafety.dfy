/** Removing the source of a moved file, step by step, on a disk that others change between
    the steps. A handle pins what it was opened on: while it is open nobody else changes or
    unlinks that path, and its sharing mode keeps conflicting handles out. */
module MoveSafety {
  import opened Items
  import opened Executor

  datatype Object = Object(seal: Fingerprint, directory: bool, link: bool)

  type Disk = map<Path, Object>

  /** Where a removal is. Each removal has a thread of its own. */
  datatype Stage =
    | Asked(r: Recovery)
    | Anchored(r: Recovery)
    | Opened(r: Recovery)
    | Trusted(r: Recovery)
    | Facing(r: Recovery)
    | Armed(r: Recovery)
    | Done(r: Recovery, result: Removal)

  /** A source the executor took away: by deleting it, or by renaming it to its destination. */
  datatype Entry =
    | Unlinked(thread: nat, r: Recovery, source: Object, destination: Object)
    | Renamed(from: Path, to: Path, moved: Object, arrived: Object)

  datatype World = World(disk: Disk, stages: seq<Stage>, log: seq<Entry>)

  /** The codes for a file that is not the one expected, and for none at all. */
  const FILE_INVALID: int := -2147023890
  const FILE_NOT_FOUND: int := -2147024894

  /** What the system answers a step: it may refuse any request with a code of its own. */
  datatype Answer = Fine | Refuses(code: int)

  datatype Move =
    | Ask(r: Recovery)
    | Advance(thread: nat, answer: Answer)
    | Rename(from: Path, to: Path)
    | Disturb(disk: Disk)

  /** The object at a path is the recorded one: same size, time and identity, a plain file. */
  predicate Matches(expected: Fingerprint, o: Object) {
    expected.identity.Some? && !o.link && !o.directory && o.seal == expected
  }

  // ---- pins ----

  predicate ReadsPath(s: Stage, p: Path) {
    (s.Opened? || s.Trusted? || s.Facing? || s.Armed?) && s.r.destination == p
  }

  predicate DeletesPath(s: Stage, p: Path) { (s.Facing? || s.Armed?) && s.r.source == p }

  predicate Pins(s: Stage, p: Path) { ReadsPath(s, p) || DeletesPath(s, p) }

  predicate Read(w: World, p: Path) { exists i :: 0 <= i < |w.stages| && ReadsPath(w.stages[i], p) }
  predicate Deleting(w: World, p: Path) { exists i :: 0 <= i < |w.stages| && DeletesPath(w.stages[i], p) }
  predicate Pinned(w: World, p: Path) { exists i :: 0 <= i < |w.stages| && Pins(w.stages[i], p) }

  // ---- steps ----

  /** The next stage of a removal, when the system does not refuse the request. */
  function Onward(w: World, s: Stage): Stage {
    match s
    case Asked(r) => Anchored(r)
    case Anchored(r) => if r.destination in w.disk then Opened(r) else Done(r, Kept(FILE_NOT_FOUND))
    case Opened(r) =>
      if r.destination in w.disk && Matches(r.destinationPrint, w.disk[r.destination]) then Trusted(r)
      else Done(r, Kept(FILE_INVALID))
    case Trusted(r) => if r.source in w.disk then Facing(r) else Done(r, AlreadyGone)
    case Facing(r) =>
      if r.source in w.disk && Matches(r.sourcePrint, w.disk[r.source]) then Armed(r)
      else Done(r, Kept(FILE_INVALID))
    case Armed(r) => Done(r, Deleted)
    case Done(_, _) => s
  }

  /** Handles that conflict with one already open are refused. */
  predicate Shared(w: World, s: Stage) {
    match s
    case Anchored(r) => !Deleting(w, r.destination)
    case Trusted(r) => !Pinned(w, r.source)
    case _ => true
  }

  function Advanced(w: World, i: nat, answer: Answer): World
    requires i < |w.stages|
  {
    var s := w.stages[i];
    if s.Done? then w
    else if answer.Refuses? then w.(stages := w.stages[i := Done(s.r, Kept(answer.code))])
    else if !Shared(w, s) then w
    else if s.Armed? && s.r.source in w.disk && s.r.destination in w.disk then
      World(w.disk - {s.r.source}, w.stages[i := Done(s.r, Deleted)],
            w.log + [Unlinked(i, s.r, w.disk[s.r.source], w.disk[s.r.destination])])
    else w.(stages := w.stages[i := Onward(w, s)])
  }

  /** Others may do anything to the disk, but not to pinned paths. */
  ghost predicate Leaves(w: World, disk: Disk) {
    forall p :: Pinned(w, p) ==> (p in w.disk <==> p in disk) && (p in w.disk ==> disk[p] == w.disk[p])
  }

  ghost function Step(w: World, move: Move): World {
    match move
    case Ask(r) => w.(stages := w.stages + [Asked(r)])
    case Advance(i, answer) => if i < |w.stages| then Advanced(w, i, answer) else w
    case Rename(from, to) =>
      if from in w.disk && from != to && !Pinned(w, from) && !Pinned(w, to) then
        var disk := (w.disk - {from})[to := w.disk[from]];
        World(disk, w.stages, w.log + [Renamed(from, to, w.disk[from], disk[to])])
      else w
    case Disturb(disk) => if Leaves(w, disk) then w.(disk := disk) else w
  }

  ghost function Played(w: World, moves: seq<Move>): World
    decreases |moves|
  {
    if moves == [] then w else Played(Step(w, moves[0]), moves[1..])
  }

  // ---- what every world keeps ----

  /** What a removal has checked is still true while its handles are open. */
  predicate Upheld(w: World, s: Stage) {
    && (s.Opened? || s.Trusted? || s.Facing? || s.Armed? ==> s.r.destination in w.disk)
    && (s.Trusted? || s.Facing? || s.Armed? ==> Matches(s.r.destinationPrint, w.disk[s.r.destination]))
    && (s.Facing? || s.Armed? ==> s.r.source in w.disk && s.r.source != s.r.destination)
    && (s.Armed? ==> Matches(s.r.sourcePrint, w.disk[s.r.source]))
  }

  /** Nobody else has a handle on a source that is about to be deleted. */
  ghost predicate Exclusive(w: World) {
    forall i, j, p :: 0 <= i < |w.stages| && 0 <= j < |w.stages| && i != j && DeletesPath(w.stages[i], p) ==>
      !Pins(w.stages[j], p)
  }

  /** A deleted source was the recorded one, and the recorded copy was at its destination. */
  predicate Warranted(e: Entry) {
    match e
    case Unlinked(_, r, source, destination) =>
      && Matches(r.sourcePrint, source) && Matches(r.destinationPrint, destination) && r.source != r.destination
    case Renamed(from, to, moved, arrived) => moved == arrived && from != to
  }

  /** A removal is in the log exactly when it reports that it deleted the source. */
  ghost predicate Reported(w: World) {
    forall i :: 0 <= i < |w.stages| ==>
      (Logged(w.log, i) <==> w.stages[i].Done? && w.stages[i].result == Deleted)
  }

  predicate Logged(log: seq<Entry>, i: nat) { exists e :: e in log && e.Unlinked? && e.thread == i }

  ghost predicate Sane(w: World) {
    && (forall s :: s in w.stages ==> Upheld(w, s)) && Exclusive(w)
    && (forall e :: e in w.log ==> Warranted(e) && (e.Unlinked? ==> e.thread < |w.stages|))
    && Reported(w)
  }

  lemma PinnedBy(w: World, i: nat, p: Path)
    requires i < |w.stages| && Pins(w.stages[i], p)
    ensures Pinned(w, p)
  {
  }

  lemma UpheldElsewhere(w: World, t: World, s: Stage)
    requires Upheld(w, s)
    requires forall p :: Pins(s, p) ==> (p in w.disk <==> p in t.disk) && (p in w.disk ==> t.disk[p] == w.disk[p])
    ensures Upheld(t, s)
  {
    if s.Opened? || s.Trusted? || s.Facing? || s.Armed? {
      assert Pins(s, s.r.destination);
      if s.Facing? || s.Armed? { assert Pins(s, s.r.source); }
    }
  }

  lemma DisturbSane(w: World, disk: Disk)
    requires Sane(w) && Leaves(w, disk)
    ensures Sane(w.(disk := disk))
  {
    var t := w.(disk := disk);
    forall s | s in t.stages
      ensures Upheld(t, s)
    {
      var i :| 0 <= i < |w.stages| && w.stages[i] == s;
      forall p | Pins(s, p)
        ensures (p in w.disk <==> p in disk) && (p in w.disk ==> disk[p] == w.disk[p])
      {
        PinnedBy(w, i, p);
      }
      UpheldElsewhere(w, t, s);
    }
  }

  lemma LoggedSnoc(log: seq<Entry>, e: Entry, i: nat)
    ensures Logged(log + [e], i) <==> Logged(log, i) || (e.Unlinked? && e.thread == i)
  {
    if Logged(log, i) {
      var x :| x in log && x.Unlinked? && x.thread == i;
      assert x in log + [e];
    }
    assert e in log + [e];
  }

  lemma RenameSane(w: World, from: Path, to: Path)
    requires Sane(w)
    ensures Sane(Step(w, Move.Rename(from, to)))
  {
    var t := Step(w, Move.Rename(from, to));
    if t != w {
      forall s | s in t.stages
        ensures Upheld(t, s)
      {
        var i :| 0 <= i < |w.stages| && w.stages[i] == s;
        forall p | Pins(s, p)
          ensures p != from && p != to
        {
          PinnedBy(w, i, p);
        }
        UpheldElsewhere(w, t, s);
      }
      forall i | 0 <= i < |t.stages|
        ensures Logged(t.log, i) <==> t.stages[i].Done? && t.stages[i].result == Deleted
      {
        LoggedSnoc(w.log, t.log[|w.log|], i);
      }
    }
  }

  lemma AskSane(w: World, r: Recovery)
    requires Sane(w)
    ensures Sane(Step(w, Ask(r)))
  {
    var t := Step(w, Ask(r));
    assert forall s :: s in t.stages ==> s in w.stages || s == Asked(r);
    assert !Logged(w.log, |w.stages|);
  }

  /** A step of one removal that touches neither disk nor log. */
  lemma StageSane(w: World, i: nat, s: Stage)
    requires Sane(w) && i < |w.stages| && !w.stages[i].Done? && Upheld(w, s) && !(s.Done? && s.result == Deleted)
    requires forall p :: Pins(s, p) ==> Pins(w.stages[i], p) || !Deleting(w, p)
    requires forall p :: DeletesPath(s, p) ==> DeletesPath(w.stages[i], p) || !Pinned(w, p)
    ensures Sane(w.(stages := w.stages[i := s]))
  {
    var t := w.(stages := w.stages[i := s]);
    forall x | x in t.stages
      ensures Upheld(t, x)
    {
      assert x in w.stages || x == s;
      assert Upheld(w, x);
    }
    forall a, b, p | 0 <= a < |t.stages| && 0 <= b < |t.stages| && a != b && DeletesPath(t.stages[a], p)
      ensures !Pins(t.stages[b], p)
    {
      if a == i {
        if DeletesPath(w.stages[i], p) { assert !Pins(w.stages[b], p); }
      } else if b == i {
        assert Deleting(w, p) && !Pins(w.stages[i], p);
      }
    }
  }

  lemma DeleteSane(w: World, i: nat)
    requires Sane(w) && i < |w.stages| && w.stages[i].Armed?
    ensures Sane(Advanced(w, i, Fine))
    ensures var r := w.stages[i].r;
      && r.source in w.disk && Matches(r.sourcePrint, w.disk[r.source])
      && Advanced(w, i, Fine).disk == w.disk - {r.source}
      && r.destination in Advanced(w, i, Fine).disk && Matches(r.destinationPrint, Advanced(w, i, Fine).disk[r.destination])
  {
    var s := w.stages[i];
    assert s in w.stages;
    var t := Advanced(w, i, Fine);
    forall x | x in t.stages
      ensures Upheld(t, x)
    {
      var j :| 0 <= j < |t.stages| && t.stages[j] == x;
      if j != i {
        assert x == w.stages[j] && !Pins(w.stages[j], s.r.source);
        UpheldElsewhere(w, t, x);
      }
    }
    forall j | 0 <= j < |t.stages|
      ensures Logged(t.log, j) <==> t.stages[j].Done? && t.stages[j].result == Deleted
    {
      LoggedSnoc(w.log, t.log[|w.log|], j);
    }
  }

  lemma AdvanceSane(w: World, i: nat, answer: Answer)
    requires Sane(w) && i < |w.stages|
    ensures Sane(Advanced(w, i, answer))
  {
    var s := w.stages[i];
    assert s in w.stages;
    if s.Done? {
    } else if answer.Refuses? {
      StageSane(w, i, Done(s.r, Kept(answer.code)));
    } else if !Shared(w, s) {
    } else if s.Armed? {
      DeleteSane(w, i);
    } else {
      var next := Onward(w, s);
      if s.Trusted? && next.Facing? { SourceApart(w, i); }
      StageSane(w, i, next);
    }
  }

  /** A source that can be opened for deletion is not the pinned destination. */
  lemma SourceApart(w: World, i: nat)
    requires i < |w.stages| && w.stages[i].Trusted? && !Pinned(w, w.stages[i].r.source)
    ensures w.stages[i].r.source != w.stages[i].r.destination
  {
    PinnedBy(w, i, w.stages[i].r.destination);
  }

  lemma StepSane(w: World, move: Move)
    requires Sane(w)
    ensures Sane(Step(w, move))
  {
    hide Sane;
    match move {
      case Ask(r) => AskSane(w, r);
      case Advance(i, answer) => if i < |w.stages| { AdvanceSane(w, i, answer); }
      case Rename(from, to) => RenameSane(w, from, to);
      case Disturb(disk) => if Leaves(w, disk) { DisturbSane(w, disk); }
    }
  }

  lemma {:induction false} SaneOverRuns(w: World, moves: seq<Move>)
    requires Sane(w)
    ensures Sane(Played(w, moves))
    decreases |moves|
  {
    if moves != [] {
      hide Sane, Step;
      StepSane(w, moves[0]);
      SaneOverRuns(Step(w, moves[0]), moves[1..]);
    }
  }

  /** A Move never loses data: whatever others do to the disk between the steps, and however
      many removals run at once, a source is deleted only as the recorded object, while the
      recorded copy stands pinned at its destination, or it is renamed to its destination. */
  lemma MoveNeverLosesData(disk: Disk, moves: seq<Move>, e: Entry)
    requires e in Played(World(disk, [], []), moves).log
    ensures Warranted(e)
  {
    SaneOverRuns(World(disk, [], []), moves);
  }

  /** A removal that reports anything but a deletion has deleted nothing. */
  lemma KeptMeansKept(disk: Disk, moves: seq<Move>, i: nat)
    requires var w := Played(World(disk, [], []), moves);
      i < |w.stages| && w.stages[i].Done? && w.stages[i].result != Deleted
    ensures !Logged(Played(World(disk, [], []), moves).log, i)
  {
    SaneOverRuns(World(disk, [], []), moves);
  }

  /** Only a removal with both identities recorded ever deletes. */
  lemma DeletionNeedsIdentity(disk: Disk, moves: seq<Move>, i: nat)
    requires var w := Played(World(disk, [], []), moves);
      i < |w.stages| && w.stages[i].Done? && w.stages[i].result == Deleted
    ensures var r := Played(World(disk, [], []), moves).stages[i].r;
      r.sourcePrint.identity.Some? && r.destinationPrint.identity.Some?
  {
    SameRecoveryOverRuns(World(disk, [], []), moves);
    SaneOverRuns(World(disk, [], []), moves);
    var w := Played(World(disk, [], []), moves);
    assert Logged(w.log, i);
    var e :| e in w.log && e.Unlinked? && e.thread == i;
    assert Warranted(e) && e.r == w.stages[i].r;
  }

  /** Log entries keep the recovery of the thread that made them. */
  ghost predicate SameRecovery(w: World) {
    forall e :: e in w.log && e.Unlinked? ==> e.thread < |w.stages| && w.stages[e.thread].r == e.r
  }

  lemma {:induction false} SameRecoveryOverRuns(w: World, moves: seq<Move>)
    requires SameRecovery(w)
    ensures SameRecovery(Played(w, moves))
    decreases |moves|
  {
    if moves != [] {
      SameRecoveryStep(w, moves[0]);
      hide SameRecovery, Step;
      SameRecoveryOverRuns(Step(w, moves[0]), moves[1..]);
    }
  }

  lemma SameRecoveryStep(w: World, move: Move)
    requires SameRecovery(w)
    ensures SameRecovery(Step(w, move))
  {
    hide Pinned, Deleting, Leaves, Matches;
  }

  // ---- the verdict on a parked removal ----

  datatype Probe = Missing | Present(seal: Fingerprint) | Unreachable

  /** Fingerprints agree; identities only count when one was recorded. */
  predicate SamePrint(expected: Fingerprint, actual: Fingerprint) {
    && expected.size == actual.size && expected.writeTime == actual.writeTime
    && (expected.identity.Some? ==> actual.identity == expected.identity)
  }

  function Validate(r: Recovery, destination: Probe, source: Probe): Verdict {
    if destination.Unreachable? then Unavailable
    else if destination.Missing? || !SamePrint(r.destinationPrint, destination.seal) then Changed
    else if source.Unreachable? then Unavailable
    else if source.Missing? then Gone
    else if !SamePrint(r.sourcePrint, source.seal) then Changed
    else Verified
  }

  function Probed(disk: Disk, p: Path): Probe { if p in disk then Present(disk[p].seal) else Missing }

  /** On plain files nobody disturbs, the verdict decides what the removal does: with both
      identities recorded it goes through to the deletion exactly when the verdict was
      `Verified`; without them it never does, whatever the verdict. */
  lemma VerdictDecides(disk: Disk, r: Recovery)
    requires r.source != r.destination
    requires forall p :: p in disk ==> !disk[p].link && !disk[p].directory
    ensures var go := Advance(0, Fine);
      var w := Played(World(disk, [], []), [Ask(r), go, go, go, go, go, go]);
      (w.stages == [Done(r, Deleted)])
      <==> (Validate(r, Probed(disk, r.destination), Probed(disk, r.source)) == Verified
            && r.sourcePrint.identity.Some? && r.destinationPrint.identity.Some?)
  {
    var go := Advance(0, Fine);
    var a := World(disk, [Asked(r)], []);
    var moves := [go, go, go, go, go, go];
    assert [Ask(r), go, go, go, go, go, go][1..] == moves && Step(World(disk, [], []), Ask(r)) == a;
    SixSteps(a, go);
    AloneGoesOn(disk, r);
  }

  lemma SixSteps(w: World, go: Move)
    ensures Played(w, [go, go, go, go, go, go]) == Step(Step(Step(Step(Step(Step(w, go), go), go), go), go), go)
  {
    hide Step;
    var a := Step(w, go);
    var b := Step(a, go);
    var c := Step(b, go);
    var d := Step(c, go);
    var e := Step(d, go);
    assert Played(e, [go]) == Step(e, go);
    assert Played(d, [go, go]) == Played(e, [go]);
    assert Played(c, [go, go, go]) == Played(d, [go, go]);
    assert Played(b, [go, go, go, go]) == Played(c, [go, go, go]);
    assert Played(a, [go, go, go, go, go]) == Played(b, [go, go, go, go]);
  }

  /** A single removal on an undisturbed disk. */
  lemma AloneGoesOn(disk: Disk, r: Recovery)
    requires r.source != r.destination
    requires forall p :: p in disk ==> !disk[p].link && !disk[p].directory
    ensures var go := Advance(0, Fine);
      var w := Step(Step(Step(Step(Step(Step(World(disk, [Asked(r)], []), go), go), go), go), go), go);
      (w.stages == [Done(r, Deleted)])
      <==> (r.destination in disk && Matches(r.destinationPrint, disk[r.destination])
            && r.source in disk && Matches(r.sourcePrint, disk[r.source]))
  {
    var go := Advance(0, Fine);
    var a := Step(World(disk, [Asked(r)], []), go);
    assert a == World(disk, [Anchored(r)], []);
    var b := Step(a, go);
    var c := Step(b, go);
    var d := Step(c, go);
    var e := Step(d, go);
    if r.destination in disk {
      assert b == World(disk, [Opened(r)], []);
      if Matches(r.destinationPrint, disk[r.destination]) {
        assert c == World(disk, [Trusted(r)], []);
        if r.source in disk {
          assert d == World(disk, [Facing(r)], []);
        }
      }
    }
  }
}
