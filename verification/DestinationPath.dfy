/** Pinning the way down to a destination and making the part of it that is missing:
    what a failure leaves on the disk. */
module DestinationPath {
  /** Names of directories, equal when the file system takes them for the same. */
  type Name = nat
  type Path = seq<Name>

  /** How the system answers the creation of a directory: made, there already because somebody
      else was faster, or refused; and whether it can then be opened and is safe. */
  datatype Creation = Made | Existed | Refused
  datatype Answer = Answer(creation: Creation, opens: bool)

  datatype Pin = Pin(path: Path, created: bool, open: bool)

  /** The first names of a path. */
  function Upper(path: Path, i: nat): Path { if i <= |path| then path[..i] else path }

  /** Directories lie in directories; the root is always there. */
  ghost predicate Closed(dirs: set<Path>) { [] in dirs && forall d :: d in dirs && d != [] ==> Upper(d, |d| - 1) in dirs }

  /** How far down the path exists. */
  ghost function Depth(dirs: set<Path>, path: Path): (k: nat)
    requires Closed(dirs)
    ensures k <= |path|
  {
    if path in dirs then |path| else Depth(dirs, Upper(path, |path| - 1))
  }

  lemma UpperOf(path: Path, j: nat, i: nat)
    requires i <= j <= |path|
    ensures Upper(Upper(path, j), i) == Upper(path, i) && Upper(path, |path|) == path
  {
    assert path[..j][..i] == path[..i];
  }

  lemma {:induction false} AboveExists(dirs: set<Path>, d: Path, i: nat)
    requires Closed(dirs) && d in dirs && i <= |d|
    ensures Upper(d, i) in dirs
    decreases |d| - i
  {
    if i < |d| {
      AboveExists(dirs, d, i + 1);
      UpperOf(d, i + 1, i);
    } else {
      UpperOf(d, |d|, i);
    }
  }

  /** A path exists down to its depth and no further. */
  lemma {:induction false} ExistsIff(dirs: set<Path>, path: Path, i: nat)
    requires Closed(dirs) && i <= |path|
    ensures Upper(path, i) in dirs <==> i <= Depth(dirs, path)
    decreases |path|
  {
    UpperOf(path, |path|, i);
    if path in dirs {
      AboveExists(dirs, path, i);
    } else if i < |path| {
      ExistsIff(dirs, Upper(path, |path| - 1), i);
      UpperOf(path, |path| - 1, i);
    }
  }

  /** A disk, and the path on it down to some depth. */
  ghost function Grown(dirs: set<Path>, path: Path, depth: nat): set<Path>
    decreases depth
  {
    if depth == 0 then dirs else Grown(dirs, path, depth - 1) + {Upper(path, depth)}
  }

  lemma {:induction false} GrownHas(dirs: set<Path>, path: Path, depth: nat, d: Path)
    requires depth <= |path|
    ensures d in Grown(dirs, path, depth) <==> d in dirs || (0 < |d| <= depth && d == Upper(path, |d|))
  {
    if depth > 0 { GrownHas(dirs, path, depth - 1, d); }
  }

  /** What exists of the path need not be added. */
  lemma {:induction false} GrownFrom(dirs: set<Path>, path: Path, depth: nat)
    requires Closed(dirs) && depth <= Depth(dirs, path)
    ensures Grown(dirs, path, depth) == dirs
  {
    if depth > 0 {
      GrownFrom(dirs, path, depth - 1);
      ExistsIff(dirs, path, depth);
    }
  }

  // ---- which component fails, and what is left ----

  /** The first component that is refused or cannot be opened, or one beyond the last. */
  function Failing(how: nat -> Answer, i: nat, last: nat): (j: nat)
    requires i <= last + 1
    ensures i <= j <= last + 1
    decreases last + 1 - i
  {
    if i > last || how(i).creation == Refused || !how(i).opens then i else Failing(how, i + 1, last)
  }

  /** The deepest component somebody else made, or the depth to start from. */
  function Foreign(how: nat -> Answer, above: nat, depth: nat): (m: nat)
    requires above <= depth
    ensures above <= m <= depth
    decreases depth
  {
    if depth == above || how(depth).creation == Existed then depth else Foreign(how, above, depth - 1)
  }

  /** How deep the path is after a failure: a directory that appeared without a handle on it
      stays, and so does everything above it; otherwise all goes below the deepest component
      made by somebody else. */
  function LeftAfter(how: nat -> Answer, above: nat, failing: nat): (m: nat)
    requires above < failing
    ensures above <= m <= failing
  {
    if how(failing).creation != Refused then failing else Foreign(how, above, failing - 1)
  }

  /** A failure leaves the disk as it was exactly when the failing component was refused and
      nobody else made any of the components before it. */
  lemma UndoneIff(dirs: set<Path>, path: Path, how: nat -> Answer, failing: nat)
    requires Closed(dirs) && Depth(dirs, path) < failing <= |path|
    ensures var above := Depth(dirs, path);
      Grown(dirs, path, LeftAfter(how, above, failing)) == dirs
      <==> how(failing).creation == Refused && forall i :: above < i < failing ==> how(i).creation != Existed
  {
    var above := Depth(dirs, path);
    var left := LeftAfter(how, above, failing);
    ForeignIff(how, above, failing - 1);
    GrownFrom(dirs, path, above);
    if left > above {
      ExistsIff(dirs, path, left);
      GrownHas(dirs, path, left, Upper(path, left));
    }
  }

  lemma {:induction false} ForeignIff(how: nat -> Answer, above: nat, depth: nat)
    requires above <= depth
    ensures Foreign(how, above, depth) == above <==> forall i :: above < i <= depth ==> how(i).creation != Existed
    decreases depth
  {
    if depth != above && how(depth).creation != Existed { ForeignIff(how, above, depth - 1); }
  }

  /** One missing component, made but then not opened: it stays. */
  lemma StrandedExample()
    ensures var dirs, path, how := {[]}, [0], (i: nat) => Answer(Made, false);
      && Closed(dirs) && Depth(dirs, path) == 0 && Failing(how, 1, 1) == 1
      && Grown(dirs, path, LeftAfter(how, 0, 1)) == {[], [0]}
  {
    var dirs: set<Path>, path: Path := {[]}, [0];
    var how := (i: nat) => Answer(Made, false);
    assert Upper(path, 0) == [] && Upper(path, 1) == path;
    assert Grown(dirs, path, 1) == dirs + {path};
  }

  /** Only an empty directory can be deleted. */
  ghost predicate Vacant(dirs: set<Path>, d: Path) { forall e :: e in dirs && |e| > |d| ==> Upper(e, |d|) != d }

  /** A new directory is vacant when it is the deepest one, and then it can go. */
  lemma VacantIff(dirs: set<Path>, path: Path, i: nat, depth: nat)
    requires Closed(dirs) && Depth(dirs, path) < i <= depth <= |path|
    ensures Vacant(Grown(dirs, path, depth), Upper(path, i)) <==> depth == i
    ensures Grown(dirs, path, i) - {Upper(path, i)} == Grown(dirs, path, i - 1)
  {
    var d := Upper(path, i);
    ExistsIff(dirs, path, i);
    GrownHas(dirs, path, i - 1, d);
    if depth > i {
      UpperOf(path, i + 1, i);
      GrownHas(dirs, path, depth, Upper(path, i + 1));
    } else {
      forall e | e in Grown(dirs, path, depth) && |e| > i
        ensures Upper(e, i) != d
      {
        GrownHas(dirs, path, depth, e);
        AboveExists(dirs, e, i);
      }
    }
  }

  lemma LeftIs(how: nat -> Answer, above: nat, failing: nat)
    requires above < failing
    ensures LeftAfter(how, above, failing)
            == if how(failing).creation != Refused then failing else Foreign(how, above, failing - 1)
  {
  }

  lemma FailingStep(how: nat -> Answer, i: nat, last: nat)
    requires i <= last
    ensures Failing(how, i, last) == if how(i).creation == Refused || !how(i).opens then i else Failing(how, i + 1, last)
  {
  }

  lemma FailingEnd(how: nat -> Answer, last: nat)
    ensures Failing(how, last + 1, last) == last + 1
  {
  }

  lemma GrownStep(dirs: set<Path>, path: Path, depth: nat)
    ensures Grown(dirs, path, depth + 1) == Grown(dirs, path, depth) + {Upper(path, depth + 1)}
  {
  }

  /** Pins for a path: those of what existed, then what was made or found in order. */
  predicate Pinned(handles: seq<Pin>, path: Path, how: nat -> Answer, above: nat, depth: nat) {
    && above <= depth <= |path| && |handles| == depth && (forall t :: 0 <= t < above ==> !handles[t].created)
    && forall t :: above <= t < depth ==> PinAt(handles[t], path, how, t + 1)
  }

  predicate PinAt(p: Pin, path: Path, how: nat -> Answer, i: nat) {
    p == NewPin(path, how, i) && how(i).creation != Refused
  }

  function NewPin(path: Path, how: nat -> Answer, i: nat): Pin { Pin(Upper(path, i), how(i).creation == Made, true) }

  lemma PinnedSnoc(handles: seq<Pin>, path: Path, how: nat -> Answer, above: nat, depth: nat)
    requires Pinned(handles, path, how, above, depth) && depth < |path| && how(depth + 1).creation != Refused
    ensures Pinned(handles + [NewPin(path, how, depth + 1)], path, how, above, depth + 1)
  {
    var more := handles + [NewPin(path, how, depth + 1)];
    assert PinAt(more[depth], path, how, depth + 1);
    hide NewPin, PinAt;
    assert forall t :: 0 <= t < depth ==> more[t] == handles[t];
  }

  /** The directories of a path from the deepest upwards. */
  predicate Listed(missing: seq<Path>, path: Path) {
    |missing| <= |path| && forall t :: 0 <= t < |missing| ==> missing[t] == Upper(path, |path| - t)
  }

  lemma ListedAt(missing: seq<Path>, path: Path, i: nat)
    requires Listed(missing, path) && i < |missing|
    ensures missing[i] == Upper(path, |path| - i)
  {
  }

  lemma PinnedLength(handles: seq<Pin>, path: Path, how: nat -> Answer, above: nat, depth: nat)
    requires Pinned(handles, path, how, above, depth)
    ensures above <= depth <= |path| && |handles| == depth
  {
  }

  /** No pin that is still held is of a directory made here. */
  predicate NoneMade(handles: seq<Pin>) { forall t :: 0 <= t < |handles| ==> handles[t].open ==> !handles[t].created }

  class DestinationPathGuard {
    var handles: seq<Pin>
    /** What does not exist yet, deepest first. */
    var missing: seq<Path>
    /** The disk's directories. */
    ghost var dirs: set<Path>

    constructor (ghost disk: set<Path>)
      ensures handles == [] && missing == [] && dirs == disk
    {
      handles, missing, dirs := [], [], disk;
    }

    /** Pin what exists of a path, deepest first; anything but a safe directory fails. */
    method LockExistingChain(path: Path, present: Path -> bool, safe: Path -> bool) returns (ok: bool)
      requires Closed(dirs) && handles == [] && forall d :: present(d) <==> d in dirs
      modifies this`handles, this`missing
      ensures ok <==> forall i :: 1 <= i <= Depth(dirs, path) ==> safe(Upper(path, i))
      ensures ok ==> |handles| == Depth(dirs, path) && |missing| == |path| - |handles|
      ensures ok ==> forall t :: 0 <= t < |handles| ==> handles[t] == Pin(Upper(path, |handles| - t), false, true)
      ensures ok ==> Listed(missing, path)
    {
      hide Upper, Depth, Closed;
      missing := [];
      ghost var k := Depth(dirs, path);
      for i := |path| downto 0
        invariant |handles| == (if i < k then k - i else 0) && |missing| == |path| - (if i < k then k else i)
        invariant forall t :: 0 <= t < |handles| ==> handles[t] == Pin(Upper(path, k - t), false, true)
        invariant forall t :: 0 <= t < |missing| ==> missing[t] == Upper(path, |path| - t)
        invariant forall j :: i < j <= k ==> safe(Upper(path, j))
      {
        ExistsIff(dirs, path, i + 1);
        var probe := Upper(path, i + 1);
        if !present(probe) {
          missing := missing + [probe];
        } else {
          if !safe(probe) { return false; }
          handles := handles + [Pin(probe, false, true)];
        }
      }
      ok := true;
    }

    /** Deepest first, delete what was made; a directory with something in it stays. */
    method RollbackCreated(ghost path: Path, ghost how: nat -> Answer, ghost before: set<Path>, ghost deepest: nat)
      requires Closed(before) && Depth(before, path) <= |handles| <= deepest <= |path| && deepest <= |handles| + 1
      requires Pinned(handles, path, how, Depth(before, path), |handles|) && dirs == Grown(before, path, deepest)
      modifies this`handles, this`dirs
      ensures var above := Depth(before, path);
        dirs == Grown(before, path, if deepest > old(|handles|) then deepest else Foreign(how, above, deepest))
      ensures NoneMade(handles)
    {
      hide Upper, Depth, Closed, Grown, Vacant;
      ghost var n, above := |handles|, Depth(before, path);
      ghost var rest := if deepest > n then deepest else Foreign(how, above, deepest);
      ghost var depth: nat := deepest;
      for i := |handles| downto 0
        invariant |handles| == n && forall t :: 0 <= t < i ==> handles[t] == old(handles[t])
        invariant depth <= |path| && dirs == Grown(before, path, depth)
        invariant (depth == rest && (depth > i || i <= above)) || (depth == i && i > above && rest == Foreign(how, above, i))
        invariant forall t :: i <= t < n ==> handles[t].open ==> !handles[t].created
      {
        var pin := handles[i];
        if pin.created {
          VacantIff(before, path, i + 1, depth);
          if Vacant(dirs, pin.path) {
            dirs := dirs - {pin.path};
            depth := i;
          }
          handles := handles[i := pin.(open := false)];
        }
      }
    }

    /** Make one component; a failure undoes what it can. */
    method MakeNext(path: Path, how: nat -> Answer, ghost before: set<Path>, depth: nat, d: Path) returns (ok: bool)
      requires Closed(before) && Depth(before, path) < depth <= |path| && d == Upper(path, depth)
      requires Pinned(handles, path, how, Depth(before, path), depth - 1) && dirs == Grown(before, path, depth - 1)
      modifies this`handles, this`dirs
      ensures ok <==> how(depth).creation != Refused && how(depth).opens
      ensures ok ==> dirs == Grown(before, path, depth) && Pinned(handles, path, how, Depth(before, path), depth)
      ensures !ok ==> dirs == Grown(before, path, LeftAfter(how, Depth(before, path), depth)) && NoneMade(handles)
    {
      ghost var above := Depth(before, path);
      PinnedLength(handles, path, how, above, depth - 1);
      LeftIs(how, above, depth);
      var answer := how(depth);
      hide Upper, Depth, Closed, Grown, Foreign, Pinned, NoneMade, LeftAfter;
      if answer.creation == Refused {
        RollbackCreated(path, how, before, depth - 1);
        return false;
      }
      GrownStep(before, path, depth - 1);
      dirs := dirs + {d};
      assert dirs == Grown(before, path, depth);
      if !answer.opens {
        RollbackCreated(path, how, before, depth);
        return false;
      }
      PinnedSnoc(handles, path, how, above, depth - 1);
      handles := handles + [Pin(d, answer.creation == Made, true)];
      ok := true;
    }

    /** Make what is missing, from the top. */
    method CreateMissing(path: Path, how: nat -> Answer) returns (ok: bool)
      requires Closed(dirs) && Pinned(handles, path, how, Depth(dirs, path), Depth(dirs, path))
      requires |missing| == |path| - Depth(dirs, path)
      requires Listed(missing, path)
      modifies this
      ensures var above := old(Depth(dirs, path));
        && var failing := Failing(how, above + 1, |path|);
        && (ok <==> failing > |path|)
        && (ok ==> dirs == Grown(old(dirs), path, |path|) && Pinned(handles, path, how, above, |path|) && missing == [])
        && (!ok ==> dirs == Grown(old(dirs), path, LeftAfter(how, above, failing)) && NoneMade(handles))
    {
      ghost var before, above := dirs, Depth(dirs, path);
      var list := missing;
      ghost var failing := Failing(how, above + 1, |path|);
      GrownFrom(dirs, path, above);
      hide Upper, Depth, Closed, Grown, Failing, LeftAfter, Foreign, Pinned, NoneMade, Listed;
      var depth: nat := |path| - |list|;
      for i := |list| downto 0
        invariant depth == |path| - i && dirs == Grown(before, path, depth) && Pinned(handles, path, how, above, depth)
        invariant failing == Failing(how, depth + 1, |path|)
      {
        depth := depth + 1;
        FailingStep(how, depth, |path|);
        ListedAt(list, path, i);
        ok := MakeNext(path, how, before, depth, list[i]);
        if !ok { return; }
      }
      FailingEnd(how, |path|);
      missing := [];
      ok := true;
    }

    /** Pin and make the way to a directory. All of it is there on success; a failure leaves,
        of what was missing, just what LeftAfter says. */
    method PrepareDirectory(path: Path, present: Path -> bool, safe: Path -> bool, how: nat -> Answer) returns (ok: bool)
      requires Closed(dirs) && handles == [] && forall d :: present(d) <==> d in dirs
      modifies this
      ensures var above := old(Depth(dirs, path));
        && var failing := Failing(how, above + 1, |path|);
        && var pinned := forall i :: 1 <= i <= above ==> safe(Upper(path, i));
        && (ok <==> pinned && failing > |path|)
        && dirs == Grown(old(dirs), path, if !pinned then 0 else if ok then |path| else LeftAfter(how, above, failing))
        && (ok ==> |handles| == |path|)
    {
      hide Upper, Closed, Grown, Failing, Foreign, LeftAfter, NoneMade;
      GrownNone(dirs, path);
      ok := LockExistingChain(path, present, safe);
      if ok { ok := CreateMissing(path, how); }
    }
  }

  lemma GrownNone(dirs: set<Path>, path: Path)
    ensures Grown(dirs, path, 0) == dirs
  {
  }
}
